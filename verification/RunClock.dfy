/**
  The run clock (run_clock.rs): run time follows venue time at an exact rational
  pace from an anchor, and a stamp never falls behind the committed clock.
 */
module RunClock {
  import opened Words

  datatype ClockMode = Paced(intervalNs: nat) | Lockstep | Accelerated

  datatype ClockView = ClockView(now: nat, stepNs: nat, mode: ClockMode, active: bool)

  datatype Pace = Pace(step: nat, interval: nat)

  /** A run instant paired with the venue instant it was at. */
  datatype Anchor = Anchor(runNs: nat, venueUs: nat, pace: Pace)

  /** Values the source's 64-bit fields can hold. */
  predicate Fits(n: nat) {
    n <= U64_MAX
  }

  predicate ViewFits(v: ClockView) {
    Fits(v.now) && Fits(v.stepNs) && (v.mode.Paced? ==> Fits(v.mode.intervalNs))
  }

  predicate Positive(p: Pace) {
    p.step > 0 && p.interval > 0
  }

  /** The pace of a view that follows venue time. */
  function PaceOf(v: ClockView): (p: Option<Pace>)
    ensures p.Some? ==> Positive(p.value)
  {
    if v.mode.Paced? && v.active && v.stepNs > 0 && v.mode.intervalNs > 0
    then Some(Pace(v.stepNs, v.mode.intervalNs))
    else None
  }

  /** `u64::try_from(n).unwrap_or(u64::MAX)` */
  function Clamp(n: nat): nat {
    Min(n, U64_MAX)
  }

  function CeilDiv(x: nat, d: nat): nat
    requires d > 0
  {
    (x + d - 1) / d
  }

  function RunAt(a: Anchor, venueUs: nat): nat
    requires Positive(a.pace)
  {
    SatAdd(a.runNs, Clamp(SatSub(venueUs, a.venueUs) * 1000 * a.pace.step / a.pace.interval))
  }

  /** The first venue microsecond at which run time reaches `runNs`. */
  function VenueAt(a: Anchor, runNs: nat): nat
    requires Positive(a.pace)
  {
    SatAdd(a.venueUs, Clamp(CeilDiv(CeilDiv(SatSub(runNs, a.runNs) * a.pace.interval, a.pace.step), 1000)))
  }

  /** The run's anchor at a venue instant, restarted when it no longer applies. */
  function Current(anchor: Option<Anchor>, view: ClockView, pace: Pace, venueUs: nat): (a: Anchor)
    requires Positive(pace)
    ensures a.pace == pace
  {
    if anchor.Some? && anchor.value.pace == pace && venueUs >= anchor.value.venueUs
      && RunAt(anchor.value, venueUs) >= view.now
    then anchor.value
    else Anchor(view.now, venueUs, pace)
  }

  /** A stamp and the anchor it leaves. */
  function Stamp(anchor: Option<Anchor>, view: ClockView, venueUs: nat): (nat, Option<Anchor>) {
    match PaceOf(view)
    case None => (view.now, None)
    case Some(pace) =>
      var a := Current(anchor, view, pace, venueUs);
      (RunAt(a, venueUs), Some(a))
  }

  class Clock {
    var anchors: map<nat, Anchor>

    constructor ()
      ensures anchors == map[]
    {
      anchors := map[];
    }

    function AnchorOf(run: nat): Option<Anchor>
      reads this
    {
      if run in anchors then Some(anchors[run]) else None
    }

    /** `current`: finds or restarts the anchor in place. */
    method CurrentAnchor(run: nat, view: ClockView, pace: Pace, venueUs: nat) returns (a: Anchor)
      requires Positive(pace)
      modifies this
      ensures a == Current(old(AnchorOf(run)), view, pace, venueUs)
      ensures anchors == old(anchors)[run := a]
    {
      var restart := Anchor(view.now, venueUs, pace);
      if run !in anchors {
        anchors := anchors[run := restart];
      }
      a := anchors[run];
      if a.pace != pace || venueUs < a.venueUs || RunAt(a, venueUs) < view.now {
        a := restart;
        anchors := anchors[run := a];
      }
    }

    method StampNow(run: nat, view: ClockView, venueUs: nat) returns (t: nat)
      modifies this
      ensures t == Stamp(old(AnchorOf(run)), view, venueUs).0
      ensures AnchorOf(run) == Stamp(old(AnchorOf(run)), view, venueUs).1
      ensures anchors - {run} == old(anchors) - {run}
    {
      var pace := PaceOf(view);
      if pace.None? {
        anchors := anchors - {run};
        return view.now;
      }
      var a := CurrentAnchor(run, view, pace.value, venueUs);
      t := RunAt(a, venueUs);
    }

    /** Reads without moving the mapping; agrees with the stamp it predicts. */
    method Peek(run: nat, view: ClockView, venueUs: nat) returns (t: nat)
      requires ViewFits(view)
      ensures t == Stamp(AnchorOf(run), view, venueUs).0
    {
      var pace := PaceOf(view);
      if pace.None? {
        return view.now;
      }
      if run in anchors && anchors[run].pace == pace.value && venueUs >= anchors[run].venueUs {
        t := Max(RunAt(anchors[run], venueUs), view.now);
      } else {
        t := view.now;
      }
      FreshReadsNow(view, pace.value, venueUs);
    }

    method VenueInstant(run: nat, view: ClockView, at: nat, nowUs: nat) returns (r: Option<nat>)
      modifies this
      ensures PaceOf(view).None? ==> r == None && anchors == old(anchors)
      ensures PaceOf(view).Some? ==>
        var a := Current(old(AnchorOf(run)), view, PaceOf(view).value, nowUs);
        r == Some(VenueAt(a, at)) && anchors == old(anchors)[run := a]
    {
      var pace := PaceOf(view);
      if pace.None? {
        return None;
      }
      var a := CurrentAnchor(run, view, pace.value, nowUs);
      r := Some(VenueAt(a, at));
    }
  }

  // ----- Exact division ----------------------------------------------------

  lemma MulOrder(a: nat, b: nat, d: nat)
    requires a <= b
    ensures a * d <= b * d
  {
  }

  lemma DivAtLeast(x: nat, d: nat, k: nat)
    requires d > 0
    ensures x / d >= k <==> x >= k * d
  {
    if x / d >= k {
      MulOrder(k, x / d, d);
    } else {
      MulOrder(x / d + 1, k, d);
    }
  }

  lemma CeilAtMost(x: nat, d: nat, e: nat)
    requires d > 0
    ensures CeilDiv(x, d) <= e <==> x <= e * d
  {
    DivAtLeast(x + d - 1, d, e + 1);
    assert (e + 1) * d == e * d + d;
  }

  lemma DivOrder(x: nat, y: nat, d: nat)
    requires d > 0 && x <= y
    ensures x / d <= y / d
  {
    DivAtLeast(y, d, x / d);
    DivAtLeast(x, d, x / d);
  }

  lemma FloorOfSum(x: nat, y: nat, d: nat)
    requires d > 0
    ensures (x + y) / d <= x / d + y / d + 1
  {
    var p, q := x / d, y / d;
    DivAtLeast(x, d, p + 1);
    DivAtLeast(y, d, q + 1);
    DivAtLeast(x + y, d, p + q + 2);
    assert (p + 1) * d + (q + 1) * d == (p + q + 2) * d;
  }

  /** Run nanoseconds gained in `us` venue microseconds, before clamping. */
  function Gained(us: nat, pace: Pace): nat
    requires Positive(pace)
  {
    us * 1000 * pace.step / pace.interval
  }

  lemma GainedSplit(a: nat, b: nat, pace: Pace)
    requires Positive(pace)
    ensures Gained(a, pace) <= Gained(a + b, pace) <= Gained(a, pace) + Gained(b, pace) + 1
  {
    assert (a + b) * 1000 * pace.step == a * 1000 * pace.step + b * 1000 * pace.step;
    FloorOfSum(a * 1000 * pace.step, b * 1000 * pace.step, pace.interval);
    DivOrder(a * 1000 * pace.step, (a + b) * 1000 * pace.step, pace.interval);
  }

  // ----- Claims ------------------------------------------------------------

  /**
    `VenueAt` and `RunAt` are adjoint: run time has reached a later target
    exactly from the venue microsecond `VenueAt` names, so a tick released
    then is neither early nor late.
   */
  lemma TickIsFirstInstantDue(a: Anchor, target: nat, v: nat)
    requires Positive(a.pace) && Fits(target) && a.runNs < target && v < U64_MAX
    ensures RunAt(a, v) >= target <==> v >= VenueAt(a, target)
  {
    var ahead, elapsed := target - a.runNs, SatSub(v, a.venueUs);
    var step, interval := a.pace.step, a.pace.interval;
    DivAtLeast(elapsed * 1000 * step, interval, ahead);
    var venueNs := CeilDiv(ahead * interval, step);
    CeilAtMost(ahead * interval, step, elapsed * 1000);
    CeilAtMost(venueNs, 1000, elapsed);
    CeilAtMost(ahead * interval, step, 0);
    CeilAtMost(venueNs, 1000, 0);
    assert ahead * interval > 0 by { MulOrder(1, ahead, interval); }
    assert RunAt(a, v) >= target <==> elapsed * 1000 * step / interval >= ahead;
    assert CeilDiv(venueNs, 1000) <= elapsed <==> ahead * interval <= elapsed * 1000 * step;
  }

  lemma FreshReadsNow(view: ClockView, pace: Pace, venueUs: nat)
    requires Positive(pace) && Fits(view.now)
    ensures RunAt(Anchor(view.now, venueUs, pace), venueUs) == view.now
  {
    assert 0 * 1000 * pace.step / pace.interval == 0;
  }

  /** A stamp never falls behind the committed clock. */
  lemma StampNeverBehind(anchor: Option<Anchor>, view: ClockView, venueUs: nat)
    requires ViewFits(view)
    ensures Stamp(anchor, view, venueUs).0 >= view.now
  {
    if PaceOf(view).Some? {
      FreshReadsNow(view, PaceOf(view).value, venueUs);
    }
  }

  /**
    One input of a paced run: the committed clock is what the last committed
    stamp made it, or later when an operator advanced it.
   */
  datatype Input = Input(venueUs: nat, commits: bool, advance: nat)

  /** The stamps a run of inputs gives at one pace, from a clock and its anchor. */
  function Stamps(anchor: Option<Anchor>, now: nat, pace: Pace, inputs: seq<Input>): (seq<nat>, Option<Anchor>)
    requires Positive(pace)
    decreases |inputs|
  {
    if inputs == [] then ([], anchor)
    else
      var (t, a) := Stamp(anchor, View(now + inputs[0].advance, pace), inputs[0].venueUs);
      var next := if inputs[0].commits then t else now + inputs[0].advance;
      var (rest, last) := Stamps(a, next, pace, inputs[1..]);
      ([t] + rest, last)
  }

  function View(now: nat, pace: Pace): ClockView {
    ClockView(now, pace.step, Paced(pace.interval), true)
  }

  ghost predicate NonDecreasing(inputs: seq<Input>, from: nat) {
    && (forall i | 0 <= i < |inputs| :: from <= inputs[i].venueUs)
    && (forall i, j | 0 <= i < j < |inputs| :: inputs[i].venueUs <= inputs[j].venueUs)
  }

  lemma RunAtOrder(a: Anchor, v: nat, w: nat)
    requires Positive(a.pace) && v <= w
    ensures RunAt(a, v) <= RunAt(a, w)
  {
    GainedSplit(SatSub(v, a.venueUs), SatSub(w, a.venueUs) - SatSub(v, a.venueUs), a.pace);
    assert SatSub(v, a.venueUs) * 1000 * a.pace.step / a.pace.interval == Gained(SatSub(v, a.venueUs), a.pace);
    assert SatSub(w, a.venueUs) * 1000 * a.pace.step / a.pace.interval == Gained(SatSub(w, a.venueUs), a.pace);
  }

  /** While only stamps move the clock, the anchor stays and every stamp reads from it. */
  lemma {:induction false} StampsKeepTheAnchor(a: Anchor, now: nat, last: nat, inputs: seq<Input>)
    requires Positive(a.pace) && a.venueUs <= last && now <= RunAt(a, last)
    requires NonDecreasing(inputs, last)
    requires forall i | 0 <= i < |inputs| :: inputs[i].advance == 0
    ensures var (ts, end) := Stamps(Some(a), now, a.pace, inputs);
      && |ts| == |inputs| && end == Some(a)
      && forall i | 0 <= i < |inputs| :: ts[i] == RunAt(a, inputs[i].venueUs)
    decreases |inputs|
  {
    if inputs != [] {
      var v := inputs[0].venueUs;
      RunAtOrder(a, last, v);
      var next := if inputs[0].commits then RunAt(a, v) else now;
      assert forall i | 0 <= i < |inputs[1..]| :: inputs[1..][i] == inputs[i + 1];
      StampsKeepTheAnchor(a, next, v, inputs[1..]);
      var (ts, end) := Stamps(Some(a), now, a.pace, inputs);
      assert ts[1..] == Stamps(Some(a), next, a.pace, inputs[1..]).0;
      forall i | 0 <= i < |inputs| ensures ts[i] == RunAt(a, inputs[i].venueUs) {
        if i > 0 {
          assert ts[i] == ts[1..][i - 1] && inputs[i] == inputs[1..][i - 1];
        }
      }
    }
  }

  /**
    No accumulated rounding: at one pace, from the first stamp on, with release
    instants that do not go back and a clock moved only by its own stamps,
    every stamp is the start plus the exact floor of the venue time elapsed
    since the first, however many stamps came between (until 64 bits run out).
   */
  lemma StampsDoNotDrift(start: nat, pace: Pace, inputs: seq<Input>, i: nat)
    requires Positive(pace) && Fits(start) && i < |inputs|
    requires NonDecreasing(inputs, 0) && forall j | 0 <= j < |inputs| :: inputs[j].advance == 0
    requires start + (inputs[i].venueUs - inputs[0].venueUs) * 1000 * pace.step / pace.interval <= U64_MAX
    ensures var ts := Stamps(None, start, pace, inputs).0;
      && |ts| == |inputs|
      && ts[i] == start + (inputs[i].venueUs - inputs[0].venueUs) * 1000 * pace.step / pace.interval
  {
    var a := Anchor(start, inputs[0].venueUs, pace);
    FreshReadsNow(View(start, pace), pace, inputs[0].venueUs);
    assert Stamps(None, start, pace, inputs) == Stamps(Some(a), start, pace, inputs);
    StampsKeepTheAnchor(a, start, inputs[0].venueUs, inputs);
    assert SatSub(inputs[i].venueUs, a.venueUs) == inputs[i].venueUs - inputs[0].venueUs;
  }

  /**
    Re-anchoring after an operator advance never makes a later instant's run
    time earlier than the old mapping had it.
   */
  lemma ReanchorNeverEarlier(a: Anchor, view: ClockView, at: nat, v: nat)
    requires Positive(a.pace) && a.venueUs <= at <= v && RunAt(a, at) < view.now
    ensures RunAt(Anchor(view.now, at, a.pace), v) >= RunAt(a, v)
  {
    var before, after := at - a.venueUs, v - at;
    GainedSplit(before, after, a.pace);
    assert before + after == v - a.venueUs;
    assert (v - a.venueUs) * 1000 * a.pace.step / a.pace.interval == Gained(before + after, a.pace);
    assert after * 1000 * a.pace.step / a.pace.interval == Gained(after, a.pace);
    assert before * 1000 * a.pace.step / a.pace.interval == Gained(before, a.pace);
  }

  /** Over any run at one pace, with advances at any point, the mapping only moves forward. */
  lemma {:induction false} MappingOnlyMovesForward(a: Anchor, now: nat, last: nat, inputs: seq<Input>, v: nat)
    requires Positive(a.pace) && a.venueUs <= last && NonDecreasing(inputs, last)
    requires forall i | 0 <= i < |inputs| :: inputs[i].venueUs <= v
    ensures var end := Stamps(Some(a), now, a.pace, inputs).1;
      && end.Some? && end.value.pace == a.pace
      && (end.value.venueUs <= v || inputs == [])
      && RunAt(end.value, v) >= RunAt(a, v)
    decreases |inputs|
  {
    if inputs != [] {
      var at := inputs[0].venueUs;
      var view := View(now + inputs[0].advance, a.pace);
      assert PaceOf(view) == Some(a.pace);
      var b := Current(Some(a), view, a.pace, at);
      var t := RunAt(b, at);
      if b != a {
        ReanchorNeverEarlier(a, view, at, v);
      }
      var next := if inputs[0].commits then t else view.now;
      assert forall i | 0 <= i < |inputs[1..]| :: inputs[1..][i] == inputs[i + 1];
      MappingOnlyMovesForward(b, next, at, inputs[1..], v);
    }
  }

  /**
    A queued tick still finds its item due: released at the instant `VenueAt`
    named under the anchor of the time, after any stamps and advances since,
    its own stamp has reached the item.
   */
  lemma QueuedTickFindsItsItemDue(a: Anchor, now: nat, last: nat, inputs: seq<Input>, due: nat, release: nat,
      clock: nat)
    requires Positive(a.pace) && a.venueUs <= last && NonDecreasing(inputs, last) && Fits(clock)
    requires Fits(due) && a.runNs < due && VenueAt(a, due) <= release < U64_MAX
    requires forall i | 0 <= i < |inputs| :: inputs[i].venueUs <= release
    ensures var end := Stamps(Some(a), now, a.pace, inputs).1;
      Stamp(end, View(clock, a.pace), release).0 >= due
  {
    TickIsFirstInstantDue(a, due, release);
    MappingOnlyMovesForward(a, now, last, inputs, release);
    var end := Stamps(Some(a), now, a.pace, inputs).1;
    FreshReadsNow(View(clock, a.pace), a.pace, release);
    assert release >= end.value.venueUs || inputs == [];
    VenueAtAfterAnchor(a, due);
  }

  lemma VenueAtAfterAnchor(a: Anchor, due: nat)
    requires Positive(a.pace) && VenueAt(a, due) < U64_MAX
    ensures a.venueUs <= VenueAt(a, due)
  {
  }

  // ----- A halted run ------------------------------------------------------

  /** Run time follows venue time only under an active paced clock that moves. */
  predicate Follows(v: ClockView) {
    v.active && v.mode.Paced? && v.stepNs > 0 && v.mode.intervalNs > 0
  }

  /** The stamps of any views, one after another. */
  function StampEach(anchor: Option<Anchor>, calls: seq<(ClockView, nat)>): (seq<nat>, Option<Anchor>) {
    if calls == [] then ([], anchor)
    else
      var (front, a) := StampEach(anchor, calls[..|calls| - 1]);
      var (t, b) := Stamp(a, calls[|calls| - 1].0, calls[|calls| - 1].1);
      (front + [t], b)
  }

  /** While a run does not follow venue time every stamp is its committed clock and no anchor is kept. */
  lemma {:induction false} HaltedClockStands(anchor: Option<Anchor>, calls: seq<(ClockView, nat)>)
    requires forall i | 0 <= i < |calls| :: !Follows(calls[i].0)
    ensures var (ts, end) := StampEach(anchor, calls);
      && |ts| == |calls| && (forall i | 0 <= i < |calls| :: ts[i] == calls[i].0.now)
      && (calls != [] ==> end == None)
  {
    if calls != [] {
      HaltedClockStands(anchor, calls[..|calls| - 1]);
    }
  }

  /**
    The time a run was halted does not count: however it was stamped before and
    meanwhile, the first stamp after it resumes is the committed clock, and a
    later one that is not behind its own view adds exactly the time since.
   */
  lemma HaltedTimeDoesNotCount(
      anchor: Option<Anchor>, halted: seq<(ClockView, nat)>, resumed: ClockView, at: nat, later: ClockView, v: nat)
    requires halted != [] && forall i | 0 <= i < |halted| :: !Follows(halted[i].0)
    requires Follows(resumed) && ViewFits(resumed) && at <= v
    requires later == resumed.(now := later.now)
    requires var t := resumed.now + (v - at) * 1000 * resumed.stepNs / resumed.mode.intervalNs;
      later.now <= t <= U64_MAX
    ensures var (t, a) := Stamp(StampEach(anchor, halted).1, resumed, at);
      && t == resumed.now
      && Stamp(a, later, v).0 == resumed.now + (v - at) * 1000 * resumed.stepNs / resumed.mode.intervalNs
  {
    HaltedClockStands(anchor, halted);
    var pace := Pace(resumed.stepNs, resumed.mode.intervalNs);
    var a := Anchor(resumed.now, at, pace);
    FreshReadsNow(resumed, pace, at);
    assert Stamp(None, resumed, at) == (resumed.now, Some(a));
    assert SatSub(v, at) == v - at;
    assert RunAt(a, v) == resumed.now + (v - at) * 1000 * pace.step / pace.interval;
  }

  const U128_END: nat := 0x1_0000_0000_0000_0000 * 0x1_0000_0000_0000_0000

  /**
    The 128-bit products cannot overflow: `RunAt`'s below 2^54 elapsed
    microseconds, `VenueAt`'s for any run time ahead and any interval.
   */
  lemma ElapsedProductFits(elapsed: nat, step: nat, ahead: nat, interval: nat)
    requires elapsed < 0x40_0000_0000_0000 && Fits(step) && Fits(ahead) && Fits(interval)
    ensures elapsed * 1000 * step < U128_END && ahead * interval < U128_END
  {
    WordsMultiply(elapsed * 1000, step);
    WordsMultiply(ahead, interval);
  }

  lemma WordsMultiply(a: nat, b: nat)
    requires a <= U64_MAX && b <= U64_MAX
    ensures a * b < U128_END
  {
    MulOrder(a, U64_MAX, b);
    MulOrder(b, U64_MAX, U64_MAX);
  }
}
