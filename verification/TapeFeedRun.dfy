/**
  Consolidated feeds over the tape itself: a run of the tape is a history of its
  processor, and what its subscribers are sent is what it sent.
 */
module TapeFeedRun {
  import opened Words
  import opened Market
  import opened TimedQueue
  import opened Tape
  import opened TapeClient
  import TapeRun
  import opened TapeFeed

  // ----- What a run of the tape does to its processor ----------------------

  function AppliedEach(items: seq<TapeRun.Timed>): seq<Happening> {
    seq(|items|, n requires 0 <= n < |items| => Applied(items[n]))
  }

  /** What one step of the tape does to the processor. */
  function HappensIn(tr: TapeRun.Trace, step: TapeRun.Step): seq<Happening> {
    match step
    case Release(now) => AppliedEach(Due(tr.tape.inFlight, now))
    case Call(call, _) => if call.Prime? then [Primed(call.quotes)] else []
  }

  function HappensOver(tr: TapeRun.Trace, cfg: Config, steps: seq<TapeRun.Step>): seq<Happening>
    requires TapeRun.AllLawful(tr, cfg, steps)
    decreases |steps|
  {
    if steps == [] then []
    else HappensIn(tr, steps[0]) + HappensOver(TapeRun.Next(tr, cfg, steps[0]), cfg, steps[1..])
  }

  lemma AppliedNext(items: seq<TapeRun.Timed>)
    requires items != []
    ensures AppliedEach(items)[..|items| - 1] == AppliedEach(items[..|items| - 1])
  {
  }

  lemma {:induction false} AppliedAdvances(p: Processor, items: seq<TapeRun.Timed>)
    ensures HappenAll(p, AppliedEach(items)) == AdvanceAll(p, items)
  {
    if items != [] {
      AppliedAdvances(p, items[..|items| - 1]);
      AppliedNext(items);
    }
  }

  lemma {:induction false} AppliedSays(p: Processor, items: seq<TapeRun.Timed>)
    ensures SaidAll(p, AppliedEach(items)) == Records(p, items)
  {
    if items != [] {
      AppliedSays(p, items[..|items| - 1]);
      AppliedAdvances(p, items[..|items| - 1]);
      AppliedNext(items);
    }
  }

  /** The changes among what happened, in order. */
  function AppliedIn(es: seq<Happening>): seq<TapeRun.Timed> {
    if es == [] then []
    else AppliedIn(es[..|es| - 1]) + if es[|es| - 1].Applied? then [es[|es| - 1].change] else []
  }

  lemma {:induction false} AppliedInEach(items: seq<TapeRun.Timed>)
    ensures AppliedIn(AppliedEach(items)) == items
  {
    if items != [] {
      var front := items[..|items| - 1];
      AppliedInEach(front);
      assert AppliedEach(items)[..|items| - 1] == AppliedEach(front);
    }
  }

  lemma {:induction false} AppliedInConcat(a: seq<Happening>, b: seq<Happening>)
    ensures AppliedIn(a + b) == AppliedIn(a) + AppliedIn(b)
  {
    if b == [] {
      assert a + b == a;
    } else {
      var all := a + b;
      assert all[..|all| - 1] == a + b[..|b| - 1];
      AppliedInConcat(a, b[..|b| - 1]);
    }
  }

  lemma OneHappens(p: Processor, e: Happening)
    ensures HappenAll(p, [e]) == Happen(p, e) && SaidAll(p, [e]) == Said(p, e)
  {
    assert [e][..0] == [] && Fold(Happen, p, []) == p;
    assert Emit(Happen, Said, p, []) == [];
  }

  lemma StepHappens(tr: TapeRun.Trace, cfg: Config, step: TapeRun.Step)
    requires TapeRun.Lawful(tr, step)
    ensures var u, es := TapeRun.Next(tr, cfg, step), HappensIn(tr, step);
      && u.tape.processor == HappenAll(tr.tape.processor, es)
      && u.tape.sent == tr.tape.sent + SaidAll(tr.tape.processor, es)
      && u.applied == tr.applied + AppliedIn(es)
  {
    match step
    case Release(now) =>
      AppliedAdvances(tr.tape.processor, Due(tr.tape.inFlight, now));
      AppliedSays(tr.tape.processor, Due(tr.tape.inFlight, now));
      AppliedInEach(Due(tr.tape.inFlight, now));
    case Call(call, delays) =>
      if call.Prime? {
        OneHappens(tr.tape.processor, Primed(call.quotes));
        assert AppliedIn([Primed(call.quotes)]) == AppliedIn([Primed(call.quotes)][..0]) == [];
      } else if TapeRun.Carries(call) {
        var d := TapeRun.DepartureOf(call, delays);
        TapeRun.AllDepartOrDown(tr.tape, cfg, d, |d.changes|);
      }
  }

  /** Over every run the processor and what it sent are those of its history. */
  lemma {:induction false} RunHappens(tr: TapeRun.Trace, cfg: Config, steps: seq<TapeRun.Step>)
    requires TapeRun.AllLawful(tr, cfg, steps)
    ensures var u, es := TapeRun.Run(tr, cfg, steps), HappensOver(tr, cfg, steps);
      && u.tape.processor == HappenAll(tr.tape.processor, es)
      && u.tape.sent == tr.tape.sent + SaidAll(tr.tape.processor, es)
      && u.applied == tr.applied + AppliedIn(es)
    decreases |steps|
  {
    if steps != [] {
      var t, es := TapeRun.Next(tr, cfg, steps[0]), HappensIn(tr, steps[0]);
      var more := HappensOver(t, cfg, steps[1..]);
      StepHappens(tr, cfg, steps[0]);
      RunHappens(t, cfg, steps[1..]);
      FoldConcat(Happen, tr.tape.processor, es, more);
      EmitConcat(Happen, Said, tr.tape.processor, es, more);
      Regroup(tr.tape.sent, SaidAll(tr.tape.processor, es), SaidAll(t.tape.processor, more));
      AppliedInConcat(es, more);
      Regroup(tr.applied, AppliedIn(es), AppliedIn(more));
    }
  }

  // ----- The subscribers of a run ------------------------------------------

  function HistoryOfRun(cfg: Config, steps: seq<TapeRun.Step>): History
    requires TapeRun.AllLawful(TapeRun.START, cfg, steps)
  {
    HistoryOf(TapeRun.START.tape.processor, HappensOver(TapeRun.START, cfg, steps))
  }

  /**
    The history of a run from the start ends in the tape's own processor, its
    records of an instrument are what the tape sent of it, and the consolidated-
    feed theorem holds of it while the instrument's numbers last.
   */
  lemma SubscribersOfTheTape(cfg: Config, steps: seq<TapeRun.Step>, i: nat)
    requires TapeRun.AllLawful(TapeRun.START, cfg, steps)
    ensures var h, u := HistoryOfRun(cfg, steps), TapeRun.Run(TapeRun.START, cfg, steps);
      && Runs(h) && h.states[|h.events|] == u.tape.processor
      && OfInstrument(u.tape.sent, i) == RecordsSent(SentIn(h, i, 0, |h.events|))
      && (NextAt(u.tape.processor, i) < U64_MAX ==> Counts(h, i))
  {
    var p, es := TapeRun.START.tape.processor, HappensOver(TapeRun.START, cfg, steps);
    RunHappens(TapeRun.START, cfg, steps);
    HistoryEnds(p, es, i);
    assert [] + SaidAll(p, es) == SaidAll(p, es);
  }

  lemma HistoryEnds(p: Processor, es: seq<Happening>, i: nat)
    ensures var h := HistoryOf(p, es);
      && Runs(h) && h.states[0] == p && h.states[|es|] == HappenAll(p, es)
      && OfInstrument(SaidAll(p, es), i) == RecordsSent(SentIn(h, i, 0, |es|))
      && (1 <= NextAt(p, i) && NextAt(HappenAll(p, es), i) < U64_MAX ==> Counts(h, i))
  {
    HistoryRuns(p, es);
    HistoryIsPublished(p, es, i, |es|);
    assert es[..|es|] == es && es[..0] == [];
  }

  // ----- A prime after the snapshot ----------------------------------------

  lemma RunOfFour(h: History, s: System, a: TapeFeed.Step, b: TapeFeed.Step, c: TapeFeed.Step, d: TapeFeed.Step)
    requires Shaped(h)
    ensures TapeFeed.Run(h, s, [a, b, c, d])
         == TapeFeed.Next(h, TapeFeed.Next(h, TapeFeed.Next(h, TapeFeed.Next(h, s, a), b), c), d)
  {
    var s1 := TapeFeed.Next(h, s, a);
    var s2 := TapeFeed.Next(h, s1, b);
    var s3 := TapeFeed.Next(h, s2, c);
    assert [a, b, c, d][1..] == [b, c, d] && [b, c, d][1..] == [c, d] && [c, d][1..] == [d] && [d][1..] == [];
    assert TapeFeed.Run(h, s3, [d]) == TapeFeed.Run(h, TapeFeed.Next(h, s3, d), []);
    assert TapeFeed.Run(h, s2, [c, d]) == TapeFeed.Run(h, s3, [d]);
    assert TapeFeed.Run(h, s1, [b, c, d]) == TapeFeed.Run(h, s2, [c, d]);
  }

  /** A client that has read an empty snapshot, after a prime it is not told of. */
  lemma PrimedUnsaid(h: History, k: ListingKey, q: Quotes)
    requires Runs(h) && h.events == [Primed(map[k := q])] && h.states[0] == Processor(map[], map[])
    ensures var i := k.instrument;
        var s := TapeFeed.Run(h, TapeFeed.Start(i, 0, 0), [TakeSnapshot, Reply, Apply, Drain]);
      && s.feed.pending.None? && s.drained == 1 && s.snapshot == Some(0)
      && s.client.received == [] && s.client.view == map[]
  {
    var i := k.instrument;
    var s0 := TapeFeed.Start(i, 0, 0);
    assert Applies(h, 0);
    RunOfFour(h, s0, TakeSnapshot, Reply, Apply, Drain);
    var s2 := TapeFeed.Next(h, TapeFeed.Next(h, s0, TakeSnapshot), Reply);
    assert Following([], 0) == [];
    assert s2 == Join(h, s0.(snapshot := Some(0)));
    assert s2.client == SnapshotClient(h, i, 0) && s2.feed.pending.None? && !s2.closed;
    assert SnapshotOf(At(h, 0), i).1 == map[];
  }

  /**
    A client that snapshots before the first commit primes the tape is never
    told of the quotes the prime brings: no record, no skipped number.
   */
  lemma PrimeAfterSnapshotIsMissed(cfg: Config, k: ListingKey, q: Quotes)
    requires q != NO_QUOTES
    ensures var steps := [TapeRun.Call(Prime(map[k := q]), [])];
      && TapeRun.AllLawful(TapeRun.START, cfg, steps)
      && var h, u := HistoryOfRun(cfg, steps), TapeRun.Run(TapeRun.START, cfg, steps);
      var s := TapeFeed.Run(h, TapeFeed.Start(k.instrument, 0, 0), [TakeSnapshot, Reply, Apply, Drain]);
      && s.feed.pending.None? && s.drained == |h.events| && Gaps(h, k.instrument, 0, |h.events|) == 0
      && s.client.received == [] && u.tape.sent == [] && !Shows(s.client.view, u.tape.processor, k.instrument)
  {
    var steps := [TapeRun.Call(Prime(map[k := q]), [])];
    assert steps[1..] == [];
    assert TapeRun.AllLawful(TapeRun.START, cfg, steps);
    var h, u := HistoryOfRun(cfg, steps), TapeRun.Run(TapeRun.START, cfg, steps);
    SubscribersOfTheTape(cfg, steps, k.instrument);
    assert u == TapeRun.Next(TapeRun.START, cfg, steps[0]);
    assert HappensOver(TapeRun.START, cfg, steps) == [Primed(map[k := q])];
    PrimedUnsaid(h, k, q);
    assert Look(map[], k) == NO_QUOTES && QuotesAt(u.tape.processor, k) == q;
  }

  // ----- Report numbers ----------------------------------------------------

  /** The entries of an instrument among records. */
  function Numbers(rs: seq<Record>, i: nat): nat {
    if rs == [] then 0
    else Numbers(rs[..|rs| - 1], i) + if rs[|rs| - 1].instrument == i then |rs[|rs| - 1].entries| else 0
  }

  /** The gaps of an instrument among applied changes. */
  function Skipped(items: seq<TapeRun.Timed>, i: nat): nat {
    if items == [] then 0
    else
      var c := items[|items| - 1].value;
      Skipped(items[..|items| - 1], i) + if c.gap && c.listing.instrument == i then 1 else 0
  }

  lemma NumbersMore(rs: seq<Record>, r: seq<Record>, i: nat)
    requires |r| <= 1
    ensures Numbers(rs + r, i) == Numbers(rs, i) + NumbersIn(r, i)
  {
    if r == [] {
      assert rs + r == rs;
    } else {
      assert (rs + r)[..|rs|] == rs && r == [r[0]];
    }
  }

  lemma SkippedMore(items: seq<TapeRun.Timed>, x: TapeRun.Timed, i: nat)
    ensures Skipped(items + [x], i)
         == Skipped(items, i) + if x.value.gap && x.value.listing.instrument == i then 1 else 0
  {
    assert (items + [x])[..|items|] == items;
  }

  function GapIn(e: Happening, i: nat): nat {
    if e.Applied? && e.change.value.gap && e.change.value.listing.instrument == i then 1 else 0
  }

  function NumbersIn(r: seq<Record>, i: nat): nat {
    if r != [] && r[0].instrument == i then |r[0].entries| else 0
  }

  lemma AppliedSkips(items: seq<TapeRun.Timed>, e: Happening, i: nat)
    ensures Skipped(items + if e.Applied? then [e.change] else [], i) == Skipped(items, i) + GapIn(e, i)
  {
    if e.Applied? {
      SkippedMore(items, e.change, i);
    } else {
      assert items + [] == items;
    }
  }

  lemma EventTakes(p: Processor, e: Happening, i: nat)
    requires NextAt(p, i) + NumbersIn(Said(p, e), i) + GapIn(e, i) <= U64_MAX
    ensures NextAt(Happen(p, e), i) == NextAt(p, i) + NumbersIn(Said(p, e), i) + GapIn(e, i)
  {
  }

  /** Every number is that of one published entry or of one gap. */
  lemma {:induction false} NumbersAreTaken(p: Processor, es: seq<Happening>, i: nat)
    requires NextAt(p, i) + Numbers(SaidAll(p, es), i) + Skipped(AppliedIn(es), i) <= U64_MAX
    ensures NextAt(HappenAll(p, es), i) == NextAt(p, i) + Numbers(SaidAll(p, es), i) + Skipped(AppliedIn(es), i)
  {
    if es != [] {
      var front, e := es[..|es| - 1], es[|es| - 1];
      var q := HappenAll(p, front);
      NumbersMore(SaidAll(p, front), Said(q, e), i);
      AppliedSkips(AppliedIn(front), e, i);
      NumbersAreTaken(p, front, i);
      EventTakes(q, e, i);
    }
  }

  /**
    Over every run, until 64 bits run out: an instrument's next report is one
    more than the entries published of it and the gaps applied to it.
   */
  lemma ReportsCountFromOne(cfg: Config, steps: seq<TapeRun.Step>, i: nat)
    requires TapeRun.AllLawful(TapeRun.START, cfg, steps)
    requires var u := TapeRun.Run(TapeRun.START, cfg, steps);
      1 + Numbers(u.tape.sent, i) + Skipped(u.applied, i) <= U64_MAX
    ensures var u := TapeRun.Run(TapeRun.START, cfg, steps);
      NextAt(u.tape.processor, i) == 1 + Numbers(u.tape.sent, i) + Skipped(u.applied, i)
  {
    var p, es := TapeRun.START.tape.processor, HappensOver(TapeRun.START, cfg, steps);
    RunHappens(TapeRun.START, cfg, steps);
    assert [] + SaidAll(p, es) == SaidAll(p, es) && [] + AppliedIn(es) == AppliedIn(es);
    NumbersAreTaken(p, es, i);
  }
}
