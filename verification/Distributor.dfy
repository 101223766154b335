/**
  The event distributor (distributor.rs): publishing committed batches to the
  fan-out while retaining a bounded window of them, and resuming a private
  stream after a cursor from that window.
 */
module Distributor {
  import opened Words
  import opened Market
  import F = Fanout

  function Events(batches: seq<Committed>): seq<Event> {
    if batches == [] then [] else batches[0].events + Events(batches[1..])
  }

  /** The events after a cursor. */
  function After(events: seq<Event>, cursor: nat): seq<Event> {
    if events == [] then []
    else (if events[0].sequence > cursor then [events[0]] else []) + After(events[1..], cursor)
  }

  /** Consecutive event sequences following `base`. */
  ghost predicate Chained(events: seq<Event>, base: nat) {
    forall i | 0 <= i < |events| :: events[i].sequence == base + 1 + i
  }

  function LastSequence(batch: Committed): Option<nat> {
    if batch.events == [] then None else Some(batch.events[|batch.events| - 1].sequence)
  }

  predicate EndsAfter(batch: Committed, cursor: nat) {
    LastSequence(batch).Some? && LastSequence(batch).value > cursor
  }

  function EndingAfter(batches: seq<Committed>, cursor: nat): seq<Committed> {
    if batches == [] then []
    else (if EndsAfter(batches[0], cursor) then [batches[0]] else []) + EndingAfter(batches[1..], cursor)
  }

  /** Whether the retained window (or, without one, the run) covers a cursor. */
  predicate Covered(retained: seq<Committed>, cursor: nat, current: Option<nat>) {
    if retained != [] && retained[0].events != [] then
      && SatAdd(cursor, 1) >= retained[0].events[0].sequence
      && LastSequence(retained[|retained| - 1]).Some?
      && cursor <= LastSequence(retained[|retained| - 1]).value
    else current == Some(cursor)
  }

  /** The resume answer: the batches to replay, or `None` for a gap. */
  function Resume(retained: seq<Committed>, cursor: nat, current: Option<nat>): Option<seq<Committed>> {
    if Covered(retained, cursor, current) then Some(EndingAfter(retained, cursor)) else None
  }

  function Retain(retained: seq<Committed>, limit: nat, batch: Committed): seq<Committed> {
    if limit == 0 then retained
    else (if |retained| >= limit then retained[1..] else retained) + [batch]
  }

  // ----- Event sequences ---------------------------------------------------

  lemma {:induction false} EventsConcat(a: seq<Committed>, b: seq<Committed>)
    ensures Events(a + b) == Events(a) + Events(b)
  {
    if a == [] {
      assert a + b == b;
    } else {
      assert (a + b)[1..] == a[1..] + b;
      EventsConcat(a[1..], b);
      assert Events(a + b) == a[0].events + (Events(a[1..]) + Events(b));
    }
  }

  lemma {:induction false} AfterConcat(a: seq<Event>, b: seq<Event>, cursor: nat)
    ensures After(a + b, cursor) == After(a, cursor) + After(b, cursor)
  {
    if a == [] {
      assert a + b == b;
    } else {
      var head := if a[0].sequence > cursor then [a[0]] else [];
      calc {
        After(a + b, cursor);
        { assert (a + b)[0] == a[0] && (a + b)[1..] == a[1..] + b; }
        head + After(a[1..] + b, cursor);
        { AfterConcat(a[1..], b, cursor); }
        head + (After(a[1..], cursor) + After(b, cursor));
        After(a, cursor) + After(b, cursor);
      }
    }
  }

  lemma {:induction false} AfterAll(events: seq<Event>, cursor: nat)
    requires forall i | 0 <= i < |events| :: events[i].sequence > cursor
    ensures After(events, cursor) == events
  {
    if events != [] {
      AfterAll(events[1..], cursor);
    }
  }

  lemma {:induction false} AfterNone(events: seq<Event>, cursor: nat)
    requires forall i | 0 <= i < |events| :: events[i].sequence <= cursor
    ensures After(events, cursor) == []
  {
    if events != [] {
      AfterNone(events[1..], cursor);
    }
  }

  lemma ChainedSplit(a: seq<Event>, b: seq<Event>, base: nat)
    ensures Chained(a + b, base) <==> Chained(a, base) && Chained(b, base + |a|)
  {
    var all := a + b;
    if Chained(all, base) {
      forall i | 0 <= i < |a| ensures a[i].sequence == base + 1 + i {
        assert all[i] == a[i];
      }
      forall i | 0 <= i < |b| ensures b[i].sequence == base + |a| + 1 + i {
        assert all[|a| + i] == b[i];
      }
    }
  }

  ghost predicate NonEmpty(batches: seq<Committed>) {
    forall i | 0 <= i < |batches| :: batches[i].events != []
  }

  /** Skipping whole batches at or before the cursor loses no event after it. */
  lemma {:induction false} SkippingKeepsAfter(batches: seq<Committed>, cursor: nat, base: nat)
    requires NonEmpty(batches) && Chained(Events(batches), base)
    ensures After(Events(EndingAfter(batches, cursor)), cursor) == After(Events(batches), cursor)
  {
    if batches != [] {
      var first, rest := batches[0], batches[1..];
      ChainedSplit(first.events, Events(rest), base);
      SkippingKeepsAfter(rest, cursor, base + |first.events|);
      AfterConcat(first.events, Events(rest), cursor);
      if EndsAfter(first, cursor) {
        EventsConcat([first], EndingAfter(rest, cursor));
        assert Events([first]) == first.events;
        AfterConcat(first.events, Events(EndingAfter(rest, cursor)), cursor);
      } else {
        assert first.events[|first.events| - 1].sequence == base + |first.events|;
        AfterNone(first.events, cursor);
        assert EndingAfter(batches, cursor) == EndingAfter(rest, cursor);
      }
    }
  }

  lemma {:induction false} EndingAfterConcat(a: seq<Committed>, b: seq<Committed>, cursor: nat)
    ensures EndingAfter(a + b, cursor) == EndingAfter(a, cursor) + EndingAfter(b, cursor)
  {
    if a == [] {
      assert a + b == b;
    } else {
      var head := if EndsAfter(a[0], cursor) then [a[0]] else [];
      calc {
        EndingAfter(a + b, cursor);
        { assert (a + b)[0] == a[0] && (a + b)[1..] == a[1..] + b; }
        head + EndingAfter(a[1..] + b, cursor);
        { EndingAfterConcat(a[1..], b, cursor); }
        head + (EndingAfter(a[1..], cursor) + EndingAfter(b, cursor));
        (head + EndingAfter(a[1..], cursor)) + EndingAfter(b, cursor);
      }
    }
  }

  lemma {:induction false} NoneEndAfter(batches: seq<Committed>, cursor: nat, base: nat)
    requires NonEmpty(batches) && Chained(Events(batches), base) && base + |Events(batches)| <= cursor
    ensures EndingAfter(batches, cursor) == []
  {
    if batches != [] {
      var first, rest := batches[0], batches[1..];
      ChainedSplit(first.events, Events(rest), base);
      assert first.events[|first.events| - 1].sequence == base + |first.events|;
      NoneEndAfter(rest, cursor, base + |first.events|);
    }
  }

  /**
    A covered resume loses nothing to the retention window: it replays every
    published batch with events after the cursor. `log` is everything
    published, of which the last `kept` batches are retained, and `inFlight`
    events are committed but not yet published.
   */
  lemma CoveredReplay(log: seq<Committed>, kept: nat, base: nat, cursor: nat, inFlight: Option<nat>)
    requires NonEmpty(log) && Chained(Events(log), base) && kept <= |log|
    requires base + |Events(log)| < U64_MAX
    ensures var current := if inFlight.None? then None else Some(base + |Events(log)| + inFlight.value);
      var answer := Resume(log[|log| - kept..], cursor, current);
      answer.Some? ==> answer.value == EndingAfter(log, cursor)
  {
    var current := if inFlight.None? then None else Some(base + |Events(log)| + inFlight.value);
    var gone, retained := log[..|log| - kept], log[|log| - kept..];
    assert log == gone + retained;
    EventsConcat(gone, retained);
    ChainedSplit(Events(gone), Events(retained), base);
    EndingAfterConcat(gone, retained, cursor);
    if Covered(retained, cursor, current) {
      CoveredFromTheWindow(gone, retained, base, cursor, current);
      NoneEndAfter(gone, cursor, base);
    }
  }

  /** A covered cursor is not before the window. */
  lemma CoveredFromTheWindow(
      gone: seq<Committed>, retained: seq<Committed>, base: nat, cursor: nat, current: Option<nat>)
    requires NonEmpty(retained) && Chained(Events(retained), base + |Events(gone)|)
    requires Covered(retained, cursor, current)
    requires current.Some? ==> current.value >= base + |Events(gone)|
    requires base + |Events(gone)| < U64_MAX
    ensures base + |Events(gone)| <= cursor
  {
    if retained != [] {
      assert retained[0].events == Events(retained)[..|retained[0].events|];
      assert retained[0].events[0] == Events(retained)[0];
    }
  }

  // ----- Runs --------------------------------------------------------------

  datatype Resumption = Resumption(cursor: nat, answer: Option<seq<Committed>>)

  /**
    The distributor of a process that started at event sequence `base`, with
    every resumption it has answered.
   */
  datatype Dist = Dist(
    base: nat,
    limit: nat,
    published: nat,
    retained: seq<Committed>,
    fan: F.Fan<Committed>,
    resumed: map<nat, Resumption>)

  function NewDist(base: nat, capacity: nat, limit: nat): Dist {
    Dist(base, limit, 0, [], F.NewFan(capacity), map[])
  }

  /** The last published event sequence. */
  function End(d: Dist): nat {
    d.base + |Events(d.fan.sent)|
  }

  datatype Step =
    /** One committed batch, its events numbered on from the last. */
    | Publish(payloads: seq<Payload>, durableUs: nat, source: Endpoint, public: seq<ListingUpdate>,
        publicGaps: seq<ListingKey>)
    /** `inFlight` events are committed but unpublished; `None`: the run cannot be read. */
    | SubscribeResuming(cursor: nat, inFlight: Option<nat>)
    | Other(step: F.Step<Committed>)

  function Numbered(payloads: seq<Payload>, base: nat): (r: seq<Event>)
    ensures |r| == |payloads| && Chained(r, base)
  {
    seq(|payloads|, i requires 0 <= i < |payloads| => Event(base + 1 + i, payloads[i]))
  }

  function Batch(d: Dist, events: seq<Event>, s: Step): Committed
    requires s.Publish?
  {
    Committed(s.durableUs, s.source, events, d.published, s.public, s.publicGaps)
  }

  function Published(d: Dist, batch: Committed): Dist {
    if batch.events == [] then d
    else d.(
           published := d.published + 1,
           retained := Retain(d.retained, d.limit, batch),
           fan := F.Sent(d.fan, batch))
  }

  function SubscribedResuming(d: Dist, cursor: nat, inFlight: Option<nat>): Dist {
    var current := if inFlight.None? then None else Some(End(d) + inFlight.value);
    d.(fan := F.Subscribed(d.fan),
       resumed := d.resumed[d.fan.nextId := Resumption(cursor, Resume(d.retained, cursor, current))])
  }

  function Next(d: Dist, step: Step): Dist {
    match step
    case Publish(payloads, _, _, _, _) => Published(d, Batch(d, Numbered(payloads, End(d)), step))
    case SubscribeResuming(cursor, inFlight) => SubscribedResuming(d, cursor, inFlight)
    case Other(s) => if s.Send? then d else d.(fan := F.Next(d.fan, s))
  }

  function Run(d: Dist, steps: seq<Step>): Dist
    decreases |steps|
  {
    if steps == [] then d else Run(Next(d, steps[0]), steps[1..])
  }

  ghost predicate Log(d: Dist) {
    && d.published == |d.fan.sent|
    && NonEmpty(d.fan.sent)
    && (forall i | 0 <= i < |d.fan.sent| :: d.fan.sent[i].ordinal == i)
    && Chained(Events(d.fan.sent), d.base)
    && |d.retained| == Min(d.limit, |d.fan.sent|)
    && d.retained == d.fan.sent[|d.fan.sent| - |d.retained|..]
  }

  /** The answer a resumption got, against everything published before it. */
  ghost predicate Answered(d: Dist, id: nat)
    requires id in d.resumed
  {
    var r := d.resumed[id];
    && id < d.fan.nextId && id in d.fan.since && d.fan.since[id] <= |d.fan.sent|
    && (r.answer.Some? ==> r.answer.value == EndingAfter(d.fan.sent[..d.fan.since[id]], r.cursor))
  }

  ghost predicate Inv(d: Dist) {
    Log(d) && forall id :: id in d.resumed ==> Answered(d, id)
  }

  lemma PublishLog(d: Dist, batch: Committed)
    requires Log(d) && batch.events != [] && batch.ordinal == d.published && Chained(batch.events, End(d))
    ensures Log(Published(d, batch))
  {
    var e := Published(d, batch);
    EventsConcat(d.fan.sent, [batch]);
    assert Events([batch]) == batch.events;
    ChainedSplit(Events(d.fan.sent), batch.events, d.base);
    assert e.fan.sent == d.fan.sent + [batch];
    var n, k := |d.fan.sent|, |d.retained|;
    if d.limit > 0 {
      assert e.retained == e.fan.sent[|e.fan.sent| - |e.retained|..];
    }
  }

  lemma PublishKeeps(d: Dist, batch: Committed)
    requires Inv(d) && batch.ordinal == d.published && Chained(batch.events, End(d))
    ensures Inv(Published(d, batch))
  {
    if batch.events != [] {
      var e := Published(d, batch);
      PublishLog(d, batch);
      forall id | id in e.resumed ensures Answered(e, id) {
        assert Answered(d, id);
        assert e.fan.sent[..d.fan.since[id]] == d.fan.sent[..d.fan.since[id]];
      }
    }
  }

  lemma SubscribeResumingKeeps(d: Dist, cursor: nat, inFlight: Option<nat>)
    requires Inv(d) && End(d) < U64_MAX
    ensures Inv(SubscribedResuming(d, cursor, inFlight))
  {
    var e := SubscribedResuming(d, cursor, inFlight);
    forall id | id in e.resumed ensures Answered(e, id) {
      if id == d.fan.nextId {
        CoveredReplay(d.fan.sent, |d.retained|, d.base, cursor, inFlight);
        assert d.fan.sent[..|d.fan.sent|] == d.fan.sent;
      } else {
        assert Answered(d, id);
      }
    }
  }

  lemma OtherKeeps(d: Dist, step: F.Step<Committed>)
    requires Inv(d) && !step.Send?
    ensures Inv(d.(fan := F.Next(d.fan, step)))
  {
    var e := d.(fan := F.Next(d.fan, step));
    forall id | id in e.resumed ensures Answered(e, id) {
      assert Answered(d, id) && id in e.fan.since && e.fan.since[id] == d.fan.since[id];
    }
  }

  lemma {:induction false} EndGrows(d: Dist, steps: seq<Step>)
    ensures End(d) <= End(Run(d, steps))
    decreases |steps|
  {
    if steps != [] {
      var e := Next(d, steps[0]);
      assert e.fan.sent == d.fan.sent
        || (|e.fan.sent| == |d.fan.sent| + 1 && e.fan.sent == d.fan.sent + [e.fan.sent[|d.fan.sent|]]);
      if e.fan.sent != d.fan.sent {
        EventsConcat(d.fan.sent, [e.fan.sent[|d.fan.sent|]]);
      }
      EndGrows(e, steps[1..]);
    }
  }

  lemma {:induction false} RunKeeps(d: Dist, steps: seq<Step>)
    requires Inv(d) && End(Run(d, steps)) < U64_MAX
    ensures Inv(Run(d, steps))
    decreases |steps|
  {
    if steps != [] {
      var step := steps[0];
      EndGrows(d, steps);
      match step {
        case Publish(payloads, _, _, _, _) => PublishKeeps(d, Batch(d, Numbered(payloads, End(d)), step));
        case SubscribeResuming(cursor, inFlight) => SubscribeResumingKeeps(d, cursor, inFlight);
        case Other(s) =>
          if !s.Send? {
            OtherKeeps(d, s);
          }
      }
      RunKeeps(Next(d, step), steps[1..]);
    }
  }

  lemma {:induction false} FanKeeps(d: Dist, steps: seq<Step>)
    requires F.Inv(d.fan)
    ensures F.Inv(Run(d, steps).fan)
    decreases |steps|
  {
    if steps != [] {
      var step := steps[0];
      match step {
        case Publish(payloads, _, _, _, _) => F.SendKeeps(d.fan, Batch(d, Numbered(payloads, End(d)), step));
        case SubscribeResuming(cursor, inFlight) => F.SubscribeKeeps(d.fan);
        case Other(s) => F.NextKeeps(d.fan, s);
      }
      FanKeeps(Next(d, step), steps[1..]);
    }
  }

  /** What a resumed subscriber has been given, against what was published. */
  ghost predicate ExactlyOnce(
      sent: seq<Committed>, base: nat, since: nat, cursor: nat, replay: seq<Committed>, taken: seq<Committed>)
  {
    && since + |taken| <= |sent|
    && After(Events(replay) + Events(taken), cursor) == After(Events(sent[..since + |taken|]), cursor)
    && (cursor <= base + |Events(sent[..since])| || taken == []
        <==> After(Events(taken), cursor) == Events(taken))
  }

  lemma ReplayThenLive(
      sent: seq<Committed>, base: nat, since: nat, cursor: nat, replay: seq<Committed>, taken: seq<Committed>)
    requires NonEmpty(sent) && Chained(Events(sent), base)
    requires since + |taken| <= |sent| && taken == sent[since..since + |taken|]
    requires replay == EndingAfter(sent[..since], cursor)
    ensures ExactlyOnce(sent, base, since, cursor, replay, taken)
  {
    assert sent[..since + |taken|] == sent[..since] + taken;
    assert sent == (sent[..since] + taken) + sent[since + |taken|..];
    EventsConcat(sent[..since], taken);
    EventsConcat(sent[..since] + taken, sent[since + |taken|..]);
    AfterConcat(Events(replay), Events(taken), cursor);
    AfterConcat(Events(sent[..since]), Events(taken), cursor);
    ChainedSplit(Events(sent[..since] + taken), Events(sent[since + |taken|..]), base);
    ChainedSplit(Events(sent[..since]), Events(taken), base);
    SkippingKeepsAfter(sent[..since], cursor, base);
    LiveNeedsNoFilter(taken, base + |Events(sent[..since])|, cursor);
  }

  /** What a resumption was answered and what it has been handed, in terms of what was published. */
  ghost predicate Handed(d: Dist, base: nat, id: nat) {
    && NonEmpty(d.fan.sent) && Chained(Events(d.fan.sent), base)
    && id in d.fan.taken && id in d.fan.since
    && d.fan.since[id] + |d.fan.taken[id]| <= |d.fan.sent|
    && d.fan.taken[id] == d.fan.sent[d.fan.since[id]..d.fan.since[id] + |d.fan.taken[id]|]
    && id in d.resumed && (d.resumed[id].answer.Some? ==>
          d.resumed[id].answer.value == EndingAfter(d.fan.sent[..d.fan.since[id]], d.resumed[id].cursor))
  }

  lemma NewIsSound(base: nat, capacity: nat, limit: nat)
    ensures var d := NewDist(base, capacity, limit); Inv(d) && F.Inv(d.fan)
  {
  }

  lemma RunIsSound(d: Dist, steps: seq<Step>)
    requires Inv(d) && F.Inv(d.fan) && End(Run(d, steps)) < U64_MAX
    ensures var e := Run(d, steps); Inv(e) && F.Inv(e.fan) && e.base == d.base
  {
    RunKeeps(d, steps);
    RunBase(d, steps);
    FanKeeps(d, steps);
  }

  lemma HandedAfter(d: Dist, steps: seq<Step>, id: nat)
    requires Inv(d) && F.Inv(d.fan) && End(Run(d, steps)) < U64_MAX && id in Run(d, steps).resumed
    ensures var e := Run(d, steps); Handed(e, d.base, id)
  {
    RunIsSound(d, steps);
    AnsweredFacts(Run(d, steps), id);
  }

  lemma ResumedFacts(base: nat, capacity: nat, limit: nat, steps: seq<Step>, id: nat)
    requires End(Run(NewDist(base, capacity, limit), steps)) < U64_MAX
    requires id in Run(NewDist(base, capacity, limit), steps).resumed
    ensures var d := Run(NewDist(base, capacity, limit), steps); Handed(d, base, id)
  {
    NewIsSound(base, capacity, limit);
    HandedAfter(NewDist(base, capacity, limit), steps, id);
  }

  lemma AnsweredFacts(d: Dist, id: nat)
    requires Inv(d) && F.Inv(d.fan) && id in d.resumed
    ensures NonEmpty(d.fan.sent) && Chained(Events(d.fan.sent), d.base)
    ensures id in d.fan.taken && id in d.fan.since && d.fan.since[id] + |d.fan.taken[id]| <= |d.fan.sent|
    ensures d.fan.taken[id] == d.fan.sent[d.fan.since[id]..d.fan.since[id] + |d.fan.taken[id]|]
    ensures d.resumed[id].answer.Some? ==>
      d.resumed[id].answer.value == EndingAfter(d.fan.sent[..d.fan.since[id]], d.resumed[id].cursor)
  {
    assert Answered(d, id);
    TakenFacts(d.fan, id);
  }

  lemma TakenFacts(fan: F.Fan<Committed>, id: nat)
    requires F.Inv(fan) && id in fan.taken
    ensures id in fan.since && fan.since[id] + |fan.taken[id]| <= |fan.sent|
    ensures fan.taken[id] == fan.sent[fan.since[id]..fan.since[id] + |fan.taken[id]|]
  {
    assert F.Contiguous(fan, id);
    assert fan.taken[id] == F.Mine(fan, id)[..|fan.taken[id]|];
  }

  /**
    Resume is exactly-once. Over every run, for any retention limit, queue
    capacity and interleaving: unless the answer was a gap, the replayed
    batches followed by everything the subscriber's drains handed out contain
    each published event after the cursor exactly once and in order. The live
    part needs no filter exactly when the cursor named a published position.
   */
  lemma ResumeIsExactlyOnce(base: nat, capacity: nat, limit: nat, steps: seq<Step>, id: nat)
    requires End(Run(NewDist(base, capacity, limit), steps)) < U64_MAX
    requires id in Run(NewDist(base, capacity, limit), steps).resumed
    requires Run(NewDist(base, capacity, limit), steps).resumed[id].answer.Some?
    ensures var d := Run(NewDist(base, capacity, limit), steps);
      && id in d.fan.taken && id in d.fan.since
      && ExactlyOnce(d.fan.sent, base, d.fan.since[id], d.resumed[id].cursor, d.resumed[id].answer.value,
        d.fan.taken[id])
  {
    var d := Run(NewDist(base, capacity, limit), steps);
    ResumedFacts(base, capacity, limit, steps, id);
    ReplayThenLive(d.fan.sent, base, d.fan.since[id], d.resumed[id].cursor, d.resumed[id].answer.value,
      d.fan.taken[id]);
  }

  lemma {:induction false} RunBase(d: Dist, steps: seq<Step>)
    ensures Run(d, steps).base == d.base
    decreases |steps|
  {
    if steps != [] {
      RunBase(Next(d, steps[0]), steps[1..]);
    }
  }

  /** The first event of a retained window follows everything dropped from it. */
  lemma WindowStarts(sent: seq<Committed>, kept: nat, base: nat)
    requires NonEmpty(sent) && Chained(Events(sent), base) && 0 < kept <= |sent|
    ensures sent[|sent| - kept].events != []
    ensures sent[|sent| - kept].events[0].sequence == base + |Events(sent[..|sent| - kept])| + 1
  {
    var gone, window := sent[..|sent| - kept], sent[|sent| - kept..];
    assert sent == gone + window;
    EventsConcat(gone, window);
    ChainedSplit(Events(gone), Events(window), base);
    assert window[0] == sent[|sent| - kept] && Events(window)[0] == window[0].events[0];
  }

  lemma WindowEnds(sent: seq<Committed>, base: nat)
    requires sent != [] && NonEmpty(sent) && Chained(Events(sent), base)
    ensures LastSequence(sent[|sent| - 1]) == Some(base + |Events(sent)|)
  {
    var front, last := sent[..|sent| - 1], sent[|sent| - 1];
    assert sent == front + [last];
    EventsConcat(front, [last]);
    assert Events([last]) == last.events;
    ChainedSplit(Events(front), last.events, base);
    assert last.events[|last.events| - 1].sequence == base + |Events(front)| + |last.events|;
  }

  /** Which cursors are accepted when the last `kept` published batches are retained. */
  predicate Accepts(sent: seq<Committed>, kept: nat, base: nat, cursor: nat, inFlight: Option<nat>)
    requires kept <= |sent|
  {
    var end := base + |Events(sent)|;
    if kept > 0 then base + |Events(sent[..|sent| - kept])| <= cursor <= end
    else inFlight.Some? && cursor == end + inFlight.value
  }

  lemma AnswerIff(d: Dist, cursor: nat, inFlight: Option<nat>)
    requires Log(d) && End(d) < U64_MAX
    ensures var e := SubscribedResuming(d, cursor, inFlight);
      e.resumed[d.fan.nextId].answer.Some? <==>
        Accepts(d.fan.sent, Min(d.limit, |d.fan.sent|), d.base, cursor, inFlight)
  {
    var kept := |d.retained|;
    if kept > 0 {
      WindowStarts(d.fan.sent, kept, d.base);
      WindowEnds(d.fan.sent, d.base);
      assert d.retained[0] == d.fan.sent[|d.fan.sent| - kept];
      assert d.retained[kept - 1] == d.fan.sent[|d.fan.sent| - 1];
    }
  }

  /**
    Exactly these cursors are accepted, after every run. While batches are
    retained: every published position from the start of the window to the last
    published event, both included. With nothing retained: the run's own
    position, if the run can be read.
   */
  lemma ResumeAcceptsIff(
      base: nat, capacity: nat, limit: nat, steps: seq<Step>, cursor: nat, inFlight: Option<nat>)
    requires End(Run(NewDist(base, capacity, limit), steps)) < U64_MAX
    ensures var d := Run(NewDist(base, capacity, limit), steps);
      var e := Next(d, SubscribeResuming(cursor, inFlight));
      && d.fan.nextId in e.resumed && e.resumed[d.fan.nextId].cursor == cursor
      && (e.resumed[d.fan.nextId].answer.Some? <==>
            Accepts(d.fan.sent, Min(limit, |d.fan.sent|), base, cursor, inFlight))
  {
    var start := NewDist(base, capacity, limit);
    NewIsSound(base, capacity, limit);
    RunIsSound(start, steps);
    RunLimit(start, steps);
    AnswerIff(Run(start, steps), cursor, inFlight);
  }

  lemma {:induction false} RunLimit(d: Dist, steps: seq<Step>)
    ensures Run(d, steps).limit == d.limit
    decreases |steps|
  {
    if steps != [] {
      RunLimit(Next(d, steps[0]), steps[1..]);
    }
  }

  lemma RunTwo(d: Dist, a: Step, b: Step)
    ensures Run(d, [a, b]) == Next(Next(d, a), b)
  {
    assert [a, b][1..] == [b] && [b][1..] == [];
    assert Run(d, [a, b]) == Run(Next(d, a), [b]) == Run(Next(Next(d, a), b), []);
  }

  /**
    A cursor ahead of publication: with nothing retained and one event
    committed but unpublished, the run's own sequence is accepted as a cursor,
    and the subscriber is then queued the event it names.
   */
  lemma CursorAheadRepeatsAnEvent()
    ensures var d := Run(NewDist(0, 1, 0), [SubscribeResuming(1, Some(1)), Publish([Simulation], 0, Hub, [], [])]);
      && 0 in d.resumed && d.resumed[0] == Resumption(1, Some([]))
      && 0 in d.fan.live && 0 in d.fan.queues && Events(d.fan.queues[0]) == [Event(1, Simulation)]
      && After(Events(d.fan.queues[0]), 1) == []
  {
    var resume, publish := SubscribeResuming(1, Some(1)), Publish([Simulation], 0, Hub, [], []);
    var start := NewDist(0, 1, 0);
    RunTwo(start, resume, publish);
    var d := Next(start, resume);
    assert d.resumed[0] == Resumption(1, Some([])) && d.fan.queues == map[0 := []] && d.fan.live == {0};
    var batch := Batch(d, Numbered([Simulation], 0), publish);
    assert batch.events == [Event(1, Simulation)] && Events([batch]) == batch.events;
    assert Next(d, publish).fan.queues[0] == [batch];
  }

  /** Chained live batches lie after the cursor exactly when they start after it. */
  lemma LiveNeedsNoFilter(taken: seq<Committed>, base: nat, cursor: nat)
    requires NonEmpty(taken) && Chained(Events(taken), base)
    ensures cursor <= base || taken == [] <==> After(Events(taken), cursor) == Events(taken)
  {
    if cursor <= base || taken == [] {
      AfterAll(Events(taken), cursor);
    } else {
      assert taken[0].events == Events(taken)[..|taken[0].events|];
      var first, rest := Events(taken)[0], Events(taken)[1..];
      assert Events(taken) == [first] + rest && first.sequence == base + 1;
      AfterShorter(rest, cursor);
    }
  }

  lemma {:induction false} AfterShorter(events: seq<Event>, cursor: nat)
    ensures |After(events, cursor)| <= |events|
  {
    if events != [] {
      AfterShorter(events[1..], cursor);
    }
  }

  // ----- The distributor as the source holds it ----------------------------

  lemma EndingAfterSnoc(batches: seq<Committed>, last: Committed, cursor: nat)
    ensures EndingAfter(batches + [last], cursor)
         == EndingAfter(batches, cursor) + (if EndsAfter(last, cursor) then [last] else [])
  {
    EndingAfterConcat(batches, [last], cursor);
    assert [last][1..] == [];
  }

  class EventDistributor {
    const fanout: F.Registry<Committed>
    const limit: nat
    var published: nat
    var retained: seq<Committed>

    constructor (capacity: nat, limit: nat)
      ensures fresh(fanout) && fanout.Valid() && fanout.history == F.NewFan(capacity)
      ensures this.limit == limit && published == 0 && retained == []
    {
      fanout := new F.Registry(capacity);
      this.limit := limit;
      published, retained := 0, [];
    }

    /** Sends one committed batch and retains it; an empty batch does nothing. */
    method Publish(events: seq<Event>, durableUs: nat, source: Endpoint,
                   public: seq<ListingUpdate>, publicGaps: seq<ListingKey>)
      requires fanout.Valid()
      modifies this, fanout
      ensures fanout.Valid()
      ensures events == [] ==> unchanged(this) && unchanged(fanout)
      ensures events != [] ==>
        var batch := Committed(durableUs, source, events, old(published), public, publicGaps);
        && published == old(published) + 1
        && retained == Retain(old(retained), limit, batch)
        && fanout.history == F.Sent(old(fanout.history), batch)
    {
      if events == [] {
        return;
      }
      var batch := Committed(durableUs, source, events, published, public, publicGaps);
      published := published + 1;
      fanout.Send(batch);
      if limit > 0 {
        if |retained| >= limit {
          retained := retained[1..];
        }
        retained := retained + [batch];
      }
    }

    /** Registers a subscriber and answers its cursor in one step. */
    method SubscribeResuming(cursor: nat, current: Option<nat>) returns (id: nat, answer: Option<seq<Committed>>)
      requires fanout.Valid()
      modifies fanout
      ensures fanout.Valid() && id == old(fanout.nextId)
      ensures fanout.history == F.Subscribed(old(fanout.history))
      ensures answer == Resume(retained, cursor, current)
    {
      id := fanout.Subscribe();
      if !Covered(retained, cursor, current) {
        return id, None;
      }
      var replay := Missed(cursor);
      answer := Some(replay);
    }

    /** The retained batches with events after the cursor, oldest first. */
    method Missed(cursor: nat) returns (replay: seq<Committed>)
      ensures replay == EndingAfter(retained, cursor)
    {
      replay := [];
      for i := 0 to |retained|
        invariant replay == EndingAfter(retained[..i], cursor)
      {
        assert retained[..i + 1] == retained[..i] + [retained[i]];
        EndingAfterSnoc(retained[..i], retained[i], cursor);
        if EndsAfter(retained[i], cursor) {
          replay := replay + [retained[i]];
        }
      }
      assert retained[..|retained|] == retained;
    }
  }
}
