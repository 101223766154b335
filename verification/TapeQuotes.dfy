/**
  What the processor will quote: over every run, exactly when it ends on the
  quotes the committer's last call gave a listing.
 */
module TapeQuotes {
  import opened Words
  import opened Market
  import opened TimedQueue
  import opened Tape
  import opened TapeRun

  /** The quotes the processor will hold once everything in flight has arrived. */
  function Eventual(t: TapeState, k: ListingKey): Option<Quotes> {
    EventualOf(t.processor, Select(t.inFlight, At(k)), k)
  }

  function EventualOf(p: Processor, waiting: seq<VenueChange>, k: ListingKey): Option<Quotes> {
    if waiting != [] then Some(waiting[|waiting| - 1].quotes)
    else if k in p.quotes then Some(p.quotes[k]) else None
  }

  /** The last quotes a list of changes gives a listing. */
  function LastQuotes(changes: seq<VenueChange>, k: ListingKey, otherwise: Option<Quotes>): Option<Quotes> {
    if changes == [] then otherwise
    else
      var last := changes[|changes| - 1];
      if last.listing == k then Some(last.quotes) else LastQuotes(changes[..|changes| - 1], k, otherwise)
  }

  lemma LastOfMore(changes: seq<VenueChange>, c: VenueChange, k: ListingKey, e: Option<Quotes>)
    ensures LastQuotes(changes + [c], k, e) == if c.listing == k then Some(c.quotes) else LastQuotes(changes, k, e)
  {
    var all := changes + [c];
    assert all[..|all| - 1] == changes;
  }

  // ----- Releases do not change what is eventual ---------------------------

  /** What applied changes leave of a listing's quotes. */
  ghost predicate Adopted(p: Processor, q: Processor, s: seq<VenueChange>, k: ListingKey) {
    if s == [] then (k in q.quotes <==> k in p.quotes) && (k in p.quotes ==> q.quotes[k] == p.quotes[k])
    else k in q.quotes && q.quotes[k] == s[|s| - 1].quotes
  }

  lemma SelectMore(front: seq<Timed>, last: Timed, k: ListingKey)
    ensures Select(front + [last], At(k)) == Select(front, At(k)) + if last.value.listing == k then [last.value] else []
  {
    SelectConcat(front, [last], At(k));
  }

  lemma {:induction false} AdvanceEventual(p: Processor, due: seq<Timed>, k: ListingKey)
    ensures var s := Select(due, At(k)); Adopted(p, AdvanceAll(p, due), s, k)
  {
    if due != [] {
      var front, last := due[..|due| - 1], due[|due| - 1];
      AdvanceEventual(p, front, k);
      SelectMore(front, last, k);
      assert due == front + [last];
    }
  }

  lemma ReleaseEventual(t: TapeState, now: nat, k: ListingKey)
    ensures Eventual(Released(t, now), k) == Eventual(t, k)
  {
    var due := Due(t.inFlight, now);
    var rest := t.inFlight[|due|..];
    assert t.inFlight == due + rest;
    SelectConcat(due, rest, At(k));
    AdvanceEventual(t.processor, due, k);
    EventualMoves(t.processor, AdvanceAll(t.processor, due), Select(due, At(k)), Select(rest, At(k)), k);
  }

  lemma EventualMoves(p: Processor, q: Processor, applied: seq<VenueChange>, waiting: seq<VenueChange>, k: ListingKey)
    requires Adopted(p, q, applied, k)
    ensures EventualOf(q, waiting, k) == EventualOf(p, applied + waiting, k)
  {
  }

  /** What one call makes of a listing's eventual quotes. */
  function AfterCall(e: Option<Quotes>, call: TapeCall, k: ListingKey): Option<Quotes> {
    match call
    case Prime(quotes) => if e.None? && k in quotes then Some(quotes[k]) else e
    case TakeDown => e
    case _ => LastQuotes(ChangesIn(call), k, e)
  }

  function AfterCalls(e: Option<Quotes>, calls: seq<TapeCall>, k: ListingKey): Option<Quotes>
    decreases |calls|
  {
    if calls == [] then e else AfterCalls(AfterCall(e, calls[0], k), calls[1..], k)
  }

  lemma AfterFirst(e: Option<Quotes>, steps: seq<Step>, k: ListingKey)
    requires steps != []
    ensures AfterCalls(e, Calls(steps), k)
         == AfterCalls(if steps[0].Call? then AfterCall(e, steps[0].call, k) else e, Calls(steps[1..]), k)
    ensures TakeDown in Calls(steps) ==> TakeDown in Calls(steps[1..]) || (steps[0].Call? && steps[0].call == TakeDown)
  {
    if steps[0].Call? {
      var calls := Calls(steps);
      assert calls[0] == steps[0].call && calls[1..] == Calls(steps[1..]);
    } else {
      assert Calls(steps) == Calls(steps[1..]);
    }
  }

  // ----- One departure -----------------------------------------------------

  lemma {:induction false} SelectHas(q: seq<Timed>, x: Timed, k: ListingKey)
    requires x in q && x.value.listing == k
    ensures Select(q, At(k)) != []
  {
    if q[0] != x {
      SelectHas(q[1..], x, k);
    }
  }

  /** The changes ahead of a departing one and those behind it, where `x` arrives later. */
  lemma InsertPoint(q: seq<Timed>, it: Timed, x: Timed) returns (front: seq<Timed>, back: seq<Timed>)
    requires Sorted(q) && AllEarlier(q, it) && x in q && it.key.at < x.key.at
    ensures q == front + back && Insert(q, it) == front + ([it] + back) && x in back
  {
    assert forall y :: y in q ==> y.key != it.key;
    var n := InsertSplits(q, it);
    front, back := q[..n], q[n..];
    var i :| 0 <= i < |q| && q[i] == x;
    assert n <= i && back[i - n] == x;
  }

  /** A change that overtakes another of its listing is not the last of them to arrive. */
  lemma OvertakingIsNotLast(q: seq<Timed>, it: Timed, x: Timed)
    requires Sorted(q) && AllEarlier(q, it)
    requires x in q && x.value.listing == it.value.listing && it.key.at < x.key.at
    ensures var r, k := Insert(q, it), it.value.listing;
      var a, b := Select(q, At(k)), Select(r, At(k));
      a != [] && b != [] && b[|b| - 1] == a[|a| - 1]
  {
    var front, back := InsertPoint(q, it, x);
    LastIsBehind(front, it, back, x, it.value.listing);
  }

  lemma LastIsBehind(front: seq<Timed>, it: Timed, back: seq<Timed>, x: Timed, k: ListingKey)
    requires x in back && x.value.listing == k
    ensures var a, b := Select(front + back, At(k)), Select(front + ([it] + back), At(k));
      a != [] && b != [] && b[|b| - 1] == a[|a| - 1]
  {
    SelectHas(back, x, k);
    SelectConcat(front, [it] + back, At(k));
    SelectConcat([it], back, At(k));
    SelectConcat(front, back, At(k));
  }

  /** What a departure makes of a listing's eventual quotes, whatever is in flight. */
  lemma DepartureSettles(p: Processor, q: seq<Timed>, it: Timed, k: ListingKey)
    requires Sorted(q) && AllEarlier(q, it)
    ensures EventualOf(p, Select(Insert(q, it), At(k)), k)
         == if it.value.listing == k && InTime(q, it) then Some(it.value.quotes) else EventualOf(p, Select(q, At(k)), k)
  {
    assert forall x :: x in q ==> x.key != it.key;
    if it.value.listing != k {
      InsertOther(q, it, At(k));
    } else if InTime(q, it) {
      InsertLast(q, it, At(k));
    } else {
      var x :| x in q && x.value.listing == k && it.key.at < x.key.at;
      OvertakingIsNotLast(q, it, x);
    }
  }

  /**
    A listing's changes have no floor on their way to the hub: the processor
    ends on a departing change's quotes if and only if the change arrives no
    earlier than every change of the listing then in flight, or brings what it
    was going to hold anyway.
   */
  lemma LaterCommitWinsIff(t: TapeState, it: Timed)
    requires Sorted(t.inFlight) && AllEarlier(t.inFlight, it)
    ensures var k := it.value.listing;
      Eventual(t.(inFlight := Insert(t.inFlight, it)), k) == Some(it.value.quotes) <==>
        (InTime(t.inFlight, it) || Eventual(t, k) == Some(it.value.quotes))
  {
    DepartureSettles(t.processor, t.inFlight, it, it.value.listing);
  }

  /** A change committed later that arrives earlier: the processor ends on the older quotes. */
  lemma OvertakingLeavesStaleQuotes(p: Processor, k: ListingKey, older: Quotes, newer: Quotes)
    ensures var first := Item(Key(10, 0, 0), VenueChange(k, [], older, false));
      var second := Item(Key(5, 1, 0), VenueChange(k, [], newer, false));
      Eventual(TapeState(p, Insert([first], second), false, []), k) == Some(older)
  {
    var first := Item(Key(10, 0, 0), VenueChange(k, [], older, false));
    var second := Item(Key(5, 1, 0), VenueChange(k, [], newer, false));
    assert first in [first] && !InTime([first], second);
    DepartureSettles(p, [first], second, k);
    assert Select([first], At(k)) == [first.value];
  }

  // ----- One commit's departures -------------------------------------------

  /**
    The last change of the listing to depart was in time, or brought what the
    processor was going to hold anyway; without one, as before.
   */
  predicate SettledAll(p: Processor, q: seq<Timed>, items: seq<Timed>, k: ListingKey, before: bool) {
    if items == [] then before
    else
      var front, it := items[..|items| - 1], items[|items| - 1];
      if it.value.listing != k then SettledAll(p, q, front, k, before)
      else
        var queue := InsertAll(q, front);
        InTime(queue, it) || EventualOf(p, Select(queue, At(k)), k) == Some(it.value.quotes)
  }

  ghost predicate Tracks(p: Processor, q: seq<Timed>, k: ListingKey, e: Option<Quotes>, settled: bool) {
    var now := EventualOf(p, Select(q, At(k)), k);
    (now == e <==> settled) && (now.None? <==> e.None?)
  }

  lemma {:induction false} DeparturesTrack(
    p: Processor, q: seq<Timed>, items: seq<Timed>, k: ListingKey, e: Option<Quotes>, settled: bool)
    requires Tracks(p, q, k, e, settled) && forall n | 0 <= n < |items| :: DepartsLast(q, items, n)
    ensures var queue, last := InsertAll(q, items), LastQuotes(Values(items), k, e);
      Tracks(p, queue, k, last, SettledAll(p, q, items, k, settled))
  {
    if items == [] {
      assert Values(items) == [];
    } else {
      var m := |items| - 1;
      var front, it := items[..m], items[m];
      forall n | 0 <= n < |front| ensures DepartsLast(q, front, n) {
        assert DepartsLast(q, items, n) && front[..n] == items[..n];
      }
      DeparturesTrack(p, q, front, k, e, settled);
      assert DepartsLast(q, items, m);
      var before, now := LastQuotes(Values(front), k, e), SettledAll(p, q, front, k, settled);
      DepartureTracks(p, InsertAll(q, front), it, k, before, now);
      assert Values(items) == Values(front) + [it.value];
      LastOfMore(Values(front), it.value, k, e);
    }
  }

  lemma DepartureTracks(p: Processor, q: seq<Timed>, it: Timed, k: ListingKey, e: Option<Quotes>, settled: bool)
    requires Sorted(q) && AllEarlier(q, it) && Tracks(p, q, k, e, settled)
    ensures
      if it.value.listing != k then Tracks(p, Insert(q, it), k, e, settled)
      else Tracks(p, Insert(q, it), k, Some(it.value.quotes),
                  InTime(q, it) || EventualOf(p, Select(q, At(k)), k) == Some(it.value.quotes))
  {
    DepartureSettles(p, q, it, k);
    if it.value.listing == k && !InTime(q, it) {
      var x :| x in q && x.value.listing == k && it.key.at < x.key.at;
      SelectHas(q, x, k);
    }
  }

  // ----- Over every run ----------------------------------------------------

  function SettledStep(tr: Trace, cfg: Config, step: Step, k: ListingKey, before: bool): bool
    requires Lawful(tr, step)
  {
    if step.Call? && Carries(step.call)
    then
      var d := DepartureOf(step.call, step.delays);
      SettledAll(tr.tape.processor, tr.tape.inFlight, Items(cfg, d, |d.changes|), k, before)
    else before
  }

  /** The last change of the listing that departed in the run settled it. */
  ghost predicate Settled(tr: Trace, cfg: Config, steps: seq<Step>, k: ListingKey, before: bool)
    requires AllLawful(tr, cfg, steps)
    decreases |steps|
  {
    if steps == [] then before
    else Settled(Next(tr, cfg, steps[0]), cfg, steps[1..], k, SettledStep(tr, cfg, steps[0], k, before))
  }

  ghost predicate TracksTape(t: TapeState, k: ListingKey, e: Option<Quotes>, settled: bool) {
    Tracks(t.processor, t.inFlight, k, e, settled)
  }

  lemma CarryTracks(
    tr: Trace, cfg: Config, call: TapeCall, delays: seq<Option<nat>>, k: ListingKey, e: Option<Quotes>, settled: bool)
    requires Inv(tr) && Carries(call) && Lawful(tr, Call(call, delays)) && TracksTape(tr.tape, k, e, settled)
    ensures var u := Next(tr, cfg, Call(call, delays));
      !u.tape.failed ==>
        && !tr.tape.failed
        && TracksTape(u.tape, k, AfterCall(e, call, k), SettledStep(tr, cfg, Call(call, delays), k, settled))
  {
    var d := DepartureOf(call, delays);
    var items := Items(cfg, d, |d.changes|);
    AllDepartOrDown(tr.tape, cfg, d, |d.changes|);
    if !Next(tr, cfg, Call(call, delays)).tape.failed {
      InFlightWasHeard(tr);
      assert Values(items) == d.changes;
      if d.changes == [] {
        assert tr.heard + items == tr.heard;
      } else {
        RisingBelowMore(tr.heard, tr.floor, d.ordinal);
        RisingItems(tr.heard, cfg, d, |d.changes|);
      }
      forall n | 0 <= n < |items| ensures DepartsLast(tr.tape.inFlight, items, n) {
        AllDepartLast(tr.tape.inFlight, tr.heard, items, n);
      }
      DeparturesTrack(tr.tape.processor, tr.tape.inFlight, items, k, e, settled);
    }
  }

  lemma NextTracks(tr: Trace, cfg: Config, step: Step, k: ListingKey, e: Option<Quotes>, settled: bool)
    requires Inv(tr) && Lawful(tr, step) && TracksTape(tr.tape, k, e, settled)
    ensures var u := Next(tr, cfg, step);
      !u.tape.failed ==>
        && !tr.tape.failed && (step.Call? ==> !step.call.TakeDown?)
        && TracksTape(
             u.tape, k, if step.Call? then AfterCall(e, step.call, k) else e, SettledStep(tr, cfg, step, k, settled))
  {
    if step.Release? {
      ReleaseEventual(tr.tape, step.now, k);
    } else if Carries(step.call) {
      CarryTracks(tr, cfg, step.call, step.delays, k, e, settled);
    }
  }

  /**
    Over every run that leaves the tape up: what the processor will hold of a
    listing is what the committer's calls settle on if and only if the last
    change of the listing to depart was in time. Releases do not matter.
   */
  lemma {:induction false} ProcessorSettlesIff(
    tr: Trace, cfg: Config, steps: seq<Step>, k: ListingKey, e: Option<Quotes>, settled: bool)
    requires Inv(tr) && AllLawful(tr, cfg, steps) && TracksTape(tr.tape, k, e, settled)
    ensures var u := Run(tr, cfg, steps);
      !u.tape.failed ==>
        && !tr.tape.failed && TakeDown !in Calls(steps)
        && (Eventual(u.tape, k) == AfterCalls(e, Calls(steps), k) <==> Settled(tr, cfg, steps, k, settled))
    decreases |steps|
  {
    if steps != [] {
      var u := Next(tr, cfg, steps[0]);
      NextKeeps(tr, cfg, steps[0]);
      NextTracks(tr, cfg, steps[0], k, e, settled);
      AfterFirst(e, steps, k);
      if u.tape.failed {
        DownStaysDown(u, cfg, steps[1..]);
      } else {
        ProcessorSettlesIff(
          u, cfg, steps[1..], k, if steps[0].Call? then AfterCall(e, steps[0].call, k) else e,
          SettledStep(tr, cfg, steps[0], k, settled));
      }
    }
  }

  /** Constant delays are enough: changes that arrive in the order they left settle their listing. */
  lemma {:induction false} OnTimeSettlesAll(p: Processor, q: seq<Timed>, items: seq<Timed>, k: ListingKey)
    requires forall n | 0 <= n < |items| :: QueuesLast(q, items, k, n)
    ensures SettledAll(p, q, items, k, true)
  {
    if items != [] {
      var m := |items| - 1;
      var front := items[..m];
      forall n | 0 <= n < |front| ensures QueuesLast(q, front, k, n) {
        assert QueuesLast(q, items, k, n) && front[..n] == items[..n];
      }
      OnTimeSettlesAll(p, q, front, k);
      assert QueuesLast(q, items, k, m);
    }
  }

  lemma OnTimeSettlesStep(tr: Trace, cfg: Config, step: Step, k: ListingKey)
    requires Inv(tr) && Lawful(tr, step)
    requires var u := Next(tr, cfg, step); !u.tape.failed && OnTime(u.heard, k)
    ensures OnTime(tr.heard, k) && SettledStep(tr, cfg, step, k, true)
  {
    if step.Call? && Carries(step.call) {
      var d := DepartureOf(step.call, step.delays);
      var items := Items(cfg, d, |d.changes|);
      AllDepartOrDown(tr.tape, cfg, d, |d.changes|);
      OnTimeFirst(tr.heard + items, |tr.heard|, k);
      assert (tr.heard + items)[..|tr.heard|] == tr.heard;
      if d.changes != [] {
        ItemsQueueLast(tr, cfg, d, k);
      }
      OnTimeSettlesAll(tr.tape.processor, tr.tape.inFlight, items, k);
    }
  }

  lemma {:induction false} OnTimeSettles(tr: Trace, cfg: Config, steps: seq<Step>, k: ListingKey)
    requires Inv(tr) && AllLawful(tr, cfg, steps)
    requires var u := Run(tr, cfg, steps); !u.tape.failed && OnTime(u.heard, k)
    ensures !tr.tape.failed && OnTime(tr.heard, k) && Settled(tr, cfg, steps, k, true)
    decreases |steps|
  {
    if steps != [] {
      var u := Next(tr, cfg, steps[0]);
      NextKeeps(tr, cfg, steps[0]);
      OnTimeSettles(u, cfg, steps[1..], k);
      OnTimeSettlesStep(tr, cfg, steps[0], k);
      if tr.tape.failed {
        DownStaysDown(tr, cfg, steps);
      }
    }
  }
}
