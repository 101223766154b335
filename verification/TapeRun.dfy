/**
  The tape over every run: calls from the committer and releases by the
  processor, in any interleaving.
 */
module TapeRun {
  import opened Words
  import opened Market
  import opened TimedQueue
  import opened Tape

  type Timed = Item<VenueChange>

  /** The tape, every change it heard, every change it applied, and the next commit's lowest ordinal. */
  datatype Trace = Trace(tape: TapeState, heard: seq<Timed>, applied: seq<Timed>, floor: nat)

  const EMPTY_TAPE := TapeState(Processor(map[], map[]), [], false, [])

  const START := Trace(EMPTY_TAPE, [], [], 0)

  /** `delays` holds one path per change; `None` is a path that failed. */
  datatype Step = Call(call: TapeCall, delays: seq<Option<nat>>) | Release(now: nat)

  predicate Carries(call: TapeCall) {
    call.Hear? || call.HearGap?
  }

  function ChangesIn(call: TapeCall): seq<VenueChange> {
    match call
    case Hear(_, _, public) => ChangesOf(public)
    case HearGap(_, _, rebuilt) => GapsOf(rebuilt)
    case _ => []
  }

  function DepartureOf(call: TapeCall, delays: seq<Option<nat>>): Departure
    requires Carries(call)
  {
    Departure(call.ordinal, call.durableUs, ChangesIn(call), delays)
  }

  function Items(cfg: Config, d: Departure, n: nat): seq<Timed>
    requires Wellformed(d) && n <= |d.changes|
  {
    seq(n, i requires 0 <= i < n => ItemOf(cfg, d, i))
  }

  predicate Lawful(tr: Trace, step: Step) {
    step.Call? && Carries(step.call) ==>
      && |step.delays| == |ChangesIn(step.call)|
      && (step.delays != [] ==> tr.floor <= step.call.ordinal)
  }

  function Next(tr: Trace, cfg: Config, step: Step): Trace
    requires Lawful(tr, step)
  {
    match step
    case Release(now) => tr.(tape := Released(tr.tape, now), applied := tr.applied + Due(tr.tape.inFlight, now))
    case Call(call, delays) =>
      match call
      case Prime(quotes) => tr.(tape := PrimedWith(tr.tape, quotes))
      case TakeDown => if tr.tape.failed then tr else tr.(tape := Down(tr.tape))
      case _ =>
        var d := DepartureOf(call, delays);
        var t := DepartFirst(tr.tape, cfg, d, |d.changes|);
        tr.(tape := t,
            heard := if t.failed then tr.heard else tr.heard + Items(cfg, d, |d.changes|),
            floor := if d.changes == [] then tr.floor else call.ordinal + 1)
  }

  ghost predicate AllLawful(tr: Trace, cfg: Config, steps: seq<Step>)
    decreases |steps|
  {
    steps != [] ==> Lawful(tr, steps[0]) && AllLawful(Next(tr, cfg, steps[0]), cfg, steps[1..])
  }

  function Run(tr: Trace, cfg: Config, steps: seq<Step>): Trace
    requires AllLawful(tr, cfg, steps)
    decreases |steps|
  {
    if steps == [] then tr else Run(Next(tr, cfg, steps[0]), cfg, steps[1..])
  }

  function InsertAll(q: seq<Timed>, items: seq<Timed>): seq<Timed> {
    if items == [] then q else Insert(InsertAll(q, items[..|items| - 1]), items[|items| - 1])
  }

  /** A commit's changes either all depart, or the tape goes down. */
  lemma {:induction false} AllDepartOrDown(t: TapeState, cfg: Config, d: Departure, n: nat)
    requires Wellformed(d) && n <= |d.changes|
    ensures var u := DepartFirst(t, cfg, d, n);
      && (t.failed ==> u == t)
      && (!t.failed && u.failed ==> u == Down(t))
      && (!u.failed ==> u == t.(inFlight := InsertAll(t.inFlight, Items(cfg, d, n))))
  {
    if n > 0 {
      AllDepartOrDown(t, cfg, d, n - 1);
      var items := Items(cfg, d, n);
      assert items[..n - 1] == Items(cfg, d, n - 1) && items[n - 1] == ItemOf(cfg, d, n - 1);
    }
  }

  // ----- Exactly once ------------------------------------------------------

  /** Commit order: ordinals, then positions within a commit. */
  predicate Earlier(a: Key, b: Key) {
    a.ord < b.ord || (a.ord == b.ord && a.idx < b.idx)
  }

  /** Heard in commit order, so no two changes share a key. */
  predicate Rising(heard: seq<Timed>) {
    heard == [] ||
    var front, last := heard[..|heard| - 1], heard[|heard| - 1];
    Rising(front) && Below(front, last.key.ord, last.key.idx)
  }

  /** The last change heard was before position `(ord, idx)` of the commit order. */
  predicate Below(heard: seq<Timed>, ord: nat, idx: nat) {
    heard == [] || var last := heard[|heard| - 1].key; last.ord < ord || (last.ord == ord && last.idx < idx)
  }

  lemma {:induction false} RisingBelow(heard: seq<Timed>, ord: nat, idx: nat)
    requires Rising(heard) && Below(heard, ord, idx)
    ensures forall x :: x in heard ==> x.key.ord < ord || (x.key.ord == ord && x.key.idx < idx)
  {
    if heard != [] {
      var front, last := heard[..|heard| - 1], heard[|heard| - 1];
      RisingBelow(front, last.key.ord, last.key.idx);
      assert heard == front + [last];
    }
  }

  lemma RisingBelowMore(heard: seq<Timed>, ord: nat, more: nat)
    requires Below(heard, ord, 0) && ord <= more
    ensures Below(heard, more, 0)
  {
  }

  /** Keys never collide. */
  lemma {:induction false} RisingKeys(heard: seq<Timed>)
    requires Rising(heard)
    ensures forall i, j | 0 <= i < j < |heard| :: Earlier(heard[i].key, heard[j].key)
  {
    if heard != [] {
      var front, last := heard[..|heard| - 1], heard[|heard| - 1];
      RisingKeys(front);
      RisingBelow(front, last.key.ord, last.key.idx);
      assert forall i | 0 <= i < |front| :: heard[i] in front;
    }
  }

  /** Up: every change heard is in flight or applied, once. Down: nothing is in flight. */
  ghost predicate Accounted(tr: Trace) {
    if tr.tape.failed then tr.tape.inFlight == []
    else multiset(tr.heard) == multiset(tr.applied) + multiset(tr.tape.inFlight)
  }

  ghost predicate Inv(tr: Trace) {
    Accounted(tr) && Sorted(tr.tape.inFlight) && Rising(tr.heard) && Below(tr.heard, tr.floor, 0)
  }

  lemma InFlightWasHeard(tr: Trace)
    requires Accounted(tr)
    ensures forall x :: x in tr.tape.inFlight ==> x in tr.heard
  {
    forall x | x in tr.tape.inFlight ensures x in tr.heard {
      assert multiset(tr.tape.inFlight)[x] > 0;
      assert multiset(tr.heard)[x] >= multiset(tr.tape.inFlight)[x];
    }
  }

  lemma RisingGrows(heard: seq<Timed>, it: Timed)
    requires Rising(heard) && Below(heard, it.key.ord, it.key.idx)
    ensures Rising(heard + [it]) && Below(heard + [it], it.key.ord, it.key.idx + 1)
  {
    var all := heard + [it];
    assert all[..|all| - 1] == heard && all[|all| - 1] == it;
  }

  lemma {:induction false} RisingItems(heard: seq<Timed>, cfg: Config, d: Departure, n: nat)
    requires Wellformed(d) && n <= |d.changes| && Rising(heard) && Below(heard, d.ordinal, 0)
    ensures var all := heard + Items(cfg, d, n); Rising(all) && Below(all, d.ordinal, n)
  {
    if n == 0 {
      assert heard + Items(cfg, d, 0) == heard;
    } else {
      RisingItems(heard, cfg, d, n - 1);
      assert heard + Items(cfg, d, n) == (heard + Items(cfg, d, n - 1)) + [ItemOf(cfg, d, n - 1)];
      RisingGrows(heard + Items(cfg, d, n - 1), ItemOf(cfg, d, n - 1));
    }
  }

  lemma {:induction false} InsertAllKeeps(q: seq<Timed>, heard: seq<Timed>, items: seq<Timed>)
    requires Sorted(q) && Rising(heard + items) && forall x :: x in q ==> x in heard
    ensures var r := InsertAll(q, items);
      && Sorted(r) && multiset(r) == multiset(q) + multiset(items)
      && (forall x :: x in r ==> x in heard + items)
  {
    if items != [] {
      var front, it := items[..|items| - 1], items[|items| - 1];
      var all := heard + items;
      assert all[..|all| - 1] == heard + front && all[|all| - 1] == it && items == front + [it];
      InsertAllKeeps(q, heard, front);
      RisingBelow(heard + front, it.key.ord, it.key.idx);
      InsertSorted(InsertAll(q, front), it);
      InsertMultiset(InsertAll(q, front), it);
    }
  }

  lemma DepartKeeps(tr: Trace, cfg: Config, d: Departure)
    requires Inv(tr) && Wellformed(d) && tr.floor <= d.ordinal && !tr.tape.failed
    ensures var items := Items(cfg, d, |d.changes|);
      && Sorted(InsertAll(tr.tape.inFlight, items))
      && multiset(tr.heard + items) == multiset(tr.applied) + multiset(InsertAll(tr.tape.inFlight, items))
      && Rising(tr.heard + items) && Below(tr.heard + items, d.ordinal + 1, 0)
  {
    var items := Items(cfg, d, |d.changes|);
    InFlightWasHeard(tr);
    RisingItems(tr.heard, cfg, d, |d.changes|);
    InsertAllKeeps(tr.tape.inFlight, tr.heard, items);
  }

  lemma ReleaseKeeps(tr: Trace, now: nat)
    requires Accounted(tr)
    ensures var due := Due(tr.tape.inFlight, now);
      && tr.tape.inFlight == due + Released(tr.tape, now).inFlight
      && Accounted(tr.(tape := Released(tr.tape, now), applied := tr.applied + due))
  {
    var due := Due(tr.tape.inFlight, now);
    assert tr.tape.inFlight == due + tr.tape.inFlight[|due|..];
  }

  lemma CarryKeeps(tr: Trace, cfg: Config, call: TapeCall, delays: seq<Option<nat>>)
    requires Inv(tr) && Carries(call) && Lawful(tr, Call(call, delays))
    ensures var u := Next(tr, cfg, Call(call, delays)); Inv(u)
  {
    var d := DepartureOf(call, delays);
    AllDepartOrDown(tr.tape, cfg, d, |d.changes|);
    if d.changes == [] {
      assert tr.heard + Items(cfg, d, 0) == tr.heard;
    } else if !tr.tape.failed {
      RisingBelowMore(tr.heard, tr.floor, d.ordinal + 1);
      DepartKeeps(tr, cfg, d);
    } else {
      RisingBelowMore(tr.heard, tr.floor, d.ordinal + 1);
    }
  }

  lemma NextKeeps(tr: Trace, cfg: Config, step: Step)
    requires Inv(tr) && Lawful(tr, step)
    ensures var u := Next(tr, cfg, step); Inv(u)
  {
    if step.Release? {
      ReleaseKeeps(tr, step.now);
    } else if Carries(step.call) {
      CarryKeeps(tr, cfg, step.call, step.delays);
    }
  }

  /** Over every run, each heard change is in flight or applied exactly once, and no two share a key. */
  lemma {:induction false} HeardChangesAreAppliedOnce(tr: Trace, cfg: Config, steps: seq<Step>)
    requires Inv(tr) && AllLawful(tr, cfg, steps)
    ensures Inv(Run(tr, cfg, steps))
    decreases |steps|
  {
    if steps != [] {
      NextKeeps(tr, cfg, steps[0]);
      HeardChangesAreAppliedOnce(Next(tr, cfg, steps[0]), cfg, steps[1..]);
    }
  }

  // ----- One listing's changes ---------------------------------------------

  function At(k: ListingKey): VenueChange -> bool {
    (c: VenueChange) => c.listing == k
  }

  /** One listing's changes reach the hub in the order they left. */
  predicate OnTime(heard: seq<Timed>, k: ListingKey) {
    heard == [] ||
    var front, last := heard[..|heard| - 1], heard[|heard| - 1];
    && OnTime(front, k)
    && (last.value.listing == k ==> forall x :: x in front && x.value.listing == k ==> x.key.at <= last.key.at)
  }

  /** Applied then in flight is heard: commit order, nothing lost, nothing twice. */
  ghost predicate InCommitOrder(tr: Trace, k: ListingKey) {
    tr.tape.failed || Keep(Values(tr.applied), At(k)) + Select(tr.tape.inFlight, At(k)) == Keep(Values(tr.heard), At(k))
  }

  ghost predicate Lane(tr: Trace, k: ListingKey) {
    OnTime(tr.heard, k) ==> InCommitOrder(tr, k)
  }

  lemma OnTimePrefix(heard: seq<Timed>, it: Timed, k: ListingKey)
    requires OnTime(heard + [it], k)
    ensures OnTime(heard, k)
    ensures it.value.listing == k ==> forall x :: x in heard && x.value.listing == k ==> x.key.at <= it.key.at
  {
    var all := heard + [it];
    assert all[..|all| - 1] == heard && all[|all| - 1] == it;
  }

  /** The change arrives no earlier than every change of its listing in flight. */
  predicate InTime(q: seq<Timed>, it: Timed) {
    forall x :: x in q && x.value.listing == it.value.listing ==> x.key.at <= it.key.at
  }

  ghost predicate AllEarlier(q: seq<Timed>, it: Timed) {
    forall x :: x in q ==> Earlier(x.key, it.key)
  }

  /** Change `n` departs behind an ordered queue of earlier commits. */
  ghost predicate DepartsLast(q: seq<Timed>, items: seq<Timed>, n: nat)
    requires n < |items|
  {
    var queue := InsertAll(q, items[..n]); Sorted(queue) && AllEarlier(queue, items[n])
  }

  lemma AllDepartLast(q: seq<Timed>, heard: seq<Timed>, items: seq<Timed>, n: nat)
    requires Sorted(q) && Rising(heard + items) && (forall x :: x in q ==> x in heard) && n < |items|
    ensures DepartsLast(q, items, n)
  {
    var front, it := items[..n], items[n];
    RisingFirst(heard + items, |heard| + n + 1);
    assert (heard + items)[..|heard| + n + 1] == (heard + front) + [it];
    RisingPrefix(heard + front, it);
    InsertAllKeeps(q, heard, front);
    RisingBelow(heard + front, it.key.ord, it.key.idx);
  }

  lemma {:induction false} RisingFirst(heard: seq<Timed>, n: nat)
    requires Rising(heard) && n <= |heard|
    ensures Rising(heard[..n])
  {
    if n < |heard| {
      RisingFirst(heard[..|heard| - 1], n);
      assert heard[..|heard| - 1][..n] == heard[..n];
    } else {
      assert heard[..n] == heard;
    }
  }

  lemma InTimeOf(heard: seq<Timed>, q: seq<Timed>, it: Timed, k: ListingKey)
    requires OnTime(heard + [it], k) && it.value.listing == k && forall x :: x in q ==> x in heard
    ensures InTime(q, it)
  {
    OnTimePrefix(heard, it, k);
  }

  lemma {:induction false} OnTimeFirst(heard: seq<Timed>, n: nat, k: ListingKey)
    requires OnTime(heard, k) && n <= |heard|
    ensures OnTime(heard[..n], k)
  {
    if n < |heard| {
      OnTimeFirst(heard[..|heard| - 1], n, k);
      assert heard[..|heard| - 1][..n] == heard[..n];
    } else {
      assert heard[..n] == heard;
    }
  }

  /** Change `n` departs last and, if it is of listing `k`, in time. */
  ghost predicate QueuesLast(q: seq<Timed>, items: seq<Timed>, k: ListingKey, n: nat)
    requires n < |items|
  {
    DepartsLast(q, items, n) && (items[n].value.listing == k ==> InTime(InsertAll(q, items[..n]), items[n]))
  }

  lemma AllQueueLast(q: seq<Timed>, heard: seq<Timed>, items: seq<Timed>, k: ListingKey, n: nat)
    requires Sorted(q) && Rising(heard + items) && (forall x :: x in q ==> x in heard) && n < |items|
    requires OnTime(heard + items, k)
    ensures QueuesLast(q, items, k, n)
  {
    AllDepartLast(q, heard, items, n);
    if items[n].value.listing == k {
      QueueWasHeard(q, heard, items, n);
      OnTimeAt(heard, items, k, n);
      InTimeOf(heard + items[..n], InsertAll(q, items[..n]), items[n], k);
    }
  }

  lemma QueueWasHeard(q: seq<Timed>, heard: seq<Timed>, items: seq<Timed>, n: nat)
    requires Sorted(q) && Rising(heard + items) && (forall x :: x in q ==> x in heard) && n < |items|
    ensures forall x :: x in InsertAll(q, items[..n]) ==> x in heard + items[..n]
  {
    RisingFirst(heard + items, |heard| + n);
    assert (heard + items)[..|heard| + n] == heard + items[..n];
    InsertAllKeeps(q, heard, items[..n]);
  }

  lemma OnTimeAt(heard: seq<Timed>, items: seq<Timed>, k: ListingKey, n: nat)
    requires OnTime(heard + items, k) && n < |items|
    ensures OnTime((heard + items[..n]) + [items[n]], k)
  {
    OnTimeFirst(heard + items, |heard| + n + 1, k);
    assert (heard + items)[..|heard| + n + 1] == (heard + items[..n]) + [items[n]];
  }

  /** Changes that arrive on time queue behind their listing's earlier ones. */
  lemma {:induction false} InsertAllLane(q: seq<Timed>, items: seq<Timed>, k: ListingKey)
    requires forall n | 0 <= n < |items| :: QueuesLast(q, items, k, n)
    ensures Select(InsertAll(q, items), At(k)) == Select(q, At(k)) + Keep(Values(items), At(k))
  {
    if items == [] {
      assert Values(items) == [];
    } else {
      var m := |items| - 1;
      var front, it := items[..m], items[m];
      forall n | 0 <= n < |front| ensures QueuesLast(q, front, k, n) {
        assert QueuesLast(q, items, k, n) && front[..n] == items[..n];
      }
      InsertAllLane(q, front, k);
      assert QueuesLast(q, items, k, m);
      LaneGrows(InsertAll(q, front), it, k, Select(q, At(k)), front);
      assert items == front + [it];
    }
  }

  lemma LaneGrows(r: seq<Timed>, it: Timed, k: ListingKey, lane: seq<VenueChange>, front: seq<Timed>)
    requires Sorted(r) && AllEarlier(r, it) && (it.value.listing == k ==> InTime(r, it))
    requires Select(r, At(k)) == lane + Keep(Values(front), At(k))
    ensures Select(Insert(r, it), At(k)) == lane + Keep(Values(front + [it]), At(k))
  {
    InsertOneLane(r, it, k);
    KeepMore(front, it, k);
    Regroup(lane, Keep(Values(front), At(k)), Keep([it.value], At(k)));
  }

  lemma RisingPrefix(heard: seq<Timed>, it: Timed)
    requires Rising(heard + [it])
    ensures Rising(heard) && Below(heard, it.key.ord, it.key.idx)
  {
    var all := heard + [it];
    assert all[..|all| - 1] == heard && all[|all| - 1] == it;
  }

  lemma KeepMore(front: seq<Timed>, it: Timed, k: ListingKey)
    ensures Keep(Values(front + [it]), At(k)) == Keep(Values(front), At(k)) + Keep([it.value], At(k))
  {
    assert Values(front + [it]) == Values(front) + [it.value];
    KeepConcat(Values(front), [it.value], At(k));
  }

  lemma InsertOneLane(q: seq<Timed>, it: Timed, k: ListingKey)
    requires Sorted(q) && AllEarlier(q, it) && (it.value.listing == k ==> InTime(q, it))
    ensures Select(Insert(q, it), At(k)) == Select(q, At(k)) + Keep([it.value], At(k))
  {
    assert forall x :: x in q ==> x.key != it.key;
    assert Keep([it.value], At(k)) == if it.value.listing == k then [it.value] else [];
    if it.value.listing == k {
      InsertLast(q, it, At(k));
    } else {
      InsertOther(q, it, At(k));
    }
  }

  lemma DepartLane(tr: Trace, cfg: Config, d: Departure, k: ListingKey)
    requires Inv(tr) && Wellformed(d) && tr.floor <= d.ordinal && !tr.tape.failed
    requires OnTime(tr.heard + Items(cfg, d, |d.changes|), k)
    ensures OnTime(tr.heard, k)
    ensures var q := InsertAll(tr.tape.inFlight, Items(cfg, d, |d.changes|));
      Select(q, At(k)) == Select(tr.tape.inFlight, At(k)) + Keep(d.changes, At(k))
  {
    var items := Items(cfg, d, |d.changes|);
    OnTimeFirst(tr.heard + items, |tr.heard|, k);
    assert (tr.heard + items)[..|tr.heard|] == tr.heard;
    ItemsQueueLast(tr, cfg, d, k);
    InsertAllLane(tr.tape.inFlight, items, k);
    assert Values(items) == d.changes;
  }

  lemma ItemsQueueLast(tr: Trace, cfg: Config, d: Departure, k: ListingKey)
    requires Inv(tr) && Wellformed(d) && tr.floor <= d.ordinal && !tr.tape.failed
    requires OnTime(tr.heard + Items(cfg, d, |d.changes|), k)
    ensures forall n | 0 <= n < |d.changes| :: QueuesLast(tr.tape.inFlight, Items(cfg, d, |d.changes|), k, n)
  {
    var items := Items(cfg, d, |d.changes|);
    InFlightWasHeard(tr);
    RisingBelowMore(tr.heard, tr.floor, d.ordinal);
    RisingItems(tr.heard, cfg, d, |d.changes|);
    forall n | 0 <= n < |d.changes| ensures QueuesLast(tr.tape.inFlight, items, k, n) {
      AllQueueLast(tr.tape.inFlight, tr.heard, items, k, n);
    }
  }

  lemma HeardLane(applied: seq<VenueChange>, q: seq<VenueChange>, heard: seq<Timed>, items: seq<Timed>, k: ListingKey)
    requires applied + q == Keep(Values(heard), At(k))
    ensures applied + (q + Keep(Values(items), At(k))) == Keep(Values(heard + items), At(k))
  {
    assert Values(heard + items) == Values(heard) + Values(items);
    KeepConcat(Values(heard), Values(items), At(k));
    assert (applied + q) + Keep(Values(items), At(k)) == applied + (q + Keep(Values(items), At(k)));
  }

  lemma DepartInOrder(tr: Trace, cfg: Config, d: Departure, k: ListingKey)
    requires Inv(tr) && Wellformed(d) && tr.floor <= d.ordinal && !tr.tape.failed && Lane(tr, k)
    requires OnTime(tr.heard + Items(cfg, d, |d.changes|), k)
    ensures var items := Items(cfg, d, |d.changes|);
      var q := InsertAll(tr.tape.inFlight, items);
      && OnTime(tr.heard, k)
      && Keep(Values(tr.applied), At(k)) + Select(q, At(k)) == Keep(Values(tr.heard + items), At(k))
  {
    var items := Items(cfg, d, |d.changes|);
    DepartLane(tr, cfg, d, k);
    assert Values(items) == d.changes;
    HeardLane(Keep(Values(tr.applied), At(k)), Select(tr.tape.inFlight, At(k)), tr.heard, items, k);
  }

  /** Moving the head of the queue to the applied changes keeps their concatenation. */
  lemma HeadMoves(applied: seq<Timed>, due: seq<Timed>, rest: seq<Timed>, f: VenueChange -> bool)
    ensures Keep(Values(applied), f) + Select(due + rest, f) == Keep(Values(applied + due), f) + Select(rest, f)
  {
    SelectConcat(due, rest, f);
    SelectIsKeep(due, f);
    assert Values(applied + due) == Values(applied) + Values(due);
    KeepConcat(Values(applied), Values(due), f);
    var a, b, c := Keep(Values(applied), f), Select(due, f), Select(rest, f);
    assert a + (b + c) == (a + b) + c;
  }

  lemma ReleaseInOrder(tr: Trace, now: nat, k: ListingKey)
    requires InCommitOrder(tr, k)
    ensures InCommitOrder(tr.(tape := Released(tr.tape, now), applied := tr.applied + Due(tr.tape.inFlight, now)), k)
  {
    var due := Due(tr.tape.inFlight, now);
    assert tr.tape.inFlight == due + tr.tape.inFlight[|due|..];
    HeadMoves(tr.applied, due, tr.tape.inFlight[|due|..], At(k));
  }

  lemma CarryInOrder(tr: Trace, cfg: Config, call: TapeCall, delays: seq<Option<nat>>, k: ListingKey)
    requires Inv(tr) && Carries(call) && Lawful(tr, Call(call, delays)) && Lane(tr, k)
    ensures var u := Next(tr, cfg, Call(call, delays));
      Lane(u, k) && (!u.tape.failed ==> !tr.tape.failed && (OnTime(u.heard, k) ==> OnTime(tr.heard, k)))
  {
    var d := DepartureOf(call, delays);
    AllDepartOrDown(tr.tape, cfg, d, |d.changes|);
    if d.changes == [] {
      assert tr.heard + Items(cfg, d, 0) == tr.heard;
    } else if !tr.tape.failed && OnTime(tr.heard + Items(cfg, d, |d.changes|), k) {
      DepartInOrder(tr, cfg, d, k);
    }
  }

  lemma NextInOrder(tr: Trace, cfg: Config, step: Step, k: ListingKey)
    requires Inv(tr) && Lawful(tr, step) && Lane(tr, k)
    ensures var u := Next(tr, cfg, step);
      Lane(u, k) && (!u.tape.failed ==> !tr.tape.failed && (OnTime(u.heard, k) ==> OnTime(tr.heard, k)))
  {
    match step
    case Release(now) =>
      if OnTime(tr.heard, k) {
        ReleaseInOrder(tr, now, k);
      }
    case Call(call, delays) =>
      if Carries(call) {
        CarryInOrder(tr, cfg, call, delays, k);
      }
  }

  function Calls(steps: seq<Step>): seq<TapeCall> {
    if steps == [] then [] else (if steps[0].Call? then [steps[0].call] else []) + Calls(steps[1..])
  }

  /**
    While the tape is up and one listing's changes arrive in the order they
    left, they are applied in commit order, none lost and none twice.
   */
  lemma {:induction false} ListingsApplyInCommitOrder(tr: Trace, cfg: Config, steps: seq<Step>, k: ListingKey)
    requires Inv(tr) && AllLawful(tr, cfg, steps) && Lane(tr, k)
    ensures var u := Run(tr, cfg, steps);
      OnTime(u.heard, k) && !u.tape.failed ==>
        && !tr.tape.failed && OnTime(tr.heard, k)
        && Keep(Values(u.applied), At(k)) + Select(u.tape.inFlight, At(k)) == Keep(Values(u.heard), At(k))
    decreases |steps|
  {
    if steps != [] {
      NextKeeps(tr, cfg, steps[0]);
      NextInOrder(tr, cfg, steps[0], k);
      ListingsApplyInCommitOrder(Next(tr, cfg, steps[0]), cfg, steps[1..], k);
    }
  }

  /** Once down, the tape publishes nothing and stays down. */
  lemma {:induction false} DownStaysDown(tr: Trace, cfg: Config, steps: seq<Step>)
    requires Inv(tr) && AllLawful(tr, cfg, steps) && tr.tape.failed
    ensures var u := Run(tr, cfg, steps); u.tape.failed && u.tape.sent == tr.tape.sent && u.applied == tr.applied
    decreases |steps|
  {
    if steps != [] {
      NextKeeps(tr, cfg, steps[0]);
      if steps[0].Call? && Carries(steps[0].call) {
        var d := DepartureOf(steps[0].call, steps[0].delays);
        AllDepartOrDown(tr.tape, cfg, d, |d.changes|);
      }
      DownStaysDown(Next(tr, cfg, steps[0]), cfg, steps[1..]);
    }
  }
}
