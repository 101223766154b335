/**
  Delivery of a FIX session's reports (delivery.rs) together with the outbound
  hold they wait in: over every run, restarts and crashes included, the reports
  recorded as unwritten are exactly those still held, and each batch's reports
  reach the session once.
 */
module Delivery {
  import opened Words
  import opened TimedQueue
  import opened Book
  import opened Outbound

  /** One applied batch's reports that have not been written yet. */
  datatype Unwritten<M> = Unwritten(messages: seq<M>, sendAt: nat)

  datatype DeliveryState<M> = DeliveryState(seenThrough: nat, unwritten: map<nat, Unwritten<M>>)

  function Recorded<M>(d: DeliveryState<M>, last: nat, messages: seq<M>, sendAt: nat): DeliveryState<M> {
    DeliveryState(Max(d.seenThrough, last),
                  if messages == [] then d.unwritten else d.unwritten[last := Unwritten(messages, sendAt)])
  }

  function Marked<M>(d: DeliveryState<M>, now: nat): DeliveryState<M> {
    d.(unwritten := map b | b in d.unwritten && d.unwritten[b].sendAt > now :: d.unwritten[b])
  }

  function Retained<M>(d: DeliveryState<M>, keys: set<nat>): DeliveryState<M> {
    d.(unwritten := map b | b in d.unwritten && b in keys :: d.unwritten[b])
  }

  /** What the session log keeps: send times are not recorded. */
  function Durable<M>(d: DeliveryState<M>): DeliveryState<M> {
    d.(unwritten := map b | b in d.unwritten :: d.unwritten[b].(sendAt := 0))
  }

  class DeliveryRecord<M> {
    var seenThrough: nat
    var unwritten: map<nat, Unwritten<M>>

    function Value(): DeliveryState<M>
      reads this
    {
      DeliveryState(seenThrough, unwritten)
    }

    /** Restores unwritten reports, due at once. */
    constructor (saved: DeliveryState<M>)
      ensures Value() == Durable(saved)
    {
      seenThrough := saved.seenThrough;
      unwritten := map b | b in saved.unwritten :: saved.unwritten[b].(sendAt := 0);
    }

    method AdvanceTo(last: nat)
      modifies this`seenThrough
      ensures Value() == old(Value()).(seenThrough := Max(old(seenThrough), last))
    {
      seenThrough := Max(seenThrough, last);
    }

    method OnBatch(last: nat, messages: seq<M>, sendAt: nat)
      modifies this
      ensures Value() == Recorded(old(Value()), last, messages, sendAt)
    {
      seenThrough := Max(seenThrough, last);
      if messages != [] {
        unwritten := unwritten[last := Unwritten(messages, sendAt)];
      }
    }

    method OnWritten(now: nat)
      modifies this`unwritten
      ensures Value() == Marked(old(Value()), now)
    {
      unwritten := map b | b in unwritten && unwritten[b].sendAt > now :: unwritten[b];
    }

    method Retain(keys: set<nat>)
      modifies this`unwritten
      ensures Value() == Retained(old(Value()), keys)
    {
      unwritten := map b | b in unwritten && b in keys :: unwritten[b];
    }
  }

  // ----- The session's hold ------------------------------------------------

  /** What the hold carries: reports of a batch, or anything else the session sends. */
  datatype Held<M> = Report(batch: nat, body: M) | Other(body: M)

  function Of<M>(b: nat): Held<M> -> bool {
    (h: Held<M>) => h.Report? && h.batch == b
  }

  function Reports<M>(b: nat, ms: seq<M>): seq<Held<M>> {
    seq(|ms|, i requires 0 <= i < |ms| => Report(b, ms[i]))
  }

  /** The reports recorded as unwritten for batch `b`. */
  function Owed<M>(d: DeliveryState<M>, b: nat): seq<Held<M>> {
    if b in d.unwritten then Reports(b, d.unwritten[b].messages) else []
  }

  /** Holds each message in turn, from hold number `next` on. */
  function HoldAll<M>(q: seq<Item<Held<M>>>, next: nat, b: nat, ms: seq<M>, at: nat): seq<Item<Held<M>>> {
    if ms == [] then q
    else
      var n := |ms| - 1;
      Insert(HoldAll(q, next, b, ms[..n], at), Item(Key(at, next + n, 0), Report(b, ms[n])))
  }

  /** Inserting under a fresh hold number. */
  lemma InsertFresh<M>(q: seq<Item<Held<M>>>, it: Item<Held<M>>)
    requires Sorted(q) && forall x :: x in q ==> x.key.ord < it.key.ord
    ensures Sorted(Insert(q, it)) && |Insert(q, it)| == |q| + 1
    ensures forall x :: x in Insert(q, it) <==> x in q || x == it
  {
    InsertSorted(q, it);
    InsertMultiset(q, it);
    forall x ensures x in Insert(q, it) <==> x in q || x == it {
      assert x in Insert(q, it) <==> x in multiset(q) + multiset{it};
    }
  }

  /** `r` is `q` with some reports of batch `b` due at `at`, numbered below `next`. */
  ghost predicate Gains<M>(q: seq<Item<Held<M>>>, b: nat, at: nat, r: seq<Item<Held<M>>>, next: nat) {
    && Sorted(r)
    && (forall x :: x in r ==> x.key.ord < next)
    && (forall x :: x in r ==> x in q || (x.value.Report? && x.value.batch == b && x.key.at == at))
  }

  lemma GainsOne<M>(q: seq<Item<Held<M>>>, b: nat, at: nat, r: seq<Item<Held<M>>>, next: nat, m: M)
    requires Gains(q, b, at, r, next)
    ensures var t := Insert(r, Item(Key(at, next, 0), Report(b, m)));
      Gains(q, b, at, t, next + 1) && |t| == |r| + 1
  {
    InsertFresh(r, Item(Key(at, next, 0), Report(b, m)));
  }

  lemma {:induction false} HoldAllGains<M>(q: seq<Item<Held<M>>>, next: nat, b: nat, ms: seq<M>, at: nat)
    requires Sorted(q) && forall x :: x in q ==> x.key.ord < next
    ensures var r := HoldAll(q, next, b, ms, at); Gains(q, b, at, r, next + |ms|) && |r| == |q| + |ms|
  {
    if ms != [] {
      var n := |ms| - 1;
      HoldAllGains(q, next, b, ms[..n], at);
      GainsOne(q, b, at, HoldAll(q, next, b, ms[..n], at), next + n, ms[n]);
    }
  }

  /** What one batch's reports do to the hold. */
  lemma HoldAllKeeps<M>(q: seq<Item<Held<M>>>, next: nat, b: nat, ms: seq<M>, at: nat)
    requires Sorted(q) && forall x :: x in q ==> x.key.ord < next
    ensures var r := HoldAll(q, next, b, ms, at);
      && Sorted(r) && |r| == |q| + |ms|
      && (forall x :: x in r ==> x.key.ord < next + |ms|)
      && (forall x :: x in r ==> x in q || (x.value.Report? && x.value.batch == b && x.key.at == at))
  {
    HoldAllGains(q, next, b, ms, at);
  }

  /** The newest report of a batch is held behind the batch's others. */
  lemma GainsLast<M>(
      q: seq<Item<Held<M>>>, b: nat, at: nat, r: seq<Item<Held<M>>>, next: nat, m: M, t: seq<Item<Held<M>>>, ms: seq<M>)
    requires Gains(q, b, at, r, next) && HasNone(q, b) && t == Insert(r, Item(Key(at, next, 0), Report(b, m)))
    requires Select(r, Of(b)) == Reports(b, ms)
    ensures Select(t, Of(b)) == Reports(b, ms + [m])
  {
    InsertLast(r, Item(Key(at, next, 0), Report(b, m)), Of(b));
    assert Reports(b, ms + [m]) == Reports(b, ms) + [Report(b, m)];
  }

  ghost predicate HasNone<M>(q: seq<Item<Held<M>>>, b: nat) {
    forall x :: x in q ==> !Of<M>(b)(x.value)
  }

  lemma {:induction false} HoldAllOwn<M>(q: seq<Item<Held<M>>>, next: nat, b: nat, ms: seq<M>, at: nat)
    requires Sorted(q) && (forall x :: x in q ==> x.key.ord < next) && HasNone(q, b)
    ensures Select(HoldAll(q, next, b, ms, at), Of(b)) == Reports(b, ms)
  {
    if ms == [] {
      SelectNone(q, Of(b));
    } else {
      var n := |ms| - 1;
      var front, r, t := ms[..n], HoldAll(q, next, b, ms[..n], at), HoldAll(q, next, b, ms, at);
      HoldAllOwn(q, next, b, front, at);
      HoldAllGains(q, next, b, front, at);
      GainsLast(q, b, at, r, next + n, ms[n], t, front);
      assert front + [ms[n]] == ms;
    }
  }

  lemma {:induction false} HoldAllOther<M>(q: seq<Item<Held<M>>>, next: nat, b: nat, ms: seq<M>, at: nat, c: nat)
    requires Sorted(q) && b != c && forall x :: x in q ==> x.key.ord < next
    ensures Select(HoldAll(q, next, b, ms, at), Of(c)) == Select(q, Of(c))
  {
    if ms != [] {
      var n := |ms| - 1;
      HoldAllOther(q, next, b, ms[..n], at, c);
      HoldAllKeeps(q, next, b, ms[..n], at);
      InsertOther(HoldAll(q, next, b, ms[..n], at), Item(Key(at, next + n, 0), Report(b, ms[n])), Of(c));
    }
  }

  // ----- Holding what an earlier session left ------------------------------

  function MessagesAt<M>(u: map<nat, Unwritten<M>>, b: int): seq<M> {
    if b >= 0 && b in u then u[b].messages else []
  }

  function CountOwed<M>(u: map<nat, Unwritten<M>>, order: seq<int>): nat {
    if order == [] then 0 else CountOwed(u, order[..|order| - 1]) + |MessagesAt(u, order[|order| - 1])|
  }

  /** The reports of each batch in `order`, all at `at`. */
  function HoldOwed<M>(u: map<nat, Unwritten<M>>, order: seq<int>, at: nat): seq<Item<Held<M>>> {
    if order == [] then []
    else
      var front, b := order[..|order| - 1], order[|order| - 1];
      if b < 0 then HoldOwed(u, front, at)
      else HoldAll(HoldOwed(u, front, at), CountOwed(u, front), b, MessagesAt(u, b), at)
  }

  ghost predicate NoRepeats(order: seq<int>) {
    forall i, j | 0 <= i < j < |order| :: order[i] != order[j]
  }

  lemma {:induction false} HoldOwedKeeps<M>(u: map<nat, Unwritten<M>>, order: seq<int>, at: nat)
    ensures var q := HoldOwed(u, order, at);
      && Sorted(q) && (forall x :: x in q ==> x.key.ord < CountOwed(u, order))
      && (forall x :: x in q ==> x.value.Report? && x.value.batch in order && x.key.at == at)
  {
    if order != [] {
      var front, b := order[..|order| - 1], order[|order| - 1];
      HoldOwedKeeps(u, front, at);
      assert order == front + [b];
      if b >= 0 {
        HoldAllKeeps(HoldOwed(u, front, at), CountOwed(u, front), b, MessagesAt(u, b), at);
      }
    }
  }

  lemma {:induction false} HoldOwedSelects<M>(u: map<nat, Unwritten<M>>, order: seq<int>, at: nat, c: nat)
    requires NoRepeats(order)
    ensures Select(HoldOwed(u, order, at), Of(c)) == if c in order then Reports(c, MessagesAt(u, c)) else []
  {
    if order != [] {
      var front, b := order[..|order| - 1], order[|order| - 1];
      HoldOwedSelects(u, front, at, c);
      HoldOwedKeeps(u, front, at);
      assert order == front + [b] && b !in front;
      if b >= 0 {
        if b == c {
          HoldAllOwn(HoldOwed(u, front, at), CountOwed(u, front), b, MessagesAt(u, b), at);
        } else {
          HoldAllOther(HoldOwed(u, front, at), CountOwed(u, front), b, MessagesAt(u, b), at, c);
        }
      }
    }
  }

  // ----- The system --------------------------------------------------------

  /**
    `applied` and `written` record what the application produced for each batch
    and what the session took to write; `saved` is the durable session log.
   */
  datatype System<M> = System(
    capacity: nat,
    delivery: DeliveryState<M>,
    queue: seq<Item<Held<M>>>,
    next: nat,
    clock: nat,
    closed: bool,
    applied: map<nat, seq<M>>,
    written: seq<Held<M>>,
    saved: DeliveryState<M>,
    savedApplied: map<nat, seq<M>>)

  datatype Step<M> =
    | Apply(last: nat, messages: seq<M>, sendAt: nat)
    | Send(body: M, sendAt: nat)
    | WriteTurn(now: nat)
    | Persist
    | Reconnect(now: nat)

  function Start<M>(capacity: nat, seenThrough: nat): System<M> {
    var d := DeliveryState<M>.DeliveryState(seenThrough, map[]);
    System(capacity, d, [], 0, 0, false, map[], [], d, map[])
  }

  /** Applies a batch not applied before and holds its reports. */
  function Applied<M>(s: System<M>, last: nat, messages: seq<M>, sendAt: nat): System<M> {
    if last <= s.delivery.seenThrough then s
    else
      var t := s.(delivery := Recorded(s.delivery, last, messages, sendAt), applied := s.applied[last := messages]);
      if messages != [] && |s.queue| + |messages| > s.capacity then t.(closed := true)
      else t.(queue := HoldAll(s.queue, s.next, last, messages, sendAt), next := s.next + |messages|)
  }

  function Sent<M>(s: System<M>, body: M, sendAt: nat): System<M> {
    if |s.queue| >= s.capacity then s.(closed := true)
    else s.(queue := Insert(s.queue, Item(Key(sendAt, s.next, 0), Other(body))), next := s.next + 1)
  }

  function Persisted<M>(s: System<M>): System<M> {
    s.(saved := Durable(s.delivery), savedApplied := s.applied)
  }

  /** One write turn at one instant: marked first, made durable, then written. */
  function Wrote<M>(s: System<M>, now: nat): System<M> {
    var n := DueCount(s.queue, now);
    var t := s.(clock := now);
    if n == 0 then t
    else
      var written := s.written + Values(s.queue[..n]);
      Persisted(t.(delivery := Marked(s.delivery, now), queue := s.queue[n..], written := written))
  }

  /** The next session, from the durable log; the venue may have stopped in between. */
  function Reconnected<M>(s: System<M>, now: nat): System<M> {
    var d := Durable(s.saved);
    var order := Ascending(d.unwritten.Keys);
    System(s.capacity, d, HoldOwed(d.unwritten, order, now), CountOwed(d.unwritten, order), now,
           CountOwed(d.unwritten, order) > s.capacity, s.savedApplied, s.written, s.saved, s.savedApplied)
  }

  function Next<M>(s: System<M>, step: Step<M>): System<M> {
    match step
    case Reconnect(now) => Reconnected(s, Max(s.clock, now))
    case Apply(last, messages, sendAt) => if s.closed then s else Applied(s, last, messages, sendAt)
    case Send(body, sendAt) => if s.closed then s else Sent(s, body, sendAt)
    case WriteTurn(now) => if s.closed then s else Wrote(s, Max(s.clock, now))
    case Persist => Persisted(s)
  }

  function Run<M>(s: System<M>, steps: seq<Step<M>>): System<M>
    decreases |steps|
  {
    if steps == [] then s else Run(Next(s, steps[0]), steps[1..])
  }

  // ----- What every step keeps ---------------------------------------------

  /** A record's batches are applied ones, with something to write. */
  ghost predicate Sound<M>(d: DeliveryState<M>, applied: map<nat, seq<M>>) {
    && (forall b | b in d.unwritten :: b <= d.seenThrough && d.unwritten[b].messages != [])
    && (forall b | b in applied :: b <= d.seenThrough)
  }

  /** A held report leaves when its batch is marked written: at the same time, or both are due already. */
  ghost predicate Together<M>(s: System<M>, x: Item<Held<M>>) {
    x.value.Report? ==>
      && x.value.batch in s.delivery.unwritten
      && (x.key.at == s.delivery.unwritten[x.value.batch].sendAt
          || (x.key.at <= s.clock && s.delivery.unwritten[x.value.batch].sendAt <= s.clock))
  }

  ghost predicate Queued<M>(s: System<M>) {
    && Sorted(s.queue) && (forall x :: x in s.queue ==> x.key.ord < s.next)
    && (forall x :: x in s.queue ==> Together(s, x))
  }

  ghost predicate Inv<M>(s: System<M>) {
    && Sound(s.delivery, s.applied) && Sound(s.saved, s.savedApplied)
    && (s.closed || Queued(s))
  }

  /** The unwritten reports of a batch are exactly those still held. */
  ghost predicate StillHeld<M>(s: System<M>, b: nat) {
    s.closed || Select(s.queue, Of(b)) == Owed(s.delivery, b)
  }

  /** Written then unwritten is everything the batch produced, once and in order. */
  ghost predicate Conserved<M>(d: DeliveryState<M>, applied: map<nat, seq<M>>, written: seq<Held<M>>, b: nat) {
    Keep(written, Of(b)) + Owed(d, b) == Reports(b, if b in applied then applied[b] else [])
  }

  ghost predicate Delivered<M>(s: System<M>, b: nat) {
    && StillHeld(s, b)
    && Conserved(s.delivery, s.applied, s.written, b)
    && Conserved(s.saved, s.savedApplied, s.written, b)
  }

  lemma DurableOwes<M>(d: DeliveryState<M>, b: nat)
    ensures Owed(Durable(d), b) == Owed(d, b)
  {
  }

  lemma AppliedKeeps<M>(s: System<M>, last: nat, messages: seq<M>, sendAt: nat)
    requires Inv(s) && !s.closed
    ensures var t := Applied(s, last, messages, sendAt); Inv(t)
  {
    if last > s.delivery.seenThrough && (messages == [] || |s.queue| + |messages| <= s.capacity) {
      var t := Applied(s, last, messages, sendAt);
      HoldAllKeeps(s.queue, s.next, last, messages, sendAt);
      forall x | x in t.queue ensures Together(t, x) {
        if x in s.queue {
          assert Together(s, x);
        }
      }
    }
  }

  lemma AppliedDelivers<M>(s: System<M>, last: nat, messages: seq<M>, sendAt: nat, b: nat)
    requires Inv(s) && !s.closed && Delivered(s, b)
    ensures var t := Applied(s, last, messages, sendAt); Delivered(t, b)
  {
    if last > s.delivery.seenThrough {
      var t := Applied(s, last, messages, sendAt);
      AppliedHolds(s, last, messages, sendAt, b);
      AppliedConserves(s.delivery, s.applied, s.written, last, messages, sendAt, b);
      assert StillHeld(t, b) && Conserved(t.delivery, t.applied, t.written, b);
    }
  }

  lemma AppliedHolds<M>(s: System<M>, last: nat, messages: seq<M>, sendAt: nat, b: nat)
    requires Queued(s) && Sound(s.delivery, s.applied) && !s.closed && last > s.delivery.seenThrough && StillHeld(s, b)
    ensures var t := Applied(s, last, messages, sendAt); StillHeld(t, b)
  {
    AppliedSelects(s, last, messages, sendAt, b);
    RecordedOwes(s.delivery, s.applied, last, messages, sendAt, b);
  }

  /** Recording a new batch adds its reports and changes no other batch's. */
  lemma RecordedOwes<M>(
      d: DeliveryState<M>, applied: map<nat, seq<M>>, last: nat, messages: seq<M>, sendAt: nat, b: nat)
    requires Sound(d, applied) && last > d.seenThrough
    ensures Owed(Recorded(d, last, messages, sendAt), b) == if b == last then Reports(b, messages) else Owed(d, b)
    ensures Owed(d, last) == []
  {
  }

  lemma AppliedConserves<M>(
      d: DeliveryState<M>, applied: map<nat, seq<M>>, written: seq<Held<M>>,
      last: nat, messages: seq<M>, sendAt: nat, b: nat)
    requires Sound(d, applied) && last > d.seenThrough && Conserved(d, applied, written, b)
    ensures Conserved(Recorded(d, last, messages, sendAt), applied[last := messages], written, b)
  {
    RecordedOwes(d, applied, last, messages, sendAt, b);
    if b == last {
      assert last !in applied && Keep(written, Of(b)) == [];
    }
  }

  lemma AppliedSelects<M>(s: System<M>, last: nat, messages: seq<M>, sendAt: nat, b: nat)
    requires Queued(s) && Sound(s.delivery, s.applied) && last > s.delivery.seenThrough
    ensures Select(HoldAll(s.queue, s.next, last, messages, sendAt), Of(b))
         == if b == last then Reports(b, messages) else Select(s.queue, Of(b))
  {
    forall x | x in s.queue ensures !Of<M>(last)(x.value) {
      assert Together(s, x);
    }
    if b == last {
      HoldAllOwn(s.queue, s.next, last, messages, sendAt);
    } else {
      HoldAllOther(s.queue, s.next, last, messages, sendAt, b);
    }
  }

  lemma SentDelivers<M>(s: System<M>, body: M, sendAt: nat, b: nat)
    requires Inv(s) && !s.closed && Delivered(s, b)
    ensures var t := Sent(s, body, sendAt); Inv(t) && Delivered(t, b)
  {
    if |s.queue| < s.capacity {
      var t := Sent(s, body, sendAt);
      var it := Item(Key(sendAt, s.next, 0), Other(body));
      InsertSorted(s.queue, it);
      InsertOther(s.queue, it, Of(b));
      forall x | x in t.queue ensures x.key.ord < t.next && Together(t, x) {
        if x != it {
          assert x in s.queue && Together(s, x);
        }
      }
    }
  }

  /** At one instant, a batch's reports are all due or none is, as its record says. */
  lemma DueTogether<M>(s: System<M>, now: nat, b: nat)
    requires Queued(s) && s.clock <= now && b in s.delivery.unwritten
    ensures var n := DueCount(s.queue, now);
      if s.delivery.unwritten[b].sendAt <= now then Select(s.queue[n..], Of(b)) == []
      else Select(s.queue[..n], Of(b)) == []
  {
    var n := DueCount(s.queue, now);
    if s.delivery.unwritten[b].sendAt <= now {
      forall x | x in s.queue[n..] ensures !Of<M>(b)(x.value) {
        var i :| n <= i < |s.queue| && s.queue[i] == x;
        assert Together(s, x);
        assert i == n || Less(s.queue[n].key, s.queue[i].key);
      }
      SelectNone(s.queue[n..], Of(b));
    } else {
      forall x | x in s.queue[..n] ensures !Of<M>(b)(x.value) {
        assert x in s.queue && Together(s, x);
      }
      SelectNone(s.queue[..n], Of(b));
    }
  }

  /** The due part of the hold and the part that stays, for one batch. */
  lemma WroteSplits<M>(s: System<M>, now: nat, b: nat)
    requires Queued(s) && s.clock <= now && Select(s.queue, Of(b)) == Owed(s.delivery, b)
    ensures var n := DueCount(s.queue, now);
      && Select(s.queue[n..], Of(b)) == Owed(Marked(s.delivery, now), b)
      && Select(s.queue[..n], Of(b)) + Owed(Marked(s.delivery, now), b) == Owed(s.delivery, b)
  {
    var n := DueCount(s.queue, now);
    assert s.queue == s.queue[..n] + s.queue[n..];
    SelectConcat(s.queue[..n], s.queue[n..], Of(b));
    if b in s.delivery.unwritten {
      DueTogether(s, now, b);
    }
  }

  lemma WroteKeeps<M>(s: System<M>, now: nat)
    requires Inv(s) && !s.closed && s.clock <= now
    ensures var t := Wrote(s, now); Inv(t)
  {
    var t := Wrote(s, now);
    WroteQueue(s, now);
    forall x | x in t.queue ensures Together(t, x) {
      assert Together(s, x);
    }
  }

  /** What stays held was held, and if anything was written it is due later. */
  lemma WroteQueue<M>(s: System<M>, now: nat)
    requires Queued(s)
    ensures var t := Wrote(s, now);
      && Sorted(t.queue)
      && forall x :: x in t.queue ==> x in s.queue && (DueCount(s.queue, now) > 0 ==> now < x.key.at)
  {
    var t, n := Wrote(s, now), DueCount(s.queue, now);
    if n > 0 {
      forall i | 0 <= i < |t.queue| ensures t.queue[i] in s.queue && now < t.queue[i].key.at {
        assert t.queue[i] == s.queue[n + i];
        assert i == 0 || Less(s.queue[n].key, s.queue[n + i].key);
      }
    }
  }

  lemma WroteDelivers<M>(s: System<M>, now: nat, b: nat)
    requires Inv(s) && !s.closed && s.clock <= now && Delivered(s, b)
    ensures var t := Wrote(s, now); Delivered(t, b)
  {
    var t, n := Wrote(s, now), DueCount(s.queue, now);
    if n > 0 {
      WroteSplits(s, now, b);
      SelectIsKeep(s.queue[..n], Of(b));
      KeepConcat(s.written, Values(s.queue[..n]), Of(b));
      Regroup(Keep(s.written, Of(b)), Select(s.queue[..n], Of(b)), Owed(Marked(s.delivery, now), b));
      DurableOwes(t.delivery, b);
    }
  }

  lemma ReconnectedDelivers<M>(s: System<M>, now: nat, b: nat)
    requires Delivered(s, b)
    ensures var t := Reconnected(s, now); Delivered(t, b)
  {
    var d := Durable(s.saved);
    HoldOwedSelects(d.unwritten, Ascending(d.unwritten.Keys), now, b);
    DurableOwes(s.saved, b);
  }

  lemma ReconnectedKeeps<M>(s: System<M>, now: nat)
    requires Inv(s)
    ensures var t := Reconnected(s, now); Inv(t)
  {
    var d := Durable(s.saved);
    var order := Ascending(d.unwritten.Keys);
    var t := Reconnected(s, now);
    HoldOwedKeeps(d.unwritten, order, now);
    forall x | x in t.queue ensures Together(t, x) {
      assert x.value.batch in d.unwritten.Keys;
    }
  }

  lemma NextKeeps<M>(s: System<M>, step: Step<M>, b: nat)
    requires Inv(s) && Delivered(s, b)
    ensures var t := Next(s, step); Inv(t) && Delivered(t, b)
  {
    match step
    case Reconnect(now) =>
      ReconnectedKeeps(s, Max(s.clock, now));
      ReconnectedDelivers(s, Max(s.clock, now), b);
    case Persist => DurableOwes(s.delivery, b);
    case Apply(last, messages, sendAt) =>
      if !s.closed {
        AppliedKeeps(s, last, messages, sendAt);
        AppliedDelivers(s, last, messages, sendAt, b);
      }
    case Send(body, sendAt) =>
      if !s.closed {
        SentDelivers(s, body, sendAt, b);
      }
    case WriteTurn(now) =>
      if !s.closed {
        WroteKeeps(s, Max(s.clock, now));
        WroteDelivers(s, Max(s.clock, now), b);
      }
  }

  lemma {:induction false} RunKeeps<M>(s: System<M>, steps: seq<Step<M>>, b: nat)
    requires Inv(s) && Delivered(s, b)
    ensures var t := Run(s, steps); Inv(t) && Delivered(t, b)
    decreases |steps|
  {
    if steps != [] {
      NextKeeps(s, steps[0], b);
      RunKeeps(Next(s, steps[0]), steps[1..], b);
    }
  }

  /**
    Over every run of batches, other messages, write turns, saves and restarts,
    whatever the send times: while the session is open the unwritten reports of
    every batch are exactly those still held, and what was written of a batch
    followed by what is unwritten is what the batch produced.
   */
  lemma UnwrittenIsStillHeld<M>(capacity: nat, seenThrough: nat, steps: seq<Step<M>>, b: nat)
    ensures var s := Run(Start<M>(capacity, seenThrough), steps);
      && (!s.closed ==> Select(s.queue, Of(b)) == Owed(s.delivery, b))
      && Keep(s.written, Of(b)) + Owed(s.delivery, b) == Reports(b, if b in s.applied then s.applied[b] else [])
  {
    RunKeeps(Start<M>(capacity, seenThrough), steps, b);
  }

  // ----- Room and time -----------------------------------------------------

  /** Message `j` of a batch finds the hold full once the ones before it are held. */
  ghost predicate FindsFull<M>(s: System<M>, b: nat, ms: seq<M>, at: nat, j: nat)
    requires j < |ms|
  {
    |HoldAll(s.queue, s.next, b, ms[..j], at)| >= s.capacity
  }

  /** A new batch closes the session exactly when one of its reports, held one by one, finds the hold full. */
  lemma BatchClosesIff<M>(s: System<M>, last: nat, messages: seq<M>, sendAt: nat)
    requires Inv(s) && !s.closed && |s.queue| <= s.capacity && last > s.delivery.seenThrough
    ensures Next(s, Apply(last, messages, sendAt)).closed
       <==> exists j | 0 <= j < |messages| :: FindsFull(s, last, messages, sendAt, j)
  {
    forall j | 0 <= j < |messages| ensures FindsFull(s, last, messages, sendAt, j) <==> |s.queue| + j >= s.capacity {
      HoldAllGains(s.queue, s.next, last, messages[..j], sendAt);
    }
    if |s.queue| + |messages| > s.capacity && messages != [] {
      assert FindsFull(s, last, messages, sendAt, s.capacity - |s.queue|);
    }
  }

  lemma {:induction false} HoldOwedCounts<M>(u: map<nat, Unwritten<M>>, order: seq<int>, at: nat)
    ensures |HoldOwed(u, order, at)| == CountOwed(u, order)
  {
    if order != [] {
      var front, b := order[..|order| - 1], order[|order| - 1];
      HoldOwedCounts(u, front, at);
      HoldOwedKeeps(u, front, at);
      if b >= 0 {
        HoldAllKeeps(HoldOwed(u, front, at), CountOwed(u, front), b, MessagesAt(u, b), at);
      }
    }
  }

  lemma NextIsBounded<M>(s: System<M>, step: Step<M>)
    requires Inv(s) && (s.closed || |s.queue| <= s.capacity)
    ensures var t := Next(s, step);
      && t.capacity == s.capacity && (t.closed || |t.queue| <= t.capacity)
      && (step.Reconnect? ==> (t.closed <==> |t.queue| > t.capacity))
      && (step.Send? && !s.closed ==> (t.closed <==> |s.queue| == s.capacity))
  {
    match step
    case Apply(last, messages, sendAt) =>
      if !s.closed {
        HoldAllGains(s.queue, s.next, last, messages, sendAt);
      }
    case Send(body, sendAt) =>
      if !s.closed {
        InsertFresh(s.queue, Item(Key(sendAt, s.next, 0), Other(body)));
      }
    case Reconnect(now) =>
      var d := Durable(s.saved);
      HoldOwedCounts(d.unwritten, Ascending(d.unwritten.Keys), Max(s.clock, now));
    case _ =>
  }

  /** Over every run an open session holds no more than its capacity. */
  lemma {:induction false} OpenHoldIsBounded<M>(s: System<M>, steps: seq<Step<M>>, b: nat)
    requires Inv(s) && Delivered(s, b) && (s.closed || |s.queue| <= s.capacity)
    ensures var t := Run(s, steps); t.capacity == s.capacity && (t.closed || |t.queue| <= t.capacity)
    decreases |steps|
  {
    if steps != [] {
      NextIsBounded(s, steps[0]);
      NextKeeps(s, steps[0], b);
      OpenHoldIsBounded(Next(s, steps[0]), steps[1..], b);
    }
  }

  lemma RestIsLater<M>(q: seq<Item<Held<M>>>, at: nat)
    requires Sorted(q)
    ensures forall x :: x in q[DueCount(q, at)..] ==> at < x.key.at
  {
    var n := DueCount(q, at);
    forall x | x in q[n..] ensures at < x.key.at {
      var i :| n <= i < |q| && q[i] == x;
      assert i == n || Less(q[n].key, q[i].key);
    }
  }

  /** A write turn takes exactly what is due by its instant, which never goes back. */
  lemma WriteTurnTakesWhatIsDue<M>(s: System<M>, now: nat)
    requires Inv(s) && !s.closed
    ensures var t := Next(s, WriteTurn(now));
      && s.clock <= t.clock && now <= t.clock && (t.clock == s.clock || t.clock == now)
      && |t.queue| <= |s.queue| && var n := |s.queue| - |t.queue|;
      && t.queue == s.queue[n..] && t.written == s.written + Values(s.queue[..n])
      && (forall i | 0 <= i < n :: s.queue[i].key.at <= t.clock)
      && (forall x :: x in t.queue ==> t.clock < x.key.at)
  {
    var n := DueCount(s.queue, Max(s.clock, now));
    RestIsLater(s.queue, Max(s.clock, now));
    if n == 0 {
      assert s.queue[0..] == s.queue && Values(s.queue[..0]) == [];
      assert s.written + [] == s.written;
    }
  }

  // ----- The session log ---------------------------------------------------

  /** What the record does between two saves. */
  datatype Change<M> = OnBatch(last: nat, messages: seq<M>, sendAt: nat) | OnWritten(now: nat)

  function Changed<M>(d: DeliveryState<M>, c: Change<M>): DeliveryState<M> {
    match c
    case OnBatch(last, messages, sendAt) => Recorded(d, last, messages, sendAt)
    case OnWritten(now) => Marked(d, now)
  }

  function ChangedAll<M>(d: DeliveryState<M>, cs: seq<Change<M>>): DeliveryState<M> {
    if cs == [] then d else Changed(ChangedAll(d, cs[..|cs| - 1]), cs[|cs| - 1])
  }

  /** The log keeps the batches with reports, without their send times; replay records them in order. */
  function Replayed<M>(d: DeliveryState<M>, cs: seq<Change<M>>): DeliveryState<M> {
    if cs == [] then d
    else
      var c := cs[|cs| - 1];
      var before := Replayed(d, cs[..|cs| - 1]);
      if c.OnBatch? && c.messages != [] then Recorded(before, c.last, c.messages, 0) else before
  }

  /** Replay of one delta: its batches, then the position reached, then only what was still unwritten. */
  function ReplayDelta<M>(d: DeliveryState<M>, cs: seq<Change<M>>, seenThrough: nat, keys: set<nat>): DeliveryState<M> {
    var r := Replayed(d, cs);
    Retained(r.(seenThrough := Max(r.seenThrough, seenThrough)), keys)
  }

  /** Replay holds at least what was recorded, with the same messages. */
  lemma {:induction false} ReplayCovers<M>(d: DeliveryState<M>, cs: seq<Change<M>>)
    ensures var r, n := Replayed(Durable(d), cs), ChangedAll(d, cs);
      && r.seenThrough <= n.seenThrough
      && (forall b | b in n.unwritten :: b in r.unwritten && r.unwritten[b] == n.unwritten[b].(sendAt := 0))
  {
    if cs != [] {
      ReplayCovers(d, cs[..|cs| - 1]);
    }
  }

  /** Replaying a delta restores exactly the record that was saved. */
  lemma ReplayRestores<M>(d: DeliveryState<M>, cs: seq<Change<M>>)
    ensures var n := ChangedAll(d, cs);
      ReplayDelta(Durable(d), cs, n.seenThrough, n.unwritten.Keys) == Durable(n)
  {
    ReplayCovers(d, cs);
    var n := ChangedAll(d, cs);
    var r := ReplayDelta(Durable(d), cs, n.seenThrough, n.unwritten.Keys);
    assert r.unwritten == Durable(n).unwritten;
  }
}
