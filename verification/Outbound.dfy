/**
  The per-session outbound hold (outbound.rs) and the order in which a session's
  messages leave it.

  Every message waits for its send time. A session raises each ordered lane's
  send times to a floor (the private stream's `private_floor`, each feed's
  `last_send_us`), and the claim is that the hold then delivers every lane in
  the order it was produced, whatever the paths' delays and jitter.
 */
module Outbound {
  import opened TimedQueue
  import opened Words

  class OutboundHold<M> {
    const capacity: nat
    var next: nat
    var queue: seq<Item<M>>

    ghost predicate Valid()
      reads this
    {
      Sorted(queue) && forall x :: x in queue ==> x.key.ord < next
    }

    constructor (capacity: nat)
      ensures Valid() && this.capacity == capacity && next == 0 && queue == []
    {
      this.capacity := capacity;
      next := 0;
      queue := [];
    }

    /** Queues one message, or refuses it when the hold is full. */
    method Hold(message: M, sendAt: nat) returns (ok: bool)
      requires Valid()
      modifies this
      ensures Valid()
      ensures ok <==> |old(queue)| < capacity
      ensures ok ==> next == old(next) + 1 && queue == Insert(old(queue), Item(Key(sendAt, old(next), 0), message))
      ensures !ok ==> unchanged(this)
    {
      if |queue| >= capacity {
        return false;
      }
      InsertSorted(queue, Item(Key(sendAt, next, 0), message));
      queue := Insert(queue, Item(Key(sendAt, next, 0), message));
      next := next + 1;
      ok := true;
    }

    /** Exactly the messages due by `now` leave, in key order. */
    method TakeDue(now: nat) returns (due: seq<M>)
      requires Valid()
      modifies this`queue
      ensures Valid()
      ensures |due| <= |old(queue)|
      ensures due == Values(old(queue)[..|due|]) && queue == old(queue)[|due|..]
      ensures forall i | 0 <= i < |due| :: old(queue)[i].key.at <= now
      ensures forall x :: x in queue ==> now < x.key.at
    {
      due := [];
      while queue != [] && queue[0].key.at <= now
        invariant |due| <= |old(queue)|
        invariant due == Values(old(queue)[..|due|]) && queue == old(queue)[|due|..]
        invariant forall i | 0 <= i < |due| :: old(queue)[i].key.at <= now
        decreases |queue|
      {
        due := due + [queue[0].value];
        queue := queue[1..];
      }
    }
  }

  // ----- Sessions ----------------------------------------------------------

  /** Messages of one ordered lane, or unordered ones. */
  datatype Lane = Free | Ordered(id: nat)

  datatype Message<M> = Message(lane: Lane, body: M)

  /**
    A session's outbound side. `held` and `written` record every message it has
    held and written, in order.
   */
  datatype Session<M> = Session(
    capacity: nat,
    next: nat,
    queue: seq<Item<Message<M>>>,
    floors: map<nat, nat>,
    closed: bool,
    held: seq<Message<M>>,
    written: seq<Message<M>>)

  function NewSession<M>(capacity: nat): Session<M> {
    Session(capacity, 0, [], map[], false, [], [])
  }

  function FloorOf<M>(s: Session<M>, lane: Lane): nat {
    if lane.Ordered? && lane.id in s.floors then s.floors[lane.id] else 0
  }

  datatype Step<M> =
    | Hold(message: Message<M>, proposed: nat)
    | Write(now: nat)

  function HoldMessage<M>(s: Session<M>, m: Message<M>, proposed: nat): Session<M> {
    var at := Max(FloorOf(s, m.lane), proposed);
    if s.closed then s
    else if |s.queue| >= s.capacity then s.(closed := true)
    else s.(
           next := s.next + 1,
           queue := Insert(s.queue, Item(Key(at, s.next, 0), m)),
           floors := if m.lane.Ordered? then s.floors[m.lane.id := at] else s.floors,
           held := s.held + [m])
  }

  function DueCount<M>(q: seq<Item<M>>, now: nat): (n: nat)
    ensures n <= |q|
    ensures forall i | 0 <= i < n :: q[i].key.at <= now
    ensures n < |q| ==> now < q[n].key.at
  {
    if q != [] && q[0].key.at <= now then 1 + DueCount(q[1..], now) else 0
  }

  function WriteDue<M>(s: Session<M>, now: nat): Session<M> {
    var n := DueCount(s.queue, now);
    if s.closed then s
    else s.(queue := s.queue[n..], written := s.written + Values(s.queue[..n]))
  }

  function Next<M>(s: Session<M>, step: Step<M>): Session<M> {
    match step
    case Hold(m, proposed) => HoldMessage(s, m, proposed)
    case Write(now) => WriteDue(s, now)
  }

  function Run<M>(s: Session<M>, steps: seq<Step<M>>): Session<M>
    decreases |steps|
  {
    if steps == [] then s else Run(Next(s, steps[0]), steps[1..])
  }

  function InLane<M>(id: nat): Message<M> -> bool {
    (m: Message<M>) => m.lane == Ordered(id)
  }

  /** What every step keeps. */
  ghost predicate Inv<M>(s: Session<M>) {
    && Sorted(s.queue)
    && (forall x :: x in s.queue ==> x.key.ord < s.next && x.key.at <= MaxFloor(s, x))
    && (forall id: nat :: InOrder(s, id))
  }

  ghost function MaxFloor<M>(s: Session<M>, x: Item<Message<M>>): nat {
    if x.value.lane.Ordered? then FloorOf(s, x.value.lane) else x.key.at
  }

  /** One lane, written then still queued, is what was held, in that order. */
  ghost predicate InOrder<M>(s: Session<M>, id: nat) {
    Keep(s.written, InLane(id)) + Select(s.queue, InLane(id)) == Keep(s.held, InLane(id))
  }

  lemma HoldInOrder<M>(s: Session<M>, m: Message<M>, proposed: nat, id: nat)
    requires Inv(s) && !s.closed && |s.queue| < s.capacity
    ensures InOrder(HoldMessage(s, m, proposed), id)
  {
    var it := Item(Key(Max(FloorOf(s, m.lane), proposed), s.next, 0), m);
    assert InOrder(s, id);
    KeepConcat(s.held, [m], InLane(id));
    assert forall x :: x in s.queue ==> x.key != it.key;
    if m.lane == Ordered(id) {
      forall x | x in s.queue && InLane(id)(x.value) ensures Less(x.key, it.key) {
        assert x.key.at <= MaxFloor(s, x);
      }
      InsertLast(s.queue, it, InLane(id));
    } else {
      InsertOther(s.queue, it, InLane(id));
    }
  }

  lemma HoldKeeps<M>(s: Session<M>, m: Message<M>, proposed: nat)
    requires Inv(s)
    ensures Inv(HoldMessage(s, m, proposed))
  {
    var t := HoldMessage(s, m, proposed);
    if !s.closed && |s.queue| < s.capacity {
      var it := Item(Key(Max(FloorOf(s, m.lane), proposed), s.next, 0), m);
      InsertSorted(s.queue, it);
      forall x | x in t.queue ensures x.key.ord < t.next && x.key.at <= MaxFloor(t, x) {
        if x != it {
          assert x in s.queue;
        }
      }
      forall id: nat ensures InOrder(t, id) {
        HoldInOrder(s, m, proposed, id);
      }
    } else {
      assert forall id: nat :: InOrder(s, id) ==> InOrder(t, id);
    }
  }

  /** Moving the front of a queue to what is written keeps a lane together. */
  lemma MoveKeepsLane<M>(written: seq<Message<M>>, q: seq<Item<Message<M>>>, n: nat, id: nat)
    requires n <= |q|
    ensures Keep(written + Values(q[..n]), InLane(id)) + Select(q[n..], InLane(id))
         == Keep(written, InLane(id)) + Select(q, InLane(id))
  {
    var front, rest := q[..n], q[n..];
    assert q == front + rest;
    SelectConcat(front, rest, InLane(id));
    SelectIsKeep(front, InLane(id));
    KeepConcat(written, Values(front), InLane(id));
  }

  lemma WriteInOrder<M>(s: Session<M>, now: nat, id: nat)
    requires InOrder(s, id)
    ensures InOrder(WriteDue(s, now), id)
  {
    MoveKeepsLane(s.written, s.queue, DueCount(s.queue, now), id);
  }

  lemma WriteKeeps<M>(s: Session<M>, now: nat)
    requires Inv(s)
    ensures Inv(WriteDue(s, now))
  {
    var t := WriteDue(s, now);
    if !s.closed {
      forall x | x in t.queue ensures x.key.ord < t.next && x.key.at <= MaxFloor(t, x) {
        assert x in s.queue && MaxFloor(t, x) == MaxFloor(s, x);
      }
      forall id: nat ensures InOrder(t, id) {
        assert InOrder(s, id);
        WriteInOrder(s, now, id);
      }
    }
  }

  lemma {:induction false} RunKeeps<M>(s: Session<M>, steps: seq<Step<M>>)
    requires Inv(s)
    ensures Inv(Run(s, steps))
    decreases |steps|
  {
    if steps != [] {
      if steps[0].Hold? {
        HoldKeeps(s, steps[0].message, steps[0].proposed);
      } else {
        WriteKeeps(s, steps[0].now);
      }
      RunKeeps(Next(s, steps[0]), steps[1..]);
    }
  }

  /**
    Every ordered lane leaves in the order it was held: over any run, for any
    proposed send times and write instants, what has been written of a lane is
    a prefix of what was held of it, and the rest of it is still queued.
   */
  lemma LanesLeaveInOrder<M>(capacity: nat, steps: seq<Step<M>>, id: nat)
    ensures var s := Run(NewSession<M>(capacity), steps);
      && Keep(s.written, InLane(id)) <= Keep(s.held, InLane(id))
      && Select(s.queue, InLane(id)) == Keep(s.held, InLane(id))[|Keep(s.written, InLane(id))|..]
  {
    RunKeeps(NewSession<M>(capacity), steps);
    assert InOrder(Run(NewSession<M>(capacity), steps), id);
  }
}
