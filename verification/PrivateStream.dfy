/**
  A BNP session's private stream (bnp_host.rs): the replay of what the client
  missed, its end mark, then live batches, all behind one send-time floor, and
  what that stream is of the reports the distributor published.
 */
module PrivateStream {
  import opened Words
  import opened Market
  import opened TimedQueue
  import opened Outbound
  import D = Distributor

  datatype ServerMessage =
    | Report(sequence: nat, body: nat)
    | ReplayComplete(through: nat)
    | Public(body: nat)

  /** One batch as a session maps it: its private reports in event order. */
  datatype SessionBatch = SessionBatch(durableUs: nat, delay: nat, reports: seq<ServerMessage>, last: Option<nat>)

  const PRIVATE: Lane := Lane.Ordered(0)

  function Wrap(m: ServerMessage): Message<ServerMessage> {
    Message(PRIVATE, m)
  }

  function WrapAll(ms: seq<ServerMessage>): seq<Message<ServerMessage>> {
    seq(|ms|, i requires 0 <= i < |ms| => Wrap(ms[i]))
  }

  function Stamped(ms: seq<ServerMessage>, cursor: nat): seq<ServerMessage> {
    Keep(ms, (m: ServerMessage) => m.Report? && m.sequence > cursor)
  }

  /** What a replay of `batches` after `cursor` holds, then the end mark. */
  function Replayed(batches: seq<SessionBatch>, cursor: nat): seq<ServerMessage> {
    if batches == [] then [] else Stamped(batches[0].reports, cursor) + Replayed(batches[1..], cursor)
  }

  function Through(batches: seq<SessionBatch>, cursor: nat): nat {
    if batches == [] then cursor
    else match batches[|batches| - 1].last
      case Some(last) => last
      case None => Through(batches[..|batches| - 1], cursor)
  }

  /** What a session resumed from: the batches it was answered and the client's cursor. */
  datatype Resumed = Resumed(batches: seq<SessionBatch>, cursor: nat)

  /** What goes out before anything live. */
  function Lead(r: Option<Resumed>): seq<ServerMessage> {
    if r.None? then []
    else Replayed(r.value.batches, r.value.cursor) + [ReplayComplete(Through(r.value.batches, r.value.cursor))]
  }

  function Live(batches: seq<SessionBatch>): seq<ServerMessage> {
    if batches == [] then [] else Live(batches[..|batches| - 1]) + batches[|batches| - 1].reports
  }

  // ----- When the messages leave -------------------------------------------

  /** When a batch's reports have travelled to the team. */
  function Arrival(b: SessionBatch): nat {
    SatAdd(b.durableUs, b.delay)
  }

  function Repeated(n: nat, at: nat): seq<nat> {
    seq(n, _ => at)
  }

  /** The floor after replayed batches: each raises it. */
  function ReplayFloor(batches: seq<SessionBatch>): nat {
    if batches == [] then 0 else Max(ReplayFloor(batches[..|batches| - 1]), Arrival(batches[|batches| - 1]))
  }

  function ReplayTimes(batches: seq<SessionBatch>, cursor: nat): seq<nat> {
    if batches == [] then []
    else
      var n := |batches| - 1;
      ReplayTimes(batches[..n], cursor) + Repeated(|Stamped(batches[n].reports, cursor)|, ReplayFloor(batches))
  }

  function LeadFloor(r: Option<Resumed>): nat {
    if r.None? then 0 else ReplayFloor(r.value.batches)
  }

  function LeadTimes(r: Option<Resumed>): seq<nat> {
    if r.None? then [] else ReplayTimes(r.value.batches, r.value.cursor) + [LeadFloor(r)]
  }

  /** The floor after live batches: those with reports raise it. */
  function LiveFloor(floor: nat, batches: seq<SessionBatch>): nat {
    if batches == [] then floor
    else
      var front, last := batches[..|batches| - 1], batches[|batches| - 1];
      if last.reports == [] then LiveFloor(floor, front) else Max(LiveFloor(floor, front), Arrival(last))
  }

  function LiveTimes(floor: nat, batches: seq<SessionBatch>): seq<nat> {
    if batches == [] then []
    else
      var n := |batches| - 1;
      LiveTimes(floor, batches[..n]) + Repeated(|batches[n].reports|, LiveFloor(floor, batches))
  }

  /** The send time of each message of the private stream. */
  function SendTimes(r: Option<Resumed>, drained: seq<SessionBatch>): seq<nat> {
    LeadTimes(r) + LiveTimes(LeadFloor(r), drained)
  }

  /** How many private messages a session has written. */
  ghost function Taken(h: Session<ServerMessage>): nat {
    |Keep(h.written, InLane(0))|
  }

  /** What holds of a session's private messages: the hold's order, what they are, when they leave. */
  datatype Part = Order | Contents | Departure

  ghost predicate Keeps(p: Part, h: Session<ServerMessage>, stream: seq<ServerMessage>, times: seq<nat>, floor: nat) {
    match p
    case Order => !h.closed && Inv(h) && FloorOf(h, PRIVATE) <= floor
    case Contents => Keep(h.held, InLane(0)) == WrapAll(stream)
    case Departure =>
      |times| == |stream| && Taken(h) <= |times| && Times(h.queue, InLane(0)) == times[Taken(h)..]
  }

  /** A session's private messages and their send times; the unwritten ones are queued at theirs. */
  ghost predicate Streams(h: Session<ServerMessage>, stream: seq<ServerMessage>, times: seq<nat>, floor: nat) {
    forall p: Part :: Keeps(p, h, stream, times, floor)
  }

  lemma StreamParts(h: Session<ServerMessage>, stream: seq<ServerMessage>, times: seq<nat>, floor: nat)
    requires Streams(h, stream, times, floor)
    ensures !h.closed && Inv(h) && FloorOf(h, PRIVATE) <= floor
    ensures Keep(h.held, InLane(0)) == WrapAll(stream)
    ensures |times| == |stream| && Taken(h) <= |times| && Times(h.queue, InLane(0)) == times[Taken(h)..]
  {
    assert Keeps(Order, h, stream, times, floor);
    assert Keeps(Contents, h, stream, times, floor);
    assert Keeps(Departure, h, stream, times, floor);
  }

  lemma HeldNext(held: seq<Message<ServerMessage>>, m: ServerMessage, stream: seq<ServerMessage>)
    requires Keep(held, InLane(0)) == WrapAll(stream)
    ensures Keep(held + [Wrap(m)], InLane(0)) == WrapAll(stream + [m])
  {
    KeepConcat(held, [Wrap(m)], InLane(0));
    assert [Wrap(m)][1..] == [];
    assert WrapAll(stream + [m]) == WrapAll(stream) + [Wrap(m)];
  }

  /** Holding at the floor keeps the hold's order and its floor. */
  lemma HoldAtFloor(h: Session<ServerMessage>, m: ServerMessage, floor: nat)
    requires !h.closed && Inv(h) && FloorOf(h, PRIVATE) <= floor && |h.queue| < h.capacity
    ensures var t := HoldMessage(h, Wrap(m), floor);
      && Inv(t) && !t.closed && FloorOf(t, PRIVATE) == floor && t.written == h.written && t.held == h.held + [Wrap(m)]
      && t.queue == Insert(h.queue, Item(Key(floor, h.next, 0), Wrap(m))) && |t.queue| == |h.queue| + 1
  {
    QueueGrows(h.queue, h.next, floor, Wrap(m));
    HoldKeeps(h, Wrap(m), floor);
  }

  lemma HoldStreams(
      h: Session<ServerMessage>, m: ServerMessage, stream: seq<ServerMessage>, times: seq<nat>, floor: nat)
    requires Streams(h, stream, times, floor) && |h.queue| < h.capacity
    ensures var t := HoldMessage(h, Wrap(m), floor);
      && Streams(t, stream + [m], times + [floor], floor)
      && t.queue == Insert(h.queue, Item(Key(floor, h.next, 0), Wrap(m))) && |t.queue| == |h.queue| + 1
      && t.next == h.next + 1 && t.capacity == h.capacity && t.written == h.written
  {
    StreamParts(h, stream, times, floor);
    HeldAtFloor(h, m, floor);
    HoldAtFloor(h, m, floor);
    HeldNext(h.held, m, stream);
    assert (times + [floor])[Taken(h)..] == times[Taken(h)..] + [floor];
  }

  lemma StartStreams(capacity: nat)
    ensures var h := NewSession<ServerMessage>(capacity); Streams(h, [], [], 0)
  {
  }

  lemma RaiseStreams(
      h: Session<ServerMessage>, stream: seq<ServerMessage>, times: seq<nat>, floor: nat, raised: nat)
    requires Streams(h, stream, times, floor) && floor <= raised
    ensures Streams(h, stream, times, raised)
  {
    StreamParts(h, stream, times, floor);
  }

  lemma OtherStreams(
      h: Session<ServerMessage>, m: Message<ServerMessage>, proposed: nat, stream: seq<ServerMessage>, times: seq<nat>,
      floor: nat)
    requires Streams(h, stream, times, floor) && |h.queue| < h.capacity && m.lane != PRIVATE
    ensures var t := HoldMessage(h, m, proposed);
      && Streams(t, stream, times, floor) && t.written == h.written
      && t.queue == Insert(h.queue, Item(Key(Max(FloorOf(h, m.lane), proposed), h.next, 0), m))
      && t.next == h.next + 1 && t.capacity == h.capacity
  {
    StreamParts(h, stream, times, floor);
    HoldKeeps(h, m, proposed);
    OtherHeld(h.held, m);
    TimesInsertOther(h.queue, Item(Key(Max(FloorOf(h, m.lane), proposed), h.next, 0), m), InLane(0));
  }

  lemma OtherHeld(held: seq<Message<ServerMessage>>, m: Message<ServerMessage>)
    requires m.lane != PRIVATE
    ensures Keep(held + [m], InLane(0)) == Keep(held, InLane(0))
  {
    KeepConcat(held, [m], InLane(0));
    assert [m][1..] == [];
    assert Keep([m], InLane(0)) == [];
  }

  /** Of the messages from `before` on, exactly those up to `after` have reached their send time. */
  ghost predicate TakesDue(times: seq<nat>, before: nat, after: nat, now: nat) {
    && before <= after <= |times|
    && (forall i | before <= i < after :: times[i] <= now)
    && (forall i | after <= i < |times| :: now < times[i])
  }

  lemma WriteTimes(h: Session<ServerMessage>, now: nat, times: seq<nat>)
    requires !h.closed && Sorted(h.queue) && Taken(h) <= |times| && Times(h.queue, InLane(0)) == times[Taken(h)..]
    ensures var t := WriteDue(h, now);
      TakesDue(times, Taken(h), Taken(t), now) && Times(t.queue, InLane(0)) == times[Taken(t)..]
  {
    var n := DueCount(h.queue, now);
    DueTimes(h.queue, n, now, InLane(0));
    KeepConcat(h.written, Values(h.queue[..n]), InLane(0));
    RestOfTimes(times, Taken(h), Times(h.queue[..n], InLane(0)), Times(h.queue[n..], InLane(0)));
  }

  lemma WriteStreams(h: Session<ServerMessage>, now: nat, stream: seq<ServerMessage>, times: seq<nat>, floor: nat)
    requires Streams(h, stream, times, floor)
    ensures var t := WriteDue(h, now);
      && Streams(t, stream, times, floor) && Keep(t.written, InLane(0)) <= WrapAll(stream)
      && TakesDue(times, Taken(h), Taken(t), now) && t.next == h.next && t.capacity == h.capacity
      && var n := DueCount(h.queue, now);
      t.queue == h.queue[n..] && t.written == h.written + Values(h.queue[..n])
  {
    StreamParts(h, stream, times, floor);
    WriteKeeps(h, now);
    WriteTimes(h, now, times);
    assert InOrder(WriteDue(h, now), 0);
  }

  lemma RestOfTimes(times: seq<nat>, w: nat, taken: seq<nat>, rest: seq<nat>)
    requires w <= |times| && times[w..] == taken + rest
    ensures w + |taken| <= |times| && times[w + |taken|..] == rest
    ensures forall i | w <= i < w + |taken| :: times[i] == taken[i - w]
    ensures forall i | w + |taken| <= i < |times| :: times[i] == rest[i - w - |taken|]
  {
    assert forall i | w <= i < |times| :: times[i] == times[w..][i - w];
  }

  class BnpSession {
    const outbound: OutboundHold<Message<ServerMessage>>
    var privateFloor: nat
    /** Every message held and written, and the queue between them. */
    ghost var history: Session<ServerMessage>
    /** The private messages held so far. */
    ghost var stream: seq<ServerMessage>
    /** When each of them leaves. */
    ghost var times: seq<nat>
    /** What the session replayed, if it resumed, and the live batches it has drained. */
    ghost var resumed: Option<Resumed>
    ghost var drained: seq<SessionBatch>

    /** The private stream is the replay, its end mark, then the live batches, each message at its send time. */
    ghost predicate Valid()
      reads this, outbound
    {
      && Holding() && stream == Lead(resumed) + Live(drained)
      && times == SendTimes(resumed, drained) && privateFloor == LiveFloor(LeadFloor(resumed), drained)
    }

    ghost predicate Holding()
      reads this, outbound
    {
      && outbound.Valid()
      && history.queue == outbound.queue && history.next == outbound.next && history.capacity == outbound.capacity
      && Streams(history, stream, times, privateFloor)
    }

    constructor (capacity: nat)
      ensures Valid() && fresh(outbound) && resumed.None? && drained == [] && history.written == []
    {
      outbound := new OutboundHold(capacity);
      privateFloor := 0;
      history := NewSession(capacity);
      stream, times, resumed, drained := [], [], None, [];
      new;
      StartStreams(capacity);
    }

    /** Holds one private message at the floor. */
    method HoldPrivate(m: ServerMessage) returns (ok: bool)
      requires Holding()
      modifies this`stream, this`times, this`history, outbound
      ensures ok <==> |old(outbound.queue)| < outbound.capacity
      ensures ok ==> |outbound.queue| == |old(outbound.queue)| + 1
      ensures ok ==> Holding() && stream == old(stream) + [m] && times == old(times) + [privateFloor]
      ensures ok ==> history.written == old(history.written)
    {
      if |outbound.queue| < outbound.capacity {
        HoldStreams(history, m, stream, times, privateFloor);
      }
      ok := outbound.Hold(Wrap(m), privateFloor);
      history := HoldMessage(history, Wrap(m), privateFloor);
      stream, times := stream + [m], times + [privateFloor];
    }

    method HoldAll(ms: seq<ServerMessage>) returns (ok: bool)
      requires Holding()
      modifies this`stream, this`times, this`history, outbound
      ensures ok <==> ms == [] || |old(outbound.queue)| + |ms| <= outbound.capacity
      ensures ok ==> |outbound.queue| == |old(outbound.queue)| + |ms|
      ensures ok ==> Holding() && stream == old(stream) + ms && times == old(times) + Repeated(|ms|, privateFloor)
      ensures ok ==> history.written == old(history.written)
    {
      for i := 0 to |ms|
        invariant |outbound.queue| == |old(outbound.queue)| + i && (i == 0 || |outbound.queue| <= outbound.capacity)
        invariant Holding() && stream == old(stream) + ms[..i] && times == old(times) + Repeated(i, privateFloor)
        invariant history.written == old(history.written)
      {
        ok := HoldPrivate(ms[i]);
        if !ok {
          return false;
        }
        assert ms[..i + 1] == ms[..i] + [ms[i]];
      }
      assert ms[..|ms|] == ms;
      ok := true;
    }

    /** A batch's send time: over its path, never ahead of an earlier one. */
    method RaiseFloor(batch: SessionBatch)
      requires Holding()
      modifies this`privateFloor
      ensures Holding() && privateFloor == Max(old(privateFloor), SatAdd(batch.durableUs, batch.delay))
    {
      var raised := Max(SatAdd(batch.durableUs, batch.delay), privateFloor);
      RaiseStreams(history, stream, times, privateFloor, raised);
      privateFloor := raised;
    }

    /** Messages of one batch, held when it has travelled to the team. */
    method HoldBatch(batch: SessionBatch, ms: seq<ServerMessage>) returns (ok: bool)
      requires Holding()
      modifies this`stream, this`times, this`history, this`privateFloor, outbound
      ensures ok <==> ms == [] || |old(outbound.queue)| + |ms| <= outbound.capacity
      ensures ok ==> Holding() && stream == old(stream) + ms && |outbound.queue| == |old(outbound.queue)| + |ms|
      ensures ok ==> privateFloor == Max(old(privateFloor), Arrival(batch))
      ensures ok ==> times == old(times) + Repeated(|ms|, privateFloor) && history.written == old(history.written)
    {
      RaiseFloor(batch);
      ok := HoldAll(ms);
    }

    /** Every replayed batch's reports after the cursor; `through` is the last sequence replayed. */
    method ReplayBatches(batches: seq<SessionBatch>, cursor: nat) returns (ok: bool, through: nat)
      requires Holding() && stream == [] && times == [] && privateFloor == 0
      modifies this`stream, this`times, this`history, this`privateFloor, outbound
      ensures ok <==> Replayed(batches, cursor) == []
                      || |old(outbound.queue)| + |Replayed(batches, cursor)| <= outbound.capacity
      ensures ok ==> Holding() && stream == Replayed(batches, cursor) && through == Through(batches, cursor)
      ensures ok ==> |outbound.queue| == |old(outbound.queue)| + |stream|
      ensures ok ==> times == ReplayTimes(batches, cursor) && privateFloor == ReplayFloor(batches)
      ensures ok ==> history.written == old(history.written)
    {
      through := cursor;
      for i := 0 to |batches|
        invariant Holding() && stream == Replayed(batches[..i], cursor)
        invariant times == ReplayTimes(batches[..i], cursor) && privateFloor == ReplayFloor(batches[..i])
        invariant |outbound.queue| == |old(outbound.queue)| + |stream|
        invariant stream == [] || |outbound.queue| <= outbound.capacity
        invariant through == Through(batches[..i], cursor)
        invariant history.written == old(history.written)
      {
        ReplayedNext(batches, i, cursor);
        ReplayTimesNext(batches, i, cursor);
        ok := HoldBatch(batches[i], Stamped(batches[i].reports, cursor));
        if !ok {
          ReplayedGrows(batches, i + 1, cursor);
          return false, through;
        }
        through := if batches[i].last.Some? then batches[i].last.value else through;
      }
      assert batches[..|batches|] == batches;
      ok := true;
    }

    /** Replays what the client missed after its cursor and marks the end, before anything live. */
    method Replay(batches: seq<SessionBatch>, cursor: nat) returns (ok: bool)
      requires Valid() && resumed.None? && drained == []
      modifies this, outbound
      ensures ok <==> |old(outbound.queue)| + |Replayed(batches, cursor)| < outbound.capacity
      ensures ok ==> Valid() && resumed == Some(Resumed(batches, cursor)) && drained == []
      ensures ok ==> history.written == old(history.written)
    {
      var done, through := ReplayBatches(batches, cursor);
      if !done {
        return false;
      }
      ok := HoldPrivate(ReplayComplete(through));
      resumed := Some(Resumed(batches, cursor));
      if ok {
        NothingLive(stream, times, privateFloor);
      }
    }

    /** One live batch. */
    method OnBatch(batch: SessionBatch) returns (ok: bool)
      requires Valid()
      modifies this, outbound
      ensures ok <==> batch.reports == [] || |old(outbound.queue)| + |batch.reports| <= outbound.capacity
      ensures ok ==> Valid() && resumed == old(resumed) && drained == old(drained) + [batch]
      ensures ok ==> history.written == old(history.written)
    {
      StreamNext(Lead(resumed), drained, batch);
      TimesNext(LeadTimes(resumed), LeadFloor(resumed), drained, batch);
      if batch.reports == [] {
        ok := true;
      } else {
        ok := HoldBatch(batch, batch.reports);
      }
      drained := drained + [batch];
    }

    /** A reply or feed message, on any other lane. */
    method HoldOther(m: Message<ServerMessage>, proposed: nat, sendAt: nat) returns (ok: bool)
      requires Valid() && m.lane != PRIVATE
      requires sendAt == Max(FloorOf(history, m.lane), proposed)
      modifies this, outbound
      ensures ok <==> |old(outbound.queue)| < outbound.capacity
      ensures ok ==> Valid() && resumed == old(resumed) && drained == old(drained)
      ensures ok ==> history.written == old(history.written)
    {
      if |outbound.queue| < outbound.capacity {
        OtherStreams(history, m, proposed, stream, times, privateFloor);
      }
      ok := outbound.Hold(m, sendAt);
      history := HoldMessage(history, m, proposed);
    }

    /**
      Writes what is due. After any sequence of these operations the private
      messages written so far are a prefix of the replay, its end mark and the
      live batches, in that order; this turn wrote those of the rest whose send
      time has come, and no other.
     */
    method Write(now: nat) returns (due: seq<Message<ServerMessage>>)
      requires Valid()
      modifies this, outbound
      ensures Valid() && resumed == old(resumed) && drained == old(drained)
      ensures history.written == old(history.written) + due
      ensures Keep(history.written, InLane(0)) <= WrapAll(Lead(resumed) + Live(drained))
      ensures TakesDue(SendTimes(resumed, drained), old(Taken(history)), Taken(history), now)
    {
      WriteStreams(history, now, stream, times, privateFloor);
      due := outbound.TakeDue(now);
      DueUnique(history.queue, now, |due|);
      history := WriteDue(history, now);
    }
  }

  /** Splitting a queue at what is due splits its times. */
  lemma DueTimes<T>(q: seq<Item<T>>, n: nat, now: nat, f: T -> bool)
    requires n <= |q| && Sorted(q) && (forall i | 0 <= i < n :: q[i].key.at <= now) && (n < |q| ==> now < q[n].key.at)
    ensures Times(q, f) == Times(q[..n], f) + Times(q[n..], f)
    ensures |Times(q[..n], f)| == |Keep(Values(q[..n]), f)|
    ensures forall i | 0 <= i < |Times(q[..n], f)| :: Times(q[..n], f)[i] <= now
    ensures forall i | 0 <= i < |Times(q[n..], f)| :: now < Times(q[n..], f)[i]
  {
    var front, back := q[..n], q[n..];
    assert q == front + back;
    TimesConcat(front, back, f);
    TimesOfSelected(front, f);
    SelectIsKeep(front, f);
    TimesUpTo(front, f, now);
    AllAfter(q, n, now);
    TimesAfter(back, f, now);
  }

  lemma AllAfter<T>(q: seq<Item<T>>, n: nat, now: nat)
    requires n <= |q| && Sorted(q) && (n < |q| ==> now < q[n].key.at)
    ensures forall j | 0 <= j < |q[n..]| :: now < q[n..][j].key.at
  {
    forall j | 0 <= j < |q| - n ensures now < q[n..][j].key.at {
      assert q[n..][j] == q[n + j] && (j == 0 || Less(q[n].key, q[n + j].key));
    }
  }

  lemma StreamNext(lead: seq<ServerMessage>, batches: seq<SessionBatch>, batch: SessionBatch)
    ensures lead + Live(batches + [batch]) == (lead + Live(batches)) + batch.reports
  {
    assert (batches + [batch])[..|batches|] == batches;
  }

  lemma NothingLive(stream: seq<ServerMessage>, times: seq<nat>, floor: nat)
    ensures stream + Live([]) == stream && times + LiveTimes(floor, []) == times && LiveFloor(floor, []) == floor
  {
  }

  lemma ReplayTimesNext(batches: seq<SessionBatch>, i: nat, cursor: nat)
    requires i < |batches|
    ensures ReplayFloor(batches[..i + 1]) == Max(ReplayFloor(batches[..i]), Arrival(batches[i]))
    ensures ReplayTimes(batches[..i + 1], cursor)
         == ReplayTimes(batches[..i], cursor)
            + Repeated(|Stamped(batches[i].reports, cursor)|, ReplayFloor(batches[..i + 1]))
  {
    assert batches[..i + 1][..i] == batches[..i];
  }

  lemma TimesNext(lead: seq<nat>, floor: nat, batches: seq<SessionBatch>, batch: SessionBatch)
    ensures var next := LiveFloor(floor, batches + [batch]);
      && next == (if batch.reports == [] then LiveFloor(floor, batches)
                  else Max(LiveFloor(floor, batches), Arrival(batch)))
      && lead + LiveTimes(floor, batches + [batch])
         == (lead + LiveTimes(floor, batches)) + Repeated(|batch.reports|, next)
  {
    assert (batches + [batch])[..|batches|] == batches;
  }

  /** A private message held at the floor is queued last of its lane, at the floor. */
  lemma HeldAtFloor(s: Session<ServerMessage>, m: ServerMessage, floor: nat)
    requires Inv(s) && FloorOf(s, PRIVATE) <= floor
    ensures Times(Insert(s.queue, Item(Key(floor, s.next, 0), Wrap(m))), InLane(0))
         == Times(s.queue, InLane(0)) + [floor]
  {
    var it := Item(Key(floor, s.next, 0), Wrap(m));
    forall x | x in s.queue && InLane(0)(x.value) ensures Less(x.key, it.key) {
      assert x.key.at <= MaxFloor(s, x);
    }
    TimesInsertLast(s.queue, it, InLane(0));
  }

  lemma QueueGrows(q: seq<Item<Message<ServerMessage>>>, next: nat, at: nat, m: Message<ServerMessage>)
    requires forall x :: x in q ==> x.key.ord < next
    ensures |Insert(q, Item(Key(at, next, 0), m))| == |q| + 1
  {
    InsertMultiset(q, Item(Key(at, next, 0), m));
  }

  lemma ReplayedNext(batches: seq<SessionBatch>, i: nat, cursor: nat)
    requires i < |batches|
    ensures Replayed(batches[..i + 1], cursor) == Replayed(batches[..i], cursor) + Stamped(batches[i].reports, cursor)
    ensures Through(batches[..i + 1], cursor)
         == if batches[i].last.Some? then batches[i].last.value else Through(batches[..i], cursor)
  {
    assert batches[..i + 1] == batches[..i] + [batches[i]];
    assert (batches[..i + 1])[..i] == batches[..i];
    ReplayedSnoc(batches[..i], batches[i], cursor);
  }

  lemma {:induction false} ReplayedGrows(batches: seq<SessionBatch>, n: nat, cursor: nat)
    requires n <= |batches|
    ensures |Replayed(batches[..n], cursor)| <= |Replayed(batches, cursor)|
    decreases |batches|
  {
    if n < |batches| {
      var front := batches[..|batches| - 1];
      ReplayedGrows(front, n, cursor);
      assert front[..n] == batches[..n] && batches == front + [batches[|batches| - 1]];
      ReplayedSnoc(front, batches[|batches| - 1], cursor);
    } else {
      assert batches[..n] == batches;
    }
  }

  lemma {:induction false} ReplayedSnoc(batches: seq<SessionBatch>, last: SessionBatch, cursor: nat)
    ensures Replayed(batches + [last], cursor) == Replayed(batches, cursor) + Stamped(last.reports, cursor)
  {
    if batches == [] {
      assert batches + [last] == [last];
    } else {
      assert (batches + [last])[1..] == batches[1..] + [last];
      ReplayedSnoc(batches[1..], last, cursor);
    }
  }

  lemma {:induction false} DueUnique<M>(q: seq<Item<M>>, now: nat, n: nat)
    requires n <= |q|
    requires forall i | 0 <= i < n :: q[i].key.at <= now
    requires n < |q| ==> now < q[n].key.at
    ensures DueCount(q, now) == n
  {
    if n > 0 {
      DueUnique(q[1..], now, n - 1);
    }
  }

  // ----- One session's stream, from the distributor ------------------------

  /** A participant's reports in a batch: stamped in the batch's range, in order. */
  ghost predicate Maps(reports: Committed -> seq<ServerMessage>, batches: seq<Committed>) {
    forall i | 0 <= i < |batches| :: MapsAt(reports, batches, i)
  }

  ghost predicate MapsAt(reports: Committed -> seq<ServerMessage>, batches: seq<Committed>, i: nat)
    requires i < |batches|
  {
    MapsBatch(reports(batches[i]), batches[i].events)
  }

  ghost predicate MapsBatch(ms: seq<ServerMessage>, events: seq<Event>) {
    && events != [] && InSequence(ms)
    && forall j | 0 <= j < |ms| :: events[0].sequence <= ms[j].sequence <= events[|events| - 1].sequence
  }

  ghost predicate InSequence(ms: seq<ServerMessage>) {
    && (forall j | 0 <= j < |ms| :: ms[j].Report?)
    && (forall j, k | 0 <= j < k < |ms| :: ms[j].sequence <= ms[k].sequence)
  }

  function Reports(reports: Committed -> seq<ServerMessage>, batches: seq<Committed>): seq<ServerMessage> {
    if batches == [] then [] else reports(batches[0]) + Reports(reports, batches[1..])
  }

  lemma {:induction false} ReportsConcat(reports: Committed -> seq<ServerMessage>, a: seq<Committed>, b: seq<Committed>)
    ensures Reports(reports, a + b) == Reports(reports, a) + Reports(reports, b)
  {
    if a == [] {
      assert a + b == b;
    } else {
      assert (a + b)[1..] == a[1..] + b;
      ReportsConcat(reports, a[1..], b);
      assert Reports(reports, a + b) == reports(a[0]) + (Reports(reports, a[1..]) + Reports(reports, b));
    }
  }

  lemma {:induction false} StampedNone(ms: seq<ServerMessage>, cursor: nat)
    requires forall j | 0 <= j < |ms| :: ms[j].Report? && ms[j].sequence <= cursor
    ensures Stamped(ms, cursor) == []
  {
    if ms != [] {
      StampedNone(ms[1..], cursor);
    }
  }

  lemma {:induction false} StampedAll(ms: seq<ServerMessage>, cursor: nat)
    requires forall j | 0 <= j < |ms| :: ms[j].Report? && ms[j].sequence > cursor
    ensures Stamped(ms, cursor) == ms
  {
    if ms != [] {
      StampedAll(ms[1..], cursor);
    }
  }

  /** Replaying only the batches that end after the cursor loses no report after it. */
  lemma {:induction false} SkippingKeepsReports(reports: Committed -> seq<ServerMessage>, batches: seq<Committed>,
      cursor: nat)
    requires Maps(reports, batches)
    ensures Stamped(Reports(reports, D.EndingAfter(batches, cursor)), cursor)
        == Stamped(Reports(reports, batches), cursor)
  {
    if batches != [] {
      var first, rest := batches[0], batches[1..];
      var after := (m: ServerMessage) => m.Report? && m.sequence > cursor;
      assert MapsAt(reports, batches, 0);
      MapsSlice(reports, batches, 1, |batches|);
      assert batches[1..|batches|] == rest;
      SkippingKeepsReports(reports, rest, cursor);
      KeepConcat(reports(first), Reports(reports, rest), after);
      if D.EndsAfter(first, cursor) {
        ReportsConcat(reports, [first], D.EndingAfter(rest, cursor));
        assert Reports(reports, [first]) == reports(first);
        KeepConcat(reports(first), Reports(reports, D.EndingAfter(rest, cursor)), after);
      } else {
        StampedNone(reports(first), cursor);
        assert D.EndingAfter(batches, cursor) == D.EndingAfter(rest, cursor);
      }
    }
  }

  lemma {:induction false} LiveIsAfter(reports: Committed -> seq<ServerMessage>, batches: seq<Committed>, base: nat,
      cursor: nat)
    requires Maps(reports, batches) && D.Chained(D.Events(batches), base) && cursor <= base
    ensures Stamped(Reports(reports, batches), cursor) == Reports(reports, batches)
  {
    if batches != [] {
      var first, rest := batches[0], batches[1..];
      assert MapsAt(reports, batches, 0);
      MapsSlice(reports, batches, 1, |batches|);
      assert batches[1..|batches|] == rest;
      D.ChainedSplit(first.events, D.Events(rest), base);
      LiveIsAfter(reports, rest, base + |first.events|, cursor);
      StampedAll(reports(first), cursor);
      KeepConcat(reports(first), Reports(reports, rest), (m: ServerMessage) => m.Report? && m.sequence > cursor);
    }
  }

  /**
    A resumed session's private stream. For every run of the distributor, a
    session that resumed at a published cursor without a gap produces, by
    replay and then live batches, exactly the participant's reports after the
    cursor, in committed order, up to the last batch it has drained.
   */
  lemma SessionStreamIsReportsAfterCursor(
      reports: Committed -> seq<ServerMessage>, base: nat, capacity: nat, limit: nat, steps: seq<D.Step>, id: nat)
    requires D.End(D.Run(D.NewDist(base, capacity, limit), steps)) < U64_MAX
    requires id in D.Run(D.NewDist(base, capacity, limit), steps).resumed
    requires var d := D.Run(D.NewDist(base, capacity, limit), steps);
      && Maps(reports, d.fan.sent)
      && d.resumed[id].answer.Some? && id in d.fan.since && d.fan.since[id] <= |d.fan.sent|
      && d.resumed[id].cursor <= base + |D.Events(d.fan.sent[..d.fan.since[id]])|
    ensures var d := D.Run(D.NewDist(base, capacity, limit), steps);
      && id in d.fan.taken && d.fan.since[id] + |d.fan.taken[id]| <= |d.fan.sent|
      && Stamped(Reports(reports, d.resumed[id].answer.value), d.resumed[id].cursor) + Reports(reports, d.fan.taken[id])
         == Stamped(Reports(reports, d.fan.sent[..d.fan.since[id] + |d.fan.taken[id]|]), d.resumed[id].cursor)
  {
    var d := D.Run(D.NewDist(base, capacity, limit), steps);
    D.ResumedFacts(base, capacity, limit, steps, id);
    StreamOfTaken(
      reports, d.fan.sent, d.fan.since[id], d.fan.taken[id], base, d.resumed[id].cursor, d.resumed[id].answer.value);
  }

  lemma StreamOfTaken(
      reports: Committed -> seq<ServerMessage>, sent: seq<Committed>, since: nat, taken: seq<Committed>, base: nat,
      cursor: nat, answer: seq<Committed>)
    requires Maps(reports, sent) && D.Chained(D.Events(sent), base)
    requires since + |taken| <= |sent| && taken == sent[since..since + |taken|]
    requires answer == D.EndingAfter(sent[..since], cursor) && cursor <= base + |D.Events(sent[..since])|
    ensures Stamped(Reports(reports, answer), cursor) + Reports(reports, taken)
         == Stamped(Reports(reports, sent[..since + |taken|]), cursor)
  {
    StreamOf(reports, sent, since, since + |taken|, base, cursor);
  }

  lemma MapsSlice(reports: Committed -> seq<ServerMessage>, batches: seq<Committed>, a: nat, b: nat)
    requires a <= b <= |batches| && Maps(reports, batches)
    ensures Maps(reports, batches[a..b])
  {
    forall i | 0 <= i < b - a ensures MapsAt(reports, batches[a..b], i) {
      var j := a + i;
      assert MapsAt(reports, batches, j);
    }
  }

  /** Replaying what was sent before a batch and reading on from it gives every report after the cursor. */
  lemma StreamOf(
      reports: Committed -> seq<ServerMessage>, sent: seq<Committed>, since: nat, upTo: nat, base: nat, cursor: nat)
    requires Maps(reports, sent) && D.Chained(D.Events(sent), base) && since <= upTo <= |sent|
    requires cursor <= base + |D.Events(sent[..since])|
    ensures Stamped(Reports(reports, D.EndingAfter(sent[..since], cursor)), cursor)
        + Reports(reports, sent[since..upTo])
         == Stamped(Reports(reports, sent[..upTo]), cursor)
  {
    var before, live := sent[..since], sent[since..upTo];
    MapsSlice(reports, sent, 0, since);
    MapsSlice(reports, sent, since, upTo);
    assert sent[0..since] == before;
    ChainedSlice(sent, since, upTo, base);
    SkippingKeepsReports(reports, before, cursor);
    LiveIsAfter(reports, live, base + |D.Events(before)|, cursor);
    assert sent[..upTo] == before + live;
    StampedParts(reports, before, live, cursor, sent[..upTo]);
  }

  lemma StampedParts(
      reports: Committed -> seq<ServerMessage>, a: seq<Committed>, b: seq<Committed>, cursor: nat, all: seq<Committed>)
    requires all == a + b
    ensures Stamped(Reports(reports, all), cursor)
         == Stamped(Reports(reports, a), cursor) + Stamped(Reports(reports, b), cursor)
  {
    ReportsConcat(reports, a, b);
    KeepConcat(Reports(reports, a), Reports(reports, b), (m: ServerMessage) => m.Report? && m.sequence > cursor);
  }

  lemma ChainedSlice(sent: seq<Committed>, a: nat, b: nat, base: nat)
    requires a <= b <= |sent| && D.Chained(D.Events(sent), base)
    ensures D.Chained(D.Events(sent[a..b]), base + |D.Events(sent[..a])|)
    ensures |D.Events(sent[..b])| == |D.Events(sent[..a])| + |D.Events(sent[a..b])|
  {
    assert sent == sent[..b] + sent[b..] && sent[..b] == sent[..a] + sent[a..b];
    D.EventsConcat(sent[..a], sent[a..b]);
    D.EventsConcat(sent[..b], sent[b..]);
    D.ChainedSplit(D.Events(sent[..b]), D.Events(sent[b..]), base);
    D.ChainedSplit(D.Events(sent[..a]), D.Events(sent[a..b]), base);
  }
}
