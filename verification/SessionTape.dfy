/**
  A consolidated feed of a session: among any subscriptions, and however many
  records each drain brings, the messages a session sends for one consolidated
  feed are the records its own client receives.
 */
module SessionTape {
  import opened Words
  import opened Market
  import opened BnpFeeds
  import opened BnpFeedsRun
  import SessionClient
  import opened Feed
  import Tape
  import TimedQueue
  import Quoting = TapeFeed

  // ----- One consolidated feed among the session's subscriptions -----------

  /** What an operation does to one consolidated feed that stays subscribed. */
  function Alone(f: TapeSubscription, op: Operation): (TapeSubscription, seq<FeedMessage>) {
    match op
    case DrainTape(drained) => DrainedAlone(f, Waiting(drained))
    case ActivateAfter(id, _, last) =>
      if id == f.requestId
      then (f.(pending := None, after := last), TapeMessages(f, RecordsAfter(Waiting(f.pending), last))) else (f, [])
    case SendTime(id, proposed) =>
      (if id == f.requestId then f.(lastSendUs := Max(f.lastSendUs, proposed)) else f, [])
    case _ => (f, [])
  }

  lemma Located(s: Subscriptions, i: nat)
    requires Valid(s) && i < |s.tapes|
    ensures TapeAt(s.tapes, s.tapes[i].requestId) == i
    ensures FeedAt(s.feeds, s.tapes[i].requestId) == |s.feeds|
    ensures s.tapes[i].requestId !in FeedIds(s.feeds)
  {
    var id := s.tapes[i].requestId;
    assert HasTape(s.tapes, id);
    forall k | 0 <= k < |s.feeds| ensures s.feeds[k].requestId != id {
      if s.feeds[k].requestId == id {
        assert HasFeed(s.feeds, id);
      }
    }
  }

  lemma ActivatedAlone(s: Subscriptions, i: nat, id: nat, publishedBefore: nat, last: nat)
    requires Valid(s) && i < |s.tapes|
    ensures var (t, ms) := Activated(s, id, publishedBefore, last);
      var (g, own) := Alone(s.tapes[i], ActivateAfter(id, publishedBefore, last));
      |t.tapes| == |s.tapes| && t.tapes[i] == g && Mine(ms, s.tapes[i].requestId) == own
  {
    var (t, ms) := Activated(s, id, publishedBefore, last);
    Located(s, i);
    var f := FeedAt(s.feeds, id);
    assert Owned(ms, id) by {
      if TapeAt(s.tapes, id) == |s.tapes| && f < |s.feeds| {
        ApplyAllOwned(s.feeds[f].(pending := None), From(Waiting(s.feeds[f].pending), publishedBefore));
      }
    }
    MineOwned(ms, id, s.tapes[i].requestId);
  }

  lemma NotForTheTape(feeds: seq<DirectFeed>, b: Committed, id: nat)
    requires id !in FeedIds(feeds)
    ensures Mine(BatchMessages(feeds, b), id) == []
  {
    PoolOfOthers(BatchParts(feeds, b), FeedIds(feeds), id);
  }

  lemma StaysAfter(tapes: seq<TapeSubscription>, i: nat, id: nat) returns (j: nat)
    requires i < |tapes| && tapes[i].requestId != id
    ensures j < |DropTape(tapes, id)| && DropTape(tapes, id)[j] == tapes[i]
  {
    DropTapeIs(tapes, id);
    assert tapes[i] in DropTape(tapes, id);
    j :| 0 <= j < |DropTape(tapes, id)| && DropTape(tapes, id)[j] == tapes[i];
  }

  /** One operation of the session, as the feed sees it. */
  lemma StepOfSession(s: Subscriptions, i: nat, op: Operation) returns (t: Subscriptions, j: nat)
    requires Valid(s) && i < |s.tapes| && op != Unsubscribe(s.tapes[i].requestId)
    ensures t == Perform(s, op).0 && Valid(t) && j < |t.tapes| && t.tapes[j] == Alone(s.tapes[i], op).0
    ensures Mine(Perform(s, op).1, s.tapes[i].requestId) == Alone(s.tapes[i], op).1
  {
    var f := s.tapes[i];
    t := Perform(s, op).0;
    PerformKeeps(s, op);
    Located(s, i);
    match op
    case Unsubscribe(id) => j := StaysAfter(s.tapes, i, id);
    case OnCommitted(b) =>
      NotForTheTape(s.feeds, b, f.requestId);
      j := i;
    case DrainTape(drained) =>
      EachTapeIsDrainedAlone(s.tapes, Waiting(drained), i);
      j := i;
    case ActivateAfter(id, publishedBefore, last) =>
      ActivatedAlone(s, i, id, publishedBefore, last);
      j := i;
    case _ => j := i;
  }

  // ----- Draining in parts -------------------------------------------------

  /** Draining records together is draining the first and then the rest. */
  lemma {:induction false} DrainedConcat(f: TapeSubscription, a: seq<Tape.Record>, b: seq<Tape.Record>)
    ensures var (g, ms) := DrainedAlone(f, a);
      var (e, more) := DrainedAlone(g, b);
      DrainedAlone(f, a + b) == (e, ms + more)
    decreases |b|
  {
    if b == [] {
      assert a + b == a;
      assert DrainedAlone(f, a).1 + [] == DrainedAlone(f, a).1;
    } else {
      var front, r := b[..|b| - 1], b[|b| - 1];
      assert (a + b)[..|a + b| - 1] == a + front && (a + b)[|a + b| - 1] == r;
      DrainedConcat(f, a, front);
      var (g, ms) := DrainedAlone(f, a);
      var (e, more) := DrainedAlone(g, front);
      TimedQueue.Regroup(ms, more, OnRecord(e, r).1);
    }
  }

  /** No record finds the feed's buffer full. */
  predicate HasRoom(f: TapeSubscription, rs: seq<Tape.Record>) {
    Drains([f], rs)
  }

  lemma {:induction false} RoomConcat(f: TapeSubscription, a: seq<Tape.Record>, b: seq<Tape.Record>)
    requires HasRoom(f, a + b)
    ensures HasRoom(f, a) && HasRoom(DrainedAlone(f, a).0, b)
    decreases |b|
  {
    if b == [] {
      assert a + b == a;
    } else {
      var front, r := b[..|b| - 1], b[|b| - 1];
      assert (a + b)[..|a + b| - 1] == a + front && (a + b)[|a + b| - 1] == r;
      RoomConcat(f, a, front);
      DrainedConcat(f, a, front);
      var g := DrainedAlone(f, a).0;
      assert !TapeOverflows(DrainedAlone([f][0], a + front).0, r);
      assert DrainedAlone([g][0], front) == DrainedAlone(g, front);
    }
  }

  // ----- The feed and its client -------------------------------------------

  /** A drain brings the records of up to `most` changes, as many as the processor has applied. */
  datatype Moment = Apply | TakeSnapshot | Drain(most: nat) | Reply(publishedBefore: nat) | Elsewhere(op: Operation)

  predicate Foreign(id: nat, op: Operation) {
    !op.DrainTape? && op != Unsubscribe(id) && !(op.ActivateAfter? && op.id == id)
  }

  ghost predicate AllForeign(id: nat, ms: seq<Moment>) {
    forall m :: m in ms && m.Elsewhere? ==> Foreign(id, m.op)
  }

  function Available(h: Quoting.History, s: Quoting.System, most: nat): nat {
    Min(most, SatSub(Min(s.applied, |h.events|), s.drained))
  }

  predicate Answers(h: Quoting.History, s: Quoting.System) {
    s.snapshot.Some? && s.snapshot.value <= |h.events| && s.feed.pending.Some?
  }

  function StepsAt(h: Quoting.History, s: Quoting.System, m: Moment): seq<Quoting.Step> {
    match m
    case Apply => [Quoting.Apply]
    case TakeSnapshot => [Quoting.TakeSnapshot]
    case Drain(most) => seq(Available(h, s, most), _ => Quoting.Drain)
    case Reply(_) => [Quoting.Reply]
    case Elsewhere(_) => []
  }

  /** The records of changes `from..to`, whatever their instrument. */
  function RecordsOver(h: Quoting.History, from: nat, to: nat): seq<Tape.Record>
    requires to <= |h.records|
  {
    if to <= from then [] else RecordsOver(h, from, to - 1) + h.records[to - 1]
  }

  function OperationsAt(h: Quoting.History, s: Quoting.System, id: nat, m: Moment): seq<Operation>
    requires Quoting.Shaped(h)
  {
    match m
    case Drain(most) =>
      var n := Available(h, s, most);
      if n == 0 then [] else [DrainTape(Some(RecordsOver(h, s.drained, s.drained + n)))]
    case Reply(publishedBefore) =>
      if Answers(h, s)
      then [ActivateAfter(id, publishedBefore, Quoting.Last(h, s.feed.instrument, s.snapshot.value))] else []
    case Elsewhere(op) => [op]
    case _ => []
  }

  function After(h: Quoting.History, s: Quoting.System, m: Moment): Quoting.System
    requires Quoting.Shaped(h)
  {
    Quoting.Run(h, s, StepsAt(h, s, m))
  }

  function StepsOf(h: Quoting.History, s: Quoting.System, ms: seq<Moment>): seq<Quoting.Step>
    requires Quoting.Shaped(h)
    decreases |ms|
  {
    if ms == [] then [] else StepsAt(h, s, ms[0]) + StepsOf(h, After(h, s, ms[0]), ms[1..])
  }

  function OperationsOf(h: Quoting.History, s: Quoting.System, id: nat, ms: seq<Moment>): seq<Operation>
    requires Quoting.Shaped(h)
    decreases |ms|
  {
    if ms == [] then [] else OperationsAt(h, s, id, ms[0]) + OperationsOf(h, After(h, s, ms[0]), id, ms[1..])
  }

  lemma {:induction false} RunConcat(
      h: Quoting.History, s: Quoting.System, a: seq<Quoting.Step>, b: seq<Quoting.Step>)
    requires Quoting.Shaped(h)
    ensures Quoting.Run(h, s, a + b) == Quoting.Run(h, Quoting.Run(h, s, a), b)
    decreases |a|
  {
    if a == [] {
      assert a + b == b;
    } else {
      assert (a + b)[0] == a[0] && (a + b)[1..] == a[1..] + b;
      RunConcat(h, Quoting.Next(h, s, a[0]), a[1..], b);
    }
  }

  /** The message a record becomes: from the hub, at the instant it was published there. */
  function MessageOf(id: nat, r: Tape.Record): FeedMessage {
    FeedMessage(Hub, r.hubUs, id, r.firstReport, r.entries)
  }

  /** The messages a client's receipts came in. */
  function Messages(id: nat, rs: seq<Quoting.Receipt>): seq<FeedMessage> {
    seq(|rs|, i requires 0 <= i < |rs| => MessageOf(id, rs[i].record))
  }

  lemma {:induction false} ReceivedSay(
      id: nat, c: Quoting.Client, sent: seq<Quoting.Sent>, ms: seq<FeedMessage>)
    requires SayRecords(ms, id, Quoting.RecordsSent(sent))
    ensures Messages(id, Quoting.ReceiveAll(c, sent).received) == Messages(id, c.received) + ms
  {
    if sent == [] {
      assert Messages(id, c.received) + ms == Messages(id, c.received);
    } else {
      var n := |sent| - 1;
      ReceivedSay(id, c, sent[..n], ms[..n]);
      var d := Quoting.ReceiveAll(c, sent[..n]);
      assert Quoting.ReceiveAll(c, sent) == Quoting.Receive(d, sent[n]);
      assert ms[n] == MessageOf(id, sent[n].record);
      assert Messages(id, Quoting.Receive(d, sent[n]).received) == Messages(id, d.received) + [ms[n]];
      assert ms == ms[..n] + [ms[n]];
    }
  }

  /** The session's subscription is the modelled feed; while it waits its client has received nothing. */
  ghost predicate Serves(s: Quoting.System, f: TapeSubscription, id: nat) {
    && !s.closed && Follows(f, s.feed) && f.requestId == id
    && (s.feed.pending.Some? ==> s.client.received == [])
  }

  /** One change's records. */
  lemma DrainServes(h: Quoting.History, s: Quoting.System, f: TapeSubscription, id: nat)
    requires Quoting.Shaped(h) && s.drained < |h.events| && Quoting.Applies(h, s.drained)
    requires Serves(s, f, id) && HasRoom(f, h.records[s.drained])
    ensures var t := Quoting.DrainNext(h, s);
      var (g, own) := DrainedAlone(f, h.records[s.drained]);
      Serves(t, g, id) && Messages(id, t.client.received) == Messages(id, s.client.received) + own
  {
    DrainedSame(f, h.records[s.drained]);
    if s.feed.pending.Some? {
      BufferAgrees(h, s, f);
      assert Messages(id, s.client.received) + [] == Messages(id, s.client.received);
    } else {
      SendAgrees(h, s, f);
      ReceivedSay(id, s.client, Through(h, s), DrainedAlone(f, h.records[s.drained]).1);
    }
  }

  lemma {:induction false} DrainedSame(f: TapeSubscription, rs: seq<Tape.Record>)
    ensures DrainedAlone(f, rs).0.requestId == f.requestId
    decreases |rs|
  {
    if rs != [] {
      DrainedSame(f, rs[..|rs| - 1]);
    }
  }

  lemma OneDrain(h: Quoting.History, s: Quoting.System, n: nat)
    requires Quoting.Shaped(h) && s.drained + n < s.applied && s.drained + n < |h.events|
    ensures var steps := seq(n, _ => Quoting.Drain);
      Quoting.Run(h, s, seq(n + 1, _ => Quoting.Drain)) == Quoting.Next(h, Quoting.Run(h, s, steps), Quoting.Drain)
  {
    var steps := seq(n, _ => Quoting.Drain);
    assert seq(n + 1, _ => Quoting.Drain) == steps + [Quoting.Drain];
    RunConcat(h, s, steps, [Quoting.Drain]);
    var t := Quoting.Run(h, s, steps);
    assert [Quoting.Drain][1..] == [];
    assert Quoting.Run(h, t, [Quoting.Drain]) == Quoting.Run(h, Quoting.Next(h, t, Quoting.Drain), []);
  }

  /** The records of `n` changes drained together, as the system drains them one by one. */
  lemma {:induction false} DrainsServe(h: Quoting.History, s: Quoting.System, f: TapeSubscription, id: nat, n: nat)
    requires Quoting.Runs(h) && s.drained + n <= s.applied && s.drained + n <= |h.events|
    requires Serves(s, f, id) && HasRoom(f, RecordsOver(h, s.drained, s.drained + n))
    ensures var t := Quoting.Run(h, s, seq(n, _ => Quoting.Drain));
      var (g, own) := DrainedAlone(f, RecordsOver(h, s.drained, s.drained + n));
      && Serves(t, g, id) && Messages(id, t.client.received) == Messages(id, s.client.received) + own
      && t.drained == s.drained + n && t.applied == s.applied
  {
    if n == 0 {
      assert Messages(id, s.client.received) + [] == Messages(id, s.client.received);
    } else {
      var front, last := RecordsOver(h, s.drained, s.drained + n - 1), h.records[s.drained + n - 1];
      RoomConcat(f, front, last);
      DrainsServe(h, s, f, id, n - 1);
      OneDrain(h, s, n - 1);
      DrainedConcat(f, front, last);
      var t := Quoting.Run(h, s, seq(n - 1, _ => Quoting.Drain));
      var (g, own) := DrainedAlone(f, front);
      assert Quoting.Applies(h, t.drained);
      DrainServes(h, t, g, id);
      TimedQueue.Regroup(Messages(id, s.client.received), own, DrainedAlone(g, last).1);
    }
  }

  lemma ReplyServes(h: Quoting.History, s: Quoting.System, f: TapeSubscription, id: nat)
    requires Quoting.Shaped(h) && Answers(h, s) && Serves(s, f, id)
    ensures var last := Quoting.Last(h, s.feed.instrument, s.snapshot.value);
      var t := Quoting.Join(h, s);
      && Serves(t, f.(pending := None, after := last), id)
      && Messages(id, t.client.received)
         == Messages(id, s.client.received) + TapeMessages(f, RecordsAfter(Waiting(f.pending), last))
  {
    var last := Quoting.Last(h, s.feed.instrument, s.snapshot.value);
    JoinAgrees(h, s, f);
    var c := Quoting.SnapshotClient(h, f.instrument, s.snapshot.value);
    ReceivedSay(id, c, Quoting.Following(s.feed.pending.value, last),
      TapeMessages(f, RecordsAfter(Waiting(f.pending), last)));
    assert c.received == s.client.received;
  }

  lemma RunOfOne(h: Quoting.History, s: Quoting.System, step: Quoting.Step)
    requires Quoting.Shaped(h)
    ensures Quoting.Run(h, s, [step]) == Quoting.Next(h, s, step)
  {
    assert [step][1..] == [];
    assert Quoting.Run(h, s, [step]) == Quoting.Run(h, Quoting.Next(h, s, step), []);
  }

  /** What the operation does for the feed is what the moment does to its system. */
  ghost predicate Keeps(
      s: Quoting.System, t: Quoting.System, f: TapeSubscription, id: nat, op: Operation)
  {
    var (g, own) := Alone(f, op);
    Serves(t, g, id) && Messages(id, t.client.received) == Messages(id, s.client.received) + own
  }

  lemma DrainMoment(h: Quoting.History, s: Quoting.System, f: TapeSubscription, id: nat, n: nat)
    requires Quoting.Runs(h) && s.drained + n <= s.applied && s.drained + n <= |h.events|
    requires Serves(s, f, id) && HasRoom(f, RecordsOver(h, s.drained, s.drained + n))
    ensures var t, op := Quoting.Run(h, s, seq(n, _ => Quoting.Drain)),
        DrainTape(Some(RecordsOver(h, s.drained, s.drained + n)));
      Keeps(s, t, f, id, op)
  {
    DrainsServe(h, s, f, id, n);
  }

  lemma ReplyMoment(h: Quoting.History, s: Quoting.System, f: TapeSubscription, id: nat, publishedBefore: nat)
    requires Quoting.Shaped(h) && Answers(h, s) && Serves(s, f, id)
    ensures var op := ActivateAfter(id, publishedBefore, Quoting.Last(h, s.feed.instrument, s.snapshot.value));
      Keeps(s, Quoting.Run(h, s, [Quoting.Reply]), f, id, op)
  {
    RunOfOne(h, s, Quoting.Reply);
    ReplyServes(h, s, f, id);
  }

  lemma ForeignMoment(s: Quoting.System, f: TapeSubscription, id: nat, op: Operation)
    requires Serves(s, f, id) && Foreign(id, op)
    ensures Keeps(s, s, f, id, op)
  {
    assert Messages(id, s.client.received) + [] == Messages(id, s.client.received);
  }

  lemma MomentServes(
      h: Quoting.History, s: Quoting.System, f: TapeSubscription, id: nat, m: Moment, op: Operation)
    requires Quoting.Runs(h) && Serves(s, f, id) && OperationsAt(h, s, id, m) == [op]
    requires m.Elsewhere? ==> Foreign(id, op)
    requires op.DrainTape? ==> HasRoom(f, Waiting(op.drained))
    ensures Keeps(s, After(h, s, m), f, id, op)
  {
    match m
    case Drain(most) => DrainMoment(h, s, f, id, Available(h, s, most));
    case Reply(publishedBefore) => ReplyMoment(h, s, f, id, publishedBefore);
    case Elsewhere(_) => ForeignMoment(s, f, id, op);
    case _ =>
  }

  lemma IdleServes(h: Quoting.History, s: Quoting.System, f: TapeSubscription, id: nat, m: Moment)
    requires Quoting.Shaped(h) && Serves(s, f, id) && OperationsAt(h, s, id, m) == []
    ensures var t := After(h, s, m); Serves(t, f, id) && t.client == s.client
  {
    match m
    case Apply => RunOfOne(h, s, Quoting.Apply);
    case TakeSnapshot => RunOfOne(h, s, Quoting.TakeSnapshot);
    case Reply(_) => RunOfOne(h, s, Quoting.Reply);
    case _ =>
  }

  // ----- Over every run ----------------------------------------------------

  /** What the session sends for the feed is what its client receives from here on. */
  ghost predicate SendsTheReceived(
      s: Subscriptions, id: nat, h: Quoting.History, own: Quoting.System, ms: seq<Moment>)
    requires Quoting.Shaped(h)
  {
    Messages(id, own.client.received) + Mine(BnpFeedsRun.Run(s, OperationsOf(h, own, id, ms)).1, id)
    == Messages(id, Quoting.Run(h, own, StepsOf(h, own, ms)).client.received)
  }

  lemma RunNext(h: Quoting.History, own: Quoting.System, ms: seq<Moment>)
    requires Quoting.Shaped(h) && ms != []
    ensures var next := After(h, own, ms[0]);
      Quoting.Run(h, own, StepsOf(h, own, ms)) == Quoting.Run(h, next, StepsOf(h, next, ms[1..]))
  {
    RunConcat(h, own, StepsAt(h, own, ms[0]), StepsOf(h, After(h, own, ms[0]), ms[1..]));
  }

  lemma IdleSends(s: Subscriptions, id: nat, h: Quoting.History, own: Quoting.System, ms: seq<Moment>)
    requires Quoting.Shaped(h) && ms != [] && OperationsAt(h, own, id, ms[0]) == []
    requires var next := After(h, own, ms[0]);
      next.client == own.client && SendsTheReceived(s, id, h, next, ms[1..])
    ensures SendsTheReceived(s, id, h, own, ms)
  {
    RunNext(h, own, ms);
    assert OperationsOf(h, own, id, ms) == OperationsOf(h, After(h, own, ms[0]), id, ms[1..]);
  }

  lemma OneSends(
      s: Subscriptions, id: nat, h: Quoting.History, own: Quoting.System, ms: seq<Moment>, op: Operation)
    requires Quoting.Shaped(h) && ms != [] && OperationsAt(h, own, id, ms[0]) == [op] && !Closes(s, op)
    requires var next := After(h, own, ms[0]);
      && Messages(id, next.client.received) == Messages(id, own.client.received) + Mine(Perform(s, op).1, id)
      && SendsTheReceived(Perform(s, op).0, id, h, next, ms[1..])
    ensures SendsTheReceived(s, id, h, own, ms)
  {
    RunNext(h, own, ms);
    var rest := OperationsOf(h, After(h, own, ms[0]), id, ms[1..]);
    SessionClient.RunOfOne(s, op, rest, id);
    var (t, sent) := Perform(s, op);
    TimedQueue.Regroup(Messages(id, own.client.received), Mine(sent, id), Mine(BnpFeedsRun.Run(t, rest).1, id));
  }

  lemma OpenNext(s: Subscriptions, id: nat, h: Quoting.History, own: Quoting.System, ms: seq<Moment>, op: Operation)
    requires Quoting.Shaped(h) && ms != [] && OperationsAt(h, own, id, ms[0]) == [op]
    requires StaysOpen(s, OperationsOf(h, own, id, ms))
    ensures !Closes(s, op) && StaysOpen(Perform(s, op).0, OperationsOf(h, After(h, own, ms[0]), id, ms[1..]))
  {
    var ops, rest := OperationsOf(h, own, id, ms), OperationsOf(h, After(h, own, ms[0]), id, ms[1..]);
    assert ops[0] == op && ops[1..] == rest;
  }

  lemma OpenHasRoom(s: Subscriptions, i: nat, op: Operation)
    requires i < |s.tapes| && !Closes(s, op) && op.DrainTape?
    ensures HasRoom(s.tapes[i], Waiting(op.drained))
  {
    SessionClient.DrainsEach(s.tapes, Waiting(op.drained), i);
  }

  lemma ForeignNext(id: nat, ms: seq<Moment>)
    requires ms != [] && AllForeign(id, ms)
    ensures AllForeign(id, ms[1..]) && (ms[0].Elsewhere? ==> Foreign(id, ms[0].op))
  {
    assert ms[0] in ms;
  }

  lemma {:induction false} RunServes(
      s: Subscriptions, i: nat, id: nat, h: Quoting.History, own: Quoting.System, ms: seq<Moment>)
    requires Quoting.Runs(h) && Valid(s) && i < |s.tapes| && Serves(own, s.tapes[i], id) && AllForeign(id, ms)
    requires StaysOpen(s, OperationsOf(h, own, id, ms))
    ensures SendsTheReceived(s, id, h, own, ms)
    decreases |ms|
  {
    if ms == [] {
      assert Messages(id, own.client.received) + [] == Messages(id, own.client.received);
    } else {
      var f, ops, next := s.tapes[i], OperationsAt(h, own, id, ms[0]), After(h, own, ms[0]);
      ForeignNext(id, ms);
      if ops == [] {
        IdleServes(h, own, f, id, ms[0]);
        assert OperationsOf(h, own, id, ms) == OperationsOf(h, next, id, ms[1..]);
        RunServes(s, i, id, h, next, ms[1..]);
        IdleSends(s, id, h, own, ms);
      } else {
        var op := ops[0];
        OpenNext(s, id, h, own, ms, op);
        var t, j := StepOfSession(s, i, op);
        if op.DrainTape? {
          OpenHasRoom(s, i, op);
        }
        MomentServes(h, own, f, id, ms[0], op);
        RunServes(t, j, id, h, next, ms[1..]);
        OneSends(s, id, h, own, ms, op);
      }
    }
  }

  /**
    A session serves each consolidated feed's client: from its subscription on,
    while the session stays connected, the messages sent under the feed's id
    are, one by one, the records its client receives in `TapeFeed`, whose
    theorems say what the client then holds.
   */
  lemma SessionServesTheTapeClient(
      s: Subscriptions, id: nat, instrument: nat, h: Quoting.History, applied: nat, drained: nat, ms: seq<Moment>)
    requires Quoting.Runs(h) && Valid(s) && !Refuses(s, id) && AllForeign(id, ms)
    requires var t := Perform(s, SubscribeTape(id, instrument, true)).0;
      StaysOpen(t, OperationsOf(h, Quoting.Start(instrument, applied, drained), id, ms))
    ensures var t := Perform(s, SubscribeTape(id, instrument, true)).0;
      var own := Quoting.Start(instrument, applied, drained);
      Mine(BnpFeedsRun.Run(t, OperationsOf(h, own, id, ms)).1, id)
      == Messages(id, Quoting.Run(h, own, StepsOf(h, own, ms)).client.received)
  {
    var t, own := WithTape(s, id, instrument), Quoting.Start(instrument, applied, drained);
    SubscribeTapeKeeps(s, id, instrument);
    NewTapeFollows(id, instrument, applied, drained);
    assert t.tapes[|s.tapes|] == NewTape(id, instrument);
    RunServes(t, |s.tapes|, id, h, own, ms);
    assert SendsTheReceived(t, id, h, own, ms);
    var sent := Mine(BnpFeedsRun.Run(t, OperationsOf(h, own, id, ms)).1, id);
    assert Messages(id, own.client.received) + sent == sent;
  }
}
