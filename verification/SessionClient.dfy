/**
  The clients of a whole session: among any subscriptions and whatever the
  session does for them, the messages it sends for one venue feed are those the
  feed's own client receives, and a session disconnects for want of buffer
  exactly when a feed that waits for its snapshot has a full one.
 */
module SessionClient {
  import opened Words
  import opened Market
  import opened Feed
  import opened BnpFeeds
  import opened BnpFeedsRun
  import FeedRun
  import Tape
  import TimedQueue

  // ----- Buffers -----------------------------------------------------------

  predicate Within<T>(pending: Option<seq<T>>) {
    |Waiting(pending)| <= 4096
  }

  ghost predicate Bounded(s: Subscriptions) {
    && (forall f :: f in s.feeds ==> Within(f.pending))
    && (forall f :: f in s.tapes ==> Within(f.pending))
  }

  lemma BatchBounded(s: Subscriptions, b: Committed)
    requires Bounded(s) && !AnyOverflows(s.feeds, b)
    ensures Bounded(s.(feeds := BatchFeeds(s.feeds, b)))
  {
    var fs := BatchFeeds(s.feeds, b);
    forall i | 0 <= i < |fs| ensures Within(fs[i].pending) {
      assert s.feeds[i] in s.feeds && !Overflows(s.feeds[i], b);
    }
  }

  lemma {:induction false} DrainBounded(f: TapeSubscription, rs: seq<Tape.Record>)
    requires Within(f.pending) && Drains([f], rs)
    ensures Within(DrainedAlone(f, rs).0.pending)
    decreases |rs|
  {
    if rs != [] {
      var front := rs[..|rs| - 1];
      DrainBounded(f, front);
      assert !TapeOverflows(DrainedAlone([f][0], front).0, rs[|rs| - 1]);
    }
  }

  lemma {:induction false} DrainsEach(tapes: seq<TapeSubscription>, rs: seq<Tape.Record>, i: nat)
    requires Drains(tapes, rs) && i < |tapes|
    ensures Drains([tapes[i]], rs)
    decreases |rs|
  {
    if rs != [] {
      DrainsEach(tapes, rs[..|rs| - 1], i);
    }
  }

  lemma TapesBounded(s: Subscriptions, rs: seq<Tape.Record>)
    requires Bounded(s) && Drains(s.tapes, rs)
    ensures Bounded(s.(tapes := DrainedTapes(s.tapes, rs).0))
  {
    var ts := DrainedTapes(s.tapes, rs).0;
    DrainedSubscriptions(s.tapes, rs);
    forall i | 0 <= i < |ts| ensures Within(ts[i].pending) {
      assert s.tapes[i] in s.tapes;
      DrainsEach(s.tapes, rs, i);
      DrainBounded(s.tapes[i], rs);
    }
  }

  lemma ActivateBounded(s: Subscriptions, id: nat, publishedBefore: nat, last: nat)
    requires Bounded(s)
    ensures var t := Activated(s, id, publishedBefore, last).0; Bounded(t)
  {
    var t, f := TapeAt(s.tapes, id), FeedAt(s.feeds, id);
    if t < |s.tapes| {
      assert Waiting<Tape.Record>(None) == [];
    } else if f < |s.feeds| {
      var g := s.feeds[f];
      NotWaiting(g.(pending := None), From(Waiting(g.pending), publishedBefore));
    }
  }

  lemma {:induction false} NotWaiting(f: DirectFeed, bs: seq<Committed>)
    ensures ApplyAll(f, bs).0.pending == f.pending
    decreases |bs|
  {
    if bs != [] {
      NotWaiting(Apply(f, bs[0]).0, bs[1..]);
    }
  }

  lemma TimedBounded(s: Subscriptions, id: nat, proposed: nat)
    requires Bounded(s)
    ensures var t := Timed(s, id, proposed).0; Bounded(t)
  {
    var t := Timed(s, id, proposed).0;
    forall i | 0 <= i < |t.feeds| ensures Within(t.feeds[i].pending) {
      assert s.feeds[i] in s.feeds;
    }
    forall i | 0 <= i < |t.tapes| ensures Within(t.tapes[i].pending) {
      assert s.tapes[i] in s.tapes;
    }
  }

  lemma PerformBounded(s: Subscriptions, op: Operation)
    requires Bounded(s) && !Closes(s, op)
    ensures var t := Perform(s, op).0; Bounded(t)
  {
    match op
    case Unsubscribe(id) =>
      DropFeedIs(s.feeds, id);
      DropTapeIs(s.tapes, id);
    case OnCommitted(b) => BatchBounded(s, b);
    case DrainTape(drained) =>
      if s.tapes == [] {
        NothingToDrain(s.tapes, Waiting(drained));
      } else {
        TapesBounded(s, drained.value);
      }
    case ActivateAfter(id, publishedBefore, last) => ActivateBounded(s, id, publishedBefore, last);
    case SendTime(id, proposed) => TimedBounded(s, id, proposed);
    case _ =>
  }

  /** Over every run of a session no buffer holds more than 4096 batches or records. */
  lemma {:induction false} BuffersStayBounded(s: Subscriptions, ops: seq<Operation>)
    requires Bounded(s)
    ensures Bounded(BnpFeedsRun.Run(s, ops).0)
    decreases |ops|
  {
    if ops != [] && !Closes(s, ops[0]) {
      PerformBounded(s, ops[0]);
      BuffersStayBounded(Perform(s, ops[0]).0, ops[1..]);
    }
  }

  /** The batch has an update of the listing or is a gap for it. */
  ghost predicate Speaks(b: Committed, k: ListingKey) {
    k in b.publicGaps || exists i | 0 <= i < |b.public| :: b.public[i].listing == k
  }

  lemma {:induction false} UpdateForIff(public: seq<ListingUpdate>, k: ListingKey)
    ensures UpdateFor(public, k).Some? <==> exists i | 0 <= i < |public| :: public[i].listing == k
  {
    if public != [] {
      UpdateForIff(public[1..], k);
      assert forall i | 0 < i < |public| :: public[i] == public[1..][i - 1];
    }
  }

  /** A feed that waits for its snapshot, its buffer full, when the batch speaks of its listing. */
  ghost predicate Full(f: DirectFeed, b: Committed) {
    f.pending.Some? && |f.pending.value| == 4096 && Speaks(b, f.listing)
  }

  /** A batch disconnects the session exactly when it needs a place in a full buffer. */
  lemma DisconnectsIff(s: Subscriptions, b: Committed)
    requires Bounded(s)
    ensures Closes(s, OnCommitted(b)) <==> exists f :: f in s.feeds && Full(f, b)
  {
    forall i | 0 <= i < |s.feeds| ensures Overflows(s.feeds[i], b) <==> Full(s.feeds[i], b) {
      assert s.feeds[i] in s.feeds;
      UpdateForIff(b.public, s.feeds[i].listing);
    }
    if exists f :: f in s.feeds && Full(f, b) {
      var f :| f in s.feeds && Full(f, b);
      var i :| 0 <= i < |s.feeds| && s.feeds[i] == f;
      assert Overflows(s.feeds[i], b);
    }
  }

  // ----- What was asked for ------------------------------------------------

  predicate Asked(side: Side, bids: bool, offers: bool) {
    match side
    case Buy => bids
    case Sell => offers
  }

  /** The entry is this trade, with its resting order's reference order by order. */
  predicate Carries(orders: bool, t: Trade, e: Increment) {
    && e.TradeEntry? && e.price == t.price && e.quantity == t.quantity && e.buyer == t.buyer && e.seller == t.seller
    && e.resting == if orders then t.reference else None
  }

  /** A new feed sends the trades exactly if asked, and of the book exactly the asked sides in the asked detail. */
  lemma FeedCarriesWhatWasAsked(
      id: nat, listing: ListingKey, bids: bool, offers: bool, trades: bool, orders: bool, u: ListingUpdate,
      e: Increment)
    ensures var es := Entries(NewFeed(id, listing, bids, offers, trades, orders), u);
      && (e.TradeEntry? ==> (e in es <==> trades && exists t :: t in u.trades && Carries(orders, t, e)))
      && (e.LevelEntry? ==> (e in es <==>
            !orders && Asked(e.side, bids, offers) && exists c :: c in u.levels && LevelIncrement(c) == e))
      && (e.OrderEntry? ==> (e in es <==>
            orders && Asked(e.side, bids, offers) && exists c :: c in u.orders && OrderIncrement(c) == e))
  {
    var f := NewFeed(id, listing, bids, offers, trades, orders);
    TradesTouchNothing(f, u.trades);
    TradeEntryIff(f, u.trades, e);
    LevelEntryIff(f, u.levels, e);
    OrderEntryIff(f, u.orders, e);
  }

  lemma {:induction false} TradeEntryIff(f: DirectFeed, ts: seq<Trade>, e: Increment)
    ensures e in TradeIncrements(f, ts) <==> exists t :: t in ts && Carries(f.detail.ByOrder?, t, e)
  {
    if ts != [] {
      TradeEntryIff(f, ts[1..], e);
      assert ts == [ts[0]] + ts[1..];
      assert Carries(f.detail.ByOrder?, ts[0], e) <==> e == TradeIncrement(f, ts[0]);
    }
  }

  lemma {:induction false} LevelEntryIff(f: DirectFeed, cs: seq<LevelChange>, e: Increment)
    ensures e in LevelIncrements(f, cs) <==> exists c :: c in cs && Wants(f, c.side) && LevelIncrement(c) == e
  {
    if cs != [] {
      LevelEntryIff(f, cs[1..], e);
      assert cs == [cs[0]] + cs[1..];
    }
  }

  lemma {:induction false} OrderEntryIff(f: DirectFeed, cs: seq<OrderChange>, e: Increment)
    ensures e in OrderIncrements(f, cs) <==> exists c :: c in cs && Wants(f, c.side) && OrderIncrement(c) == e
  {
    if cs != [] {
      OrderEntryIff(f, cs[1..], e);
      assert cs == [cs[0]] + cs[1..];
    }
  }

  // ----- One feed of the session and its client ----------------------------

  /** What happens next: to this feed and its client, or to the session's other subscriptions. */
  datatype Moment = Commit | TakeSnapshot | Drain | Reply(last: nat) | Elsewhere(op: Operation)

  /** An operation that is neither a batch nor this subscription's reply or end. */
  predicate Foreign(id: nat, op: Operation) {
    !op.OnCommitted? && op != Unsubscribe(id) && !(op.ActivateAfter? && op.id == id)
  }

  ghost predicate AllForeign(id: nat, ms: seq<Moment>) {
    forall m :: m in ms && m.Elsewhere? ==> Foreign(id, m.op)
  }

  function StepOf(m: Moment): seq<FeedRun.Step> {
    match m
    case Commit => [FeedRun.Commit]
    case TakeSnapshot => [FeedRun.TakeSnapshot]
    case Drain => [FeedRun.Drain]
    case Reply(_) => [FeedRun.Reply]
    case Elsewhere(_) => []
  }

  function StepsOf(ms: seq<Moment>): seq<FeedRun.Step> {
    if ms == [] then [] else StepOf(ms[0]) + StepsOf(ms[1..])
  }

  /** What the session does at a moment of the feed's own system. */
  function OperationOf(h: FeedRun.History, s: FeedRun.System, m: Moment): seq<Operation> {
    match m
    case Drain => if s.drained < s.published && s.drained < |h.log| then [OnCommitted(h.log[s.drained])] else []
    case Reply(last) =>
      if s.snapshot.Some? && s.snapshot.value < |h.shown| && s.feed.pending.Some?
      then [ActivateAfter(s.feed.requestId, s.snapshot.value, last)] else []
    case Elsewhere(op) => [op]
    case _ => []
  }

  function After(h: FeedRun.History, s: FeedRun.System, m: Moment): FeedRun.System {
    if StepOf(m) == [] then s else FeedRun.Next(h, s, StepOf(m)[0])
  }

  function OperationsOf(h: FeedRun.History, s: FeedRun.System, ms: seq<Moment>): seq<Operation>
    decreases |ms|
  {
    if ms == [] then [] else OperationOf(h, s, ms[0]) + OperationsOf(h, After(h, s, ms[0]), ms[1..])
  }

  lemma RunNext(h: FeedRun.History, s: FeedRun.System, ms: seq<Moment>)
    requires ms != []
    ensures FeedRun.Run(h, s, StepsOf(ms)) == FeedRun.Run(h, After(h, s, ms[0]), StepsOf(ms[1..]))
  {
    var steps := StepOf(ms[0]);
    if steps == [] {
      assert StepsOf(ms) == StepsOf(ms[1..]);
    } else {
      assert StepsOf(ms)[0] == steps[0] && StepsOf(ms)[1..] == StepsOf(ms[1..]);
    }
  }

  /** The session's feed is the modelled one; only its last send time is the session's own. */
  predicate Same(f: DirectFeed, g: DirectFeed) {
    f == g.(lastSendUs := f.lastSendUs)
  }

  function Messages(rs: seq<FeedRun.Receipt>): seq<FeedMessage> {
    seq(|rs|, i requires 0 <= i < |rs| => rs[i].message)
  }

  lemma ApplySame(f: DirectFeed, g: DirectFeed, b: Committed)
    requires Same(f, g)
    ensures Same(Apply(f, b).0, Apply(g, b).0) && Apply(f, b).1 == Apply(g, b).1
  {
    if UpdateFor(b.public, f.listing).Some? {
      FeedRun.EntriesLike(f, g, UpdateFor(b.public, f.listing).value);
    }
  }

  lemma DeliverSends(f: DirectFeed, g: DirectFeed, c: FeedRun.Client, b: Committed)
    requires Same(f, g)
    ensures var (g', d) := FeedRun.Deliver(g, c, b);
      Same(Apply(f, b).0, g') && Messages(d.received) == Messages(c.received) + Optional(Apply(f, b).1)
  {
    ApplySame(f, g, b);
  }

  lemma {:induction false} DeliverAllSends(f: DirectFeed, g: DirectFeed, c: FeedRun.Client, bs: seq<Committed>)
    requires Same(f, g)
    ensures var (g', d) := FeedRun.DeliverAll(g, c, bs);
      Same(ApplyAll(f, bs).0, g') && Messages(d.received) == Messages(c.received) + ApplyAll(f, bs).1
    decreases |bs|
  {
    if bs != [] {
      var (g', d) := FeedRun.Deliver(g, c, bs[0]);
      DeliverSends(f, g, c, bs[0]);
      DeliverAllSends(Apply(f, bs[0]).0, g', d, bs[1..]);
    }
  }

  /** A feed that waits has a client that has received nothing. */
  ghost predicate Serves(s: FeedRun.System, f: DirectFeed) {
    !s.closed && Same(f, s.feed) && (s.feed.pending.Some? ==> s.client.received == [])
  }

  lemma DrainServes(h: FeedRun.History, s: FeedRun.System, f: DirectFeed)
    requires Serves(s, f) && s.drained < |h.log| && !Overflows(f, h.log[s.drained])
    ensures var t := FeedRun.DrainNext(h, s);
      var (g, own) := OnBatch(f, h.log[s.drained]);
      Serves(t, g) && Messages(t.client.received) == Messages(s.client.received) + own
  {
    var b := h.log[s.drained];
    if f.pending.None? {
      DeliverSends(f, s.feed, s.client, b);
      NotWaiting(f, [b]);
    }
  }

  lemma ReplyServes(h: FeedRun.History, s: FeedRun.System, f: DirectFeed)
    requires Serves(s, f) && s.snapshot.Some? && s.snapshot.value < |h.shown| && s.feed.pending.Some?
    ensures var t := FeedRun.Join(h, s);
      var (g, own) := Activate(f, s.snapshot.value);
      Serves(t, g) && Messages(t.client.received) == Messages(s.client.received) + own
  {
    var p, joined := s.snapshot.value, Min(s.drained, s.snapshot.value);
    var c := FeedRun.Client(FeedRun.SnapshotView(s.feed, h.shown[p]), 1, true, joined, []);
    var g := s.feed.(pending := None);
    DeliverAllSends(f.(pending := None), g, c, From(s.feed.pending.value, p));
    NotWaiting(f.(pending := None), From(s.feed.pending.value, p));
  }

  lemma MomentServes(h: FeedRun.History, s: FeedRun.System, f: DirectFeed, m: Moment, op: Operation)
    requires Serves(s, f) && OperationOf(h, s, m) == [op] && (m.Elsewhere? ==> Foreign(f.requestId, op))
    requires op.OnCommitted? ==> !Overflows(f, op.batch)
    ensures var t := After(h, s, m);
      var (g, own) := Alone(f, op);
      Serves(t, g) && Messages(t.client.received) == Messages(s.client.received) + own
  {
    match m
    case Drain => DrainServes(h, s, f);
    case Reply(_) => ReplyServes(h, s, f);
    case Elsewhere(_) => assert Messages(s.client.received) + [] == Messages(s.client.received);
    case _ =>
  }

  /** Nothing for the session to do: the feed and its client stay as they are. */
  lemma IdleServes(h: FeedRun.History, s: FeedRun.System, f: DirectFeed, m: Moment)
    requires Serves(s, f) && OperationOf(h, s, m) == []
    ensures var t := After(h, s, m); Serves(t, f) && t.client == s.client
  {
  }

  /** One operation of the session, as the feed sees it. */
  lemma StepOfSession(s: Subscriptions, i: nat, op: Operation) returns (t: Subscriptions, j: nat)
    requires Valid(s) && i < |s.feeds| && op != Unsubscribe(s.feeds[i].requestId) && !Closes(s, op)
    ensures t == Perform(s, op).0 && Valid(t) && j < |t.feeds| && t.feeds[j] == Alone(s.feeds[i], op).0
    ensures t.feeds[j].requestId == s.feeds[i].requestId
    ensures Mine(Perform(s, op).1, s.feeds[i].requestId) == Alone(s.feeds[i], op).1
    ensures op.OnCommitted? ==> !Overflows(s.feeds[i], op.batch)
  {
    t := Perform(s, op).0;
    PerformKeeps(s, op);
    PerformAlone(s, i, op);
    AloneSame(s.feeds[i], op);
    j :| 0 <= j < |t.feeds| && t.feeds[j] == Alone(s.feeds[i], op).0;
  }

  lemma RunOfOne(s: Subscriptions, op: Operation, rest: seq<Operation>, id: nat)
    requires !Closes(s, op)
    ensures var (t, sent) := Perform(s, op);
      Mine(BnpFeedsRun.Run(s, [op] + rest).1, id) == Mine(sent, id) + Mine(BnpFeedsRun.Run(t, rest).1, id)
  {
    var (t, sent) := Perform(s, op);
    assert ([op] + rest)[1..] == rest;
    MineConcat(sent, BnpFeedsRun.Run(t, rest).1, id);
  }

  /** What the session sends for the feed is what its client receives from here on. */
  ghost predicate SendsTheReceived(
      s: Subscriptions, id: nat, h: FeedRun.History, own: FeedRun.System, ms: seq<Moment>)
  {
    Messages(own.client.received) + Mine(BnpFeedsRun.Run(s, OperationsOf(h, own, ms)).1, id)
    == Messages(FeedRun.Run(h, own, StepsOf(ms)).client.received)
  }

  lemma IdleSends(s: Subscriptions, id: nat, h: FeedRun.History, own: FeedRun.System, ms: seq<Moment>)
    requires ms != [] && OperationOf(h, own, ms[0]) == []
    requires var next := After(h, own, ms[0]);
      next.client == own.client && SendsTheReceived(s, id, h, next, ms[1..])
    ensures SendsTheReceived(s, id, h, own, ms)
  {
    RunNext(h, own, ms);
    var next := After(h, own, ms[0]);
    assert OperationsOf(h, own, ms) == OperationsOf(h, next, ms[1..]);
  }

  lemma OneSends(
      s: Subscriptions, id: nat, h: FeedRun.History, own: FeedRun.System, ms: seq<Moment>, op: Operation)
    requires ms != [] && OperationOf(h, own, ms[0]) == [op] && !Closes(s, op)
    requires var next := After(h, own, ms[0]);
      && Messages(next.client.received) == Messages(own.client.received) + Mine(Perform(s, op).1, id)
      && SendsTheReceived(Perform(s, op).0, id, h, next, ms[1..])
    ensures SendsTheReceived(s, id, h, own, ms)
  {
    RunNext(h, own, ms);
    var rest := OperationsOf(h, After(h, own, ms[0]), ms[1..]);
    RunOfOne(s, op, rest, id);
    var (t, sent) := Perform(s, op);
    TimedQueue.Regroup(Messages(own.client.received), Mine(sent, id), Mine(BnpFeedsRun.Run(t, rest).1, id));
  }

  lemma OpenNext(s: Subscriptions, h: FeedRun.History, own: FeedRun.System, ms: seq<Moment>, op: Operation)
    requires ms != [] && OperationOf(h, own, ms[0]) == [op] && StaysOpen(s, OperationsOf(h, own, ms))
    ensures !Closes(s, op) && StaysOpen(Perform(s, op).0, OperationsOf(h, After(h, own, ms[0]), ms[1..]))
  {
    var ops, rest := OperationsOf(h, own, ms), OperationsOf(h, After(h, own, ms[0]), ms[1..]);
    assert ops[0] == op && ops[1..] == rest;
  }

  lemma ForeignNext(id: nat, ms: seq<Moment>)
    requires ms != [] && AllForeign(id, ms)
    ensures AllForeign(id, ms[1..]) && (ms[0].Elsewhere? ==> Foreign(id, ms[0].op))
  {
    assert ms[0] in ms;
  }

  lemma {:induction false} RunServes(
      s: Subscriptions, i: nat, h: FeedRun.History, own: FeedRun.System, ms: seq<Moment>)
    requires Valid(s) && i < |s.feeds| && Serves(own, s.feeds[i]) && AllForeign(s.feeds[i].requestId, ms)
    requires StaysOpen(s, OperationsOf(h, own, ms))
    ensures SendsTheReceived(s, s.feeds[i].requestId, h, own, ms)
    decreases |ms|
  {
    var f := s.feeds[i];
    if ms == [] {
      assert Messages(own.client.received) + [] == Messages(own.client.received);
    } else {
      var ops, next := OperationOf(h, own, ms[0]), After(h, own, ms[0]);
      ForeignNext(f.requestId, ms);
      if ops == [] {
        IdleServes(h, own, f, ms[0]);
        assert OperationsOf(h, own, ms) == OperationsOf(h, next, ms[1..]);
        RunServes(s, i, h, next, ms[1..]);
        IdleSends(s, f.requestId, h, own, ms);
      } else {
        var op := ops[0];
        OpenNext(s, h, own, ms, op);
        var t, j := StepOfSession(s, i, op);
        MomentServes(h, own, f, ms[0], op);
        RunServes(t, j, h, next, ms[1..]);
        OneSends(s, f.requestId, h, own, ms, op);
      }
    }
  }

  /**
    A session serves each venue feed's client: from its subscription on, while
    the session stays connected and whatever it does for its other
    subscriptions, the messages it sends under the feed's id are, one by one,
    those the feed's client receives in `FeedRun`, whose theorems say what the
    client then holds.
   */
  lemma SessionServesTheClient(
      s: Subscriptions, id: nat, listing: ListingKey, bids: bool, offers: bool, trades: bool, orders: bool,
      h: FeedRun.History, published: nat, drained: nat, ms: seq<Moment>)
    requires Valid(s) && !Refuses(s, id) && (bids || offers || trades) && AllForeign(id, ms)
    requires var t := Perform(s, SubscribeVenue(id, listing, bids, offers, trades, orders)).0;
      var feed := NewFeed(id, listing, bids, offers, trades, orders);
      StaysOpen(t, OperationsOf(h, FeedRun.Start(feed, published, drained), ms))
    ensures var t := Perform(s, SubscribeVenue(id, listing, bids, offers, trades, orders)).0;
      var own := FeedRun.Start(NewFeed(id, listing, bids, offers, trades, orders), published, drained);
      Mine(BnpFeedsRun.Run(t, OperationsOf(h, own, ms)).1, id)
      == Messages(FeedRun.Run(h, own, StepsOf(ms)).client.received)
  {
    var feed := NewFeed(id, listing, bids, offers, trades, orders);
    var t, own := WithFeed(s, feed), FeedRun.Start(feed, published, drained);
    SubscribeFeedKeeps(s, feed);
    assert t.feeds[|s.feeds|] == feed;
    RunServes(t, |s.feeds|, h, own, ms);
    assert SendsTheReceived(t, id, h, own, ms);
    var sent := Mine(BnpFeedsRun.Run(t, OperationsOf(h, own, ms)).1, id);
    assert Messages(own.client.received) + sent == sent;
  }
}
