/**
  Whole runs of a session's public subscriptions (public_feed.rs,
  bnp_feeds.rs): whatever it subscribes, drops, activates and drains, every
  increment produced reaches the wire entire, and every subscription is served
  as if it were alone.
 */
module BnpFeedsRun {
  import opened Words
  import opened Market
  import opened Feed
  import opened BnpWire
  import opened BnpFeeds
  import Tape
  import Quoting = TapeFeed

  datatype Operation =
    | SubscribeVenue(id: nat, listing: ListingKey, bids: bool, offers: bool, trades: bool, orders: bool)
    | SubscribeTape(id: nat, instrument: nat, tapeUp: bool)
    | Unsubscribe(id: nat)
    | OnCommitted(batch: Committed)
    | DrainTape(drained: Option<seq<Tape.Record>>)
    | ActivateAfter(id: nat, publishedBefore: nat, last: nat)
    | SendTime(id: nat, proposed: nat)

  /** Whether an operation disconnects the session. */
  predicate Closes(s: Subscriptions, op: Operation) {
    match op
    case OnCommitted(b) => AnyOverflows(s.feeds, b)
    case DrainTape(drained) => s.tapes != [] && (drained.None? || !Drains(s.tapes, drained.value))
    case _ => false
  }

  /** The subscriptions after an operation and the increments it produced. */
  function Perform(s: Subscriptions, op: Operation): (Subscriptions, seq<FeedMessage>) {
    match op
    case SubscribeVenue(id, listing, bids, offers, trades, orders) =>
      (if Refuses(s, id) || !(bids || offers || trades) then s
       else WithFeed(s, NewFeed(id, listing, bids, offers, trades, orders)), [])
    case SubscribeTape(id, instrument, tapeUp) =>
      (if Refuses(s, id) || (s.tapes == [] && !tapeUp) then s else WithTape(s, id, instrument), [])
    case Unsubscribe(id) => (Without(s, id), [])
    case OnCommitted(b) => (s.(feeds := BatchFeeds(s.feeds, b)), BatchMessages(s.feeds, b))
    case DrainTape(drained) =>
      var (tapes, ms) := DrainedTapes(s.tapes, Waiting(drained));
      (s.(tapes := tapes), ms)
    case ActivateAfter(id, publishedBefore, last) => Activated(s, id, publishedBefore, last)
    case SendTime(id, proposed) => (Timed(s, id, proposed).0, [])
  }

  /** A run until it ends or the session disconnects: what was produced, and what was put on the wire. */
  function Run(s: Subscriptions, ops: seq<Operation>): (Subscriptions, seq<FeedMessage>, seq<WireMessage>)
    decreases |ops|
  {
    if ops == [] || Closes(s, ops[0]) then (s, [], [])
    else
      var (t, ms) := Perform(s, ops[0]);
      var (u, more, wire) := Run(t, ops[1..]);
      (u, ms + more, EncodeAll(t.kinds, ms) + wire)
  }

  // ----- Nothing produced is lost on the way to the wire -------------------

  /** What the tape hands a session is what its processor published. */
  ghost predicate FromTheTape(op: Operation) {
    op.DrainTape? ==> AllPublished(Waiting(op.drained))
  }

  ghost predicate AllPublished(rs: seq<Tape.Record>) {
    forall r :: r in rs ==> Published(r)
  }

  /** A waiting feed holds records of its instrument that the processor published. */
  ghost predicate Awaits(f: TapeSubscription) {
    AllPublished(Waiting(f.pending)) && forall r :: r in Waiting(f.pending) ==> r.instrument == f.instrument
  }

  ghost predicate Buffered(tapes: seq<TapeSubscription>) {
    forall f :: f in tapes ==> Awaits(f)
  }

  lemma BatchCarried(feeds: seq<DirectFeed>, kinds: map<nat, Kind>, b: Committed, m: FeedMessage)
    requires FeedKinds(feeds, kinds) && m in BatchMessages(feeds, b)
    ensures Carried(kinds, m)
  {
    var i := PoolOrigin(BatchParts(feeds, b), m);
    assert feeds[i] in feeds && m in OnBatch(feeds[i], b).1;
    WireKeepsNumberedEntries(feeds[i], b);
  }

  lemma RecordCarried(tapes: seq<TapeSubscription>, kinds: map<nat, Kind>, r: Tape.Record, m: FeedMessage)
    requires TapeKinds(tapes, kinds) && Published(r) && m in RecordMessages(tapes, r)
    ensures Carried(kinds, m)
  {
    var i := PoolOrigin(RecordParts(tapes, r), m);
    assert tapes[i] in tapes && m in OnRecord(tapes[i], r).1;
    PublishedFits(r);
  }

  lemma RecordBuffered(tapes: seq<TapeSubscription>, r: Tape.Record)
    requires Buffered(tapes) && Published(r)
    ensures Buffered(RecordFeeds(tapes, r))
  {
    var ts := RecordFeeds(tapes, r);
    forall i | 0 <= i < |ts| ensures Awaits(ts[i]) {
      assert tapes[i] in tapes;
    }
  }

  lemma RecordKinds(tapes: seq<TapeSubscription>, kinds: map<nat, Kind>, r: Tape.Record)
    requires TapeKinds(tapes, kinds)
    ensures TapeKinds(RecordFeeds(tapes, r), kinds)
  {
    var ts := RecordFeeds(tapes, r);
    forall i | 0 <= i < |ts|
      ensures ts[i].requestId in kinds && kinds[ts[i].requestId] == TapeOf(ts[i].instrument)
    {
      assert tapes[i] in tapes;
    }
  }

  lemma {:induction false} DrainCarried(tapes: seq<TapeSubscription>, kinds: map<nat, Kind>, rs: seq<Tape.Record>)
    requires TapeKinds(tapes, kinds) && Buffered(tapes) && AllPublished(rs)
    ensures var (ts, ms) := DrainedTapes(tapes, rs);
      TapeKinds(ts, kinds) && Buffered(ts) && forall m :: m in ms ==> Carried(kinds, m)
    decreases |rs|
  {
    if rs != [] {
      var front, r := rs[..|rs| - 1], rs[|rs| - 1];
      assert r in rs;
      DrainCarried(tapes, kinds, front);
      var before := DrainedTapes(tapes, front).0;
      RecordBuffered(before, r);
      RecordKinds(before, kinds, r);
      forall m | m in RecordMessages(before, r) ensures Carried(kinds, m) {
        RecordCarried(before, kinds, r, m);
      }
    }
  }

  lemma {:induction false} ApplyAllCarried(f: DirectFeed, kinds: map<nat, Kind>, bs: seq<Committed>, m: FeedMessage)
    requires f.requestId in kinds && kinds[f.requestId] == KindOf(f) && m in ApplyAll(f, bs).1
    ensures Carried(kinds, m)
    decreases |bs|
  {
    var (g, first) := Apply(f, bs[0]);
    if first.Some? && m == first.value {
      WireKeepsNumberedEntries(f, bs[0]);
    } else {
      ApplyAllCarried(g, kinds, bs[1..], m);
    }
  }

  lemma {:induction false} RecordsAfterHas(rs: seq<Tape.Record>, last: nat)
    ensures forall r :: r in RecordsAfter(rs, last) <==> r in rs && r.firstReport > last
  {
    if rs != [] {
      RecordsAfterHas(rs[..|rs| - 1], last);
      assert rs == rs[..|rs| - 1] + [rs[|rs| - 1]];
    }
  }

  lemma TapeMessagesCarried(f: TapeSubscription, kinds: map<nat, Kind>, rs: seq<Tape.Record>, m: FeedMessage)
    requires f.requestId in kinds && kinds[f.requestId] == TapeOf(f.instrument)
    requires AllPublished(rs) && (forall r :: r in rs ==> r.instrument == f.instrument) && m in TapeMessages(f, rs)
    ensures Carried(kinds, m)
  {
    var i :| 0 <= i < |rs| && m == TapeMessage(f, rs[i]);
    assert rs[i] in rs;
    PublishedFits(rs[i]);
  }

  /** What was buffered before a snapshot reply goes out entire too. */
  lemma ActivatedCarried(s: Subscriptions, id: nat, publishedBefore: nat, last: nat, m: FeedMessage)
    requires Valid(s) && Buffered(s.tapes) && m in Activated(s, id, publishedBefore, last).1
    ensures Carried(s.kinds, m)
  {
    var t, i := TapeAt(s.tapes, id), FeedAt(s.feeds, id);
    if t < |s.tapes| {
      var f := s.tapes[t];
      assert f in s.tapes;
      RecordsAfterHas(Waiting(f.pending), last);
      TapeMessagesCarried(f, s.kinds, RecordsAfter(Waiting(f.pending), last), m);
    } else {
      var f := s.feeds[i];
      assert f in s.feeds;
      ApplyAllCarried(f.(pending := None), s.kinds, From(Waiting(f.pending), publishedBefore), m);
    }
  }

  lemma ActivatedBuffered(s: Subscriptions, id: nat, publishedBefore: nat, last: nat)
    requires Buffered(s.tapes)
    ensures Buffered(Activated(s, id, publishedBefore, last).0.tapes)
  {
    var t := TapeAt(s.tapes, id);
    if t < |s.tapes| {
      var ts := Activated(s, id, publishedBefore, last).0.tapes;
      forall i | 0 <= i < |ts| ensures Awaits(ts[i]) {
        assert s.tapes[i] in s.tapes;
      }
    }
  }

  lemma TimedBuffered(s: Subscriptions, id: nat, proposed: nat)
    requires Buffered(s.tapes)
    ensures Buffered(Timed(s, id, proposed).0.tapes)
  {
    var ts := Timed(s, id, proposed).0.tapes;
    forall i | 0 <= i < |ts| ensures Awaits(ts[i]) {
      assert s.tapes[i] in s.tapes;
    }
  }

  lemma SubscriptionsBuffered(s: Subscriptions, op: Operation)
    requires Buffered(s.tapes) && (op.SubscribeVenue? || op.SubscribeTape? || op.Unsubscribe?)
    ensures Buffered(Perform(s, op).0.tapes)
  {
    if op.Unsubscribe? {
      DropTapeIs(s.tapes, op.id);
    }
  }

  /** Every operation keeps the session's subscriptions in order. */
  lemma PerformKeeps(s: Subscriptions, op: Operation)
    requires Valid(s)
    ensures var t := Perform(s, op).0; Valid(t)
  {
    match op
    case SubscribeVenue(id, listing, bids, offers, trades, orders) =>
      if !Refuses(s, id) {
        SubscribeFeedKeeps(s, NewFeed(id, listing, bids, offers, trades, orders));
      }
    case SubscribeTape(id, instrument, _) =>
      if !Refuses(s, id) {
        SubscribeTapeKeeps(s, id, instrument);
      }
    case Unsubscribe(id) => UnsubscribeKeeps(s, id);
    case OnCommitted(b) => BatchKeeps(s, b);
    case DrainTape(drained) => DrainKeeps(s, Waiting(drained));
    case ActivateAfter(id, publishedBefore, last) => ActivateKeeps(s, id, publishedBefore, last);
    case SendTime(id, proposed) => TimedKeeps(s, id, proposed);
  }

  lemma PerformBuffers(s: Subscriptions, op: Operation)
    requires Valid(s) && Buffered(s.tapes) && FromTheTape(op)
    ensures Buffered(Perform(s, op).0.tapes)
  {
    match op
    case DrainTape(drained) => DrainCarried(s.tapes, s.kinds, Waiting(drained));
    case ActivateAfter(id, publishedBefore, last) => ActivatedBuffered(s, id, publishedBefore, last);
    case SendTime(id, proposed) => TimedBuffered(s, id, proposed);
    case OnCommitted(_) =>
    case _ => SubscriptionsBuffered(s, op);
  }

  lemma PerformCarries(s: Subscriptions, op: Operation)
    requires Valid(s) && Buffered(s.tapes) && FromTheTape(op)
    ensures var (t, ms) := Perform(s, op); EachCarried(EncodeAll(t.kinds, ms), ms)
  {
    var (t, ms) := Perform(s, op);
    forall m | m in ms ensures Carried(t.kinds, m) {
      match op
      case OnCommitted(b) => BatchCarried(s.feeds, s.kinds, b, m);
      case DrainTape(drained) => DrainCarried(s.tapes, s.kinds, Waiting(drained));
      case ActivateAfter(id, publishedBefore, last) => ActivatedCarried(s, id, publishedBefore, last, m);
      case _ =>
    }
    EncodeAllCarries(t.kinds, ms);
  }

  /**
    Over every run of the session's operations each increment produced is on
    the wire, in order, with its first report number and an entry for every
    number it took.
   */
  lemma {:induction false} NoNumberedEntryIsDropped(s: Subscriptions, ops: seq<Operation>)
    requires Valid(s) && Buffered(s.tapes) && forall op :: op in ops ==> FromTheTape(op)
    ensures var (t, ms, wire) := Run(s, ops); Valid(t) && Buffered(t.tapes) && EachCarried(wire, ms)
    decreases |ops|
  {
    if ops != [] && !Closes(s, ops[0]) {
      assert FromTheTape(ops[0]);
      PerformKeeps(s, ops[0]);
      PerformBuffers(s, ops[0]);
      PerformCarries(s, ops[0]);
      NoNumberedEntryIsDropped(Perform(s, ops[0]).0, ops[1..]);
    }
  }

  // ----- Every subscription is served as if it were alone ------------------

  /** What an operation does to one feed that stays subscribed. */
  function Alone(f: DirectFeed, op: Operation): (DirectFeed, seq<FeedMessage>) {
    match op
    case OnCommitted(b) => OnBatch(f, b)
    case ActivateAfter(id, publishedBefore, _) => if id == f.requestId then Activate(f, publishedBefore) else (f, [])
    case SendTime(id, proposed) =>
      (if id == f.requestId then f.(lastSendUs := Max(f.lastSendUs, proposed)) else f, [])
    case _ => (f, [])
  }

  function AllAlone(f: DirectFeed, ops: seq<Operation>): (DirectFeed, seq<FeedMessage>)
    decreases |ops|
  {
    if ops == [] then (f, [])
    else
      var (g, ms) := Alone(f, ops[0]);
      var (h, more) := AllAlone(g, ops[1..]);
      (h, ms + more)
  }

  /** The session does not disconnect during the run. */
  predicate StaysOpen(s: Subscriptions, ops: seq<Operation>)
    decreases |ops|
  {
    ops == [] || (!Closes(s, ops[0]) && StaysOpen(Perform(s, ops[0]).0, ops[1..]))
  }

  lemma {:induction false} DrainedForTapes(tapes: seq<TapeSubscription>, rs: seq<Tape.Record>, id: nat)
    requires id !in TapeIds(tapes)
    ensures Mine(DrainedTapes(tapes, rs).1, id) == []
    decreases |rs|
  {
    if rs != [] {
      var front, r := rs[..|rs| - 1], rs[|rs| - 1];
      var (before, ms) := DrainedTapes(tapes, front);
      DrainedForTapes(tapes, front, id);
      DrainedIds(tapes, front);
      PoolOfOthers(RecordParts(before, r), TapeIds(tapes), id);
      MineConcat(ms, RecordMessages(before, r), id);
    }
  }

  lemma {:induction false} ApplyAllOwned(f: DirectFeed, bs: seq<Committed>)
    ensures Owned(ApplyAll(f, bs).1, f.requestId)
    decreases |bs|
  {
    if bs != [] {
      ApplyAllOwned(Apply(f, bs[0]).0, bs[1..]);
    }
  }

  /** A subscription is found where it is. */
  lemma Located(s: Subscriptions, i: nat)
    requires Valid(s) && i < |s.feeds|
    ensures FeedAt(s.feeds, s.feeds[i].requestId) == i
    ensures TapeAt(s.tapes, s.feeds[i].requestId) == |s.tapes|
    ensures s.feeds[i].requestId !in TapeIds(s.tapes)
  {
    var id := s.feeds[i].requestId;
    assert HasFeed(s.feeds, id);
    var j, t := FeedAt(s.feeds, id), TapeAt(s.tapes, id);
    if t < |s.tapes| {
      assert HasTape(s.tapes, id);
    }
    forall k | 0 <= k < |s.tapes| ensures s.tapes[k].requestId != id {
      if s.tapes[k].requestId == id {
        assert HasTape(s.tapes, id);
      }
    }
  }

  lemma ActivatedAlone(s: Subscriptions, i: nat, id: nat, publishedBefore: nat, last: nat)
    requires Valid(s) && i < |s.feeds|
    ensures var (t, ms) := Activated(s, id, publishedBefore, last);
      var (g, own) := Alone(s.feeds[i], ActivateAfter(id, publishedBefore, last));
      g in t.feeds && Mine(ms, s.feeds[i].requestId) == own
  {
    var f := s.feeds[i];
    var (t, ms) := Activated(s, id, publishedBefore, last);
    Located(s, i);
    var j := FeedAt(s.feeds, id);
    assert TapeAt(s.tapes, id) == |s.tapes| && j < |s.feeds| ==> Owned(ms, id) by {
      if j < |s.feeds| {
        ApplyAllOwned(s.feeds[j].(pending := None), From(Waiting(s.feeds[j].pending), publishedBefore));
      }
    }
    MineOwned(ms, id, f.requestId);
    assert if id == f.requestId then t.feeds[i] == Activate(f, publishedBefore).0 else t.feeds[i] == f;
  }

  lemma {:induction false} PerformAlone(s: Subscriptions, i: nat, op: Operation)
    requires Valid(s) && i < |s.feeds| && op != Unsubscribe(s.feeds[i].requestId)
    ensures var (t, ms) := Perform(s, op);
      var (g, own) := Alone(s.feeds[i], op);
      g in t.feeds && Mine(ms, s.feeds[i].requestId) == own
  {
    var f := s.feeds[i];
    var t := Perform(s, op).0;
    Located(s, i);
    match op
    case SubscribeVenue(_, _, _, _, _, _) => assert f in t.feeds;
    case SubscribeTape(_, _, _) =>
    case Unsubscribe(id) => DropFeedIs(s.feeds, id);
    case OnCommitted(b) =>
      EachFeedIsServedAlone(s.feeds, b, i);
      assert t.feeds[i] == OnBatch(f, b).0;
    case DrainTape(drained) => DrainedForTapes(s.tapes, Waiting(drained), f.requestId);
    case ActivateAfter(id, publishedBefore, last) => ActivatedAlone(s, i, id, publishedBefore, last);
    case SendTime(id, proposed) => assert t.feeds[i] == Alone(f, op).0;
  }

  /**
    Over every run in which the session stays connected, a feed that stays
    subscribed is served, message for message, as if it were alone.
   */
  lemma {:induction false} EachFeedRunsAlone(s: Subscriptions, i: nat, ops: seq<Operation>)
    requires Valid(s) && i < |s.feeds| && StaysOpen(s, ops) && Unsubscribe(s.feeds[i].requestId) !in ops
    ensures var (t, ms, _) := Run(s, ops);
      var (g, own) := AllAlone(s.feeds[i], ops);
      g in t.feeds && Mine(ms, s.feeds[i].requestId) == own
    decreases |ops|
  {
    if ops != [] {
      var f, op := s.feeds[i], ops[0];
      var (t, ms) := Perform(s, op);
      PerformKeeps(s, op);
      PerformAlone(s, i, op);
      AloneSame(f, op);
      var j :| 0 <= j < |t.feeds| && t.feeds[j] == Alone(f, op).0;
      EachFeedRunsAlone(t, j, ops[1..]);
      MineConcat(ms, Run(t, ops[1..]).1, f.requestId);
    }
  }

  lemma AloneSame(f: DirectFeed, op: Operation)
    ensures Alone(f, op).0.requestId == f.requestId
  {
    match op
    case ActivateAfter(_, publishedBefore, _) =>
      ApplyAllSame(f.(pending := None), From(Waiting(f.pending), publishedBefore));
    case OnCommitted(b) => OnBatchSame(f, b);
    case _ =>
  }

  // ----- The consolidated feed of the session and of the tape's client -----

  /** The session's subscription is the feed whose client `TapeFeed` follows. */
  ghost predicate Follows(f: TapeSubscription, g: Quoting.Feed) {
    && f.instrument == g.instrument && f.after == g.after && (f.pending.Some? <==> g.pending.Some?)
    && (g.pending.Some? ==> f.pending.value == Quoting.RecordsSent(g.pending.value))
  }

  /** A new consolidated subscription is that feed at its start. */
  lemma NewTapeFollows(id: nat, instrument: nat, published: nat, drained: nat)
    ensures Follows(NewTape(id, instrument), Quoting.Start(instrument, published, drained).feed)
  {
    assert Quoting.RecordsSent([]) == [];
  }

  /** The records one drain lets through to the client of an active feed. */
  function Through(h: Quoting.History, s: Quoting.System): seq<Quoting.Sent>
    requires s.drained < |h.events| && s.drained < |h.records|
  {
    Quoting.Listed(Quoting.Passes(Quoting.SentBy(h, s.feed.instrument, s.drained), s.feed.after))
  }

  /** The messages are the records, one by one: from the hub, when they were published there. */
  ghost predicate SayRecords(ms: seq<FeedMessage>, id: nat, rs: seq<Tape.Record>) {
    && |ms| == |rs|
    && forall i | 0 <= i < |rs| ::
         && ms[i].source == Hub && ms[i].availableUs == rs[i].hubUs && ms[i].requestId == id
         && ms[i].firstReport == rs[i].firstReport && ms[i].entries == rs[i].entries
  }

  /** A single record drained is that record on the feed. */
  lemma DrainedOne(f: TapeSubscription, rs: seq<Tape.Record>)
    requires |rs| == 1
    ensures DrainedAlone(f, rs).0 == OnRecord(f, rs[0]).0 && DrainedAlone(f, rs).1 == OnRecord(f, rs[0]).1
    ensures Drains([f], rs) <==> !TapeOverflows(f, rs[0])
  {
    assert rs[..0] == [];
    assert DrainedAlone([f][0], rs[..0]).0 == f;
  }

  /** An event's records are the feed's exactly when they name its instrument. */
  lemma SentByIs(h: Quoting.History, i: nat, n: nat)
    requires Quoting.Shaped(h) && n < |h.events| && Quoting.Applies(h, n)
    ensures |h.records[n]| <= 1
    ensures Quoting.SentBy(h, i, n)
         == if h.records[n] != [] && h.records[n][0].instrument == i
            then Some(Quoting.Sent(n, h.records[n][0])) else None
  {
  }

  lemma ReceivedOne(c: Quoting.Client, m: Option<Quoting.Sent>)
    ensures Quoting.ReceiveAll(c, Quoting.Listed(m)) == Quoting.ReceiveOne(c, m)
  {
    if m.Some? {
      var ms := [m.value];
      assert ms[..0] == [];
      assert Quoting.ReceiveAll(c, ms[..0]) == c;
    }
  }

  /** The records of one event, drained by the session: those of the feed's instrument and no others. */
  lemma DrainedEvent(f: TapeSubscription, rs: seq<Tape.Record>)
    requires |rs| <= 1
    ensures var own := rs != [] && rs[0].instrument == f.instrument;
      && (Drains([f], rs) <==> !(own && TapeOverflows(f, rs[0])))
      && DrainedAlone(f, rs).0 == (if own then OnRecord(f, rs[0]).0 else f)
      && DrainedAlone(f, rs).1 == (if own then OnRecord(f, rs[0]).1 else [])
  {
    if rs != [] {
      DrainedOne(f, rs);
    }
  }

  /** A waiting subscription takes the record of an event, if it is of its instrument, last in its buffer. */
  lemma BufferOne(f: TapeSubscription, g: Quoting.Feed, rs: seq<Tape.Record>, m: Option<Quoting.Sent>)
    requires Follows(f, g) && g.pending.Some? && |rs| <= 1
    requires m.Some? <==> rs != [] && rs[0].instrument == f.instrument
    requires m.Some? ==> m.value.record == rs[0]
    ensures Drains([f], rs) <==> m.None? || |g.pending.value| < MAX_BUFFERED_BATCHES
    ensures Follows(DrainedAlone(f, rs).0, g.(pending := Some(g.pending.value + Quoting.Listed(m))))
    ensures DrainedAlone(f, rs).1 == []
  {
    DrainedEvent(f, rs);
    var buffer := g.pending.value;
    if m.Some? {
      assert Quoting.RecordsSent(buffer + [m.value]) == Quoting.RecordsSent(buffer) + [rs[0]];
    } else {
      assert buffer + [] == buffer;
    }
  }

  /** A waiting feed buffers, or disconnects, as the session's subscription does. */
  lemma BufferAgrees(h: Quoting.History, s: Quoting.System, f: TapeSubscription)
    requires Quoting.Shaped(h) && s.drained < |h.events| && Quoting.Applies(h, s.drained)
    requires !s.closed && s.feed.pending.Some? && Follows(f, s.feed)
    ensures var rs, t := h.records[s.drained], Quoting.DrainNext(h, s);
      && (t.closed <==> !Drains([f], rs))
      && (!t.closed ==> Follows(DrainedAlone(f, rs).0, t.feed))
      && DrainedAlone(f, rs).1 == [] && t.client == s.client
  {
    SentByIs(h, f.instrument, s.drained);
    BufferOne(f, s.feed, h.records[s.drained], Quoting.SentBy(h, f.instrument, s.drained));
  }

  /** An active feed sends what the session's subscription sends. */
  lemma SendAgrees(h: Quoting.History, s: Quoting.System, f: TapeSubscription)
    requires Quoting.Shaped(h) && s.drained < |h.events| && Quoting.Applies(h, s.drained)
    requires !s.closed && s.feed.pending.None? && Follows(f, s.feed)
    ensures var rs, t := h.records[s.drained], Quoting.DrainNext(h, s);
      && !t.closed && Drains([f], rs) && Follows(DrainedAlone(f, rs).0, t.feed)
      && SayRecords(DrainedAlone(f, rs).1, f.requestId, Quoting.RecordsSent(Through(h, s)))
      && t.client == Quoting.ReceiveAll(s.client, Through(h, s))
  {
    SentByIs(h, f.instrument, s.drained);
    DrainedEvent(f, h.records[s.drained]);
    ReceivedOne(s.client, Quoting.Passes(Quoting.SentBy(h, f.instrument, s.drained), s.feed.after));
  }

  lemma {:induction false} FollowingAgrees(ms: seq<Quoting.Sent>, last: nat)
    ensures Quoting.RecordsSent(Quoting.Following(ms, last)) == RecordsAfter(Quoting.RecordsSent(ms), last)
  {
    if ms != [] {
      var n := |ms| - 1;
      FollowingAgrees(ms[..n], last);
      assert Quoting.RecordsSent(ms)[..n] == Quoting.RecordsSent(ms[..n]);
      var m := ms[n];
      assert Quoting.Following(ms, last)
          == Quoting.Following(ms[..n], last) + Quoting.Listed(Quoting.Passes(Some(m), last));
    }
  }

  /** So is the reply: the same buffered records follow the snapshot. */
  lemma JoinAgrees(h: Quoting.History, s: Quoting.System, f: TapeSubscription)
    requires s.snapshot.Some? && s.snapshot.value < |h.states| && s.feed.pending.Some? && Follows(f, s.feed)
    ensures var last := Quoting.Last(h, f.instrument, s.snapshot.value);
      var through := Quoting.Following(s.feed.pending.value, last);
      && Follows(f.(pending := None, after := last), Quoting.Join(h, s).feed)
      && SayRecords(TapeMessages(f, RecordsAfter(Waiting(f.pending), last)), f.requestId, Quoting.RecordsSent(through))
      && Quoting.Join(h, s).client
         == Quoting.ReceiveAll(Quoting.SnapshotClient(h, f.instrument, s.snapshot.value), through)
  {
    FollowingAgrees(s.feed.pending.value, Quoting.Last(h, f.instrument, s.snapshot.value));
  }
}
