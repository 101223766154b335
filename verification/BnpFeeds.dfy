/**
  One session's public subscriptions (public_feed.rs, PublicFeeds; bnp_feeds.rs):
  every feed of the session is served as if it were alone, and over everything
  the session can do no numbered entry is lost on its way to the wire.
 */
module BnpFeeds {
  import opened Words
  import opened Market
  import opened Book
  import opened Feed
  import opened BnpWire
  import TimedQueue
  import Tape

  datatype TapeSubscription = TapeSubscription(
    requestId: nat, instrument: nat, pending: Option<seq<Tape.Record>>, after: nat, lastSendUs: nat)

  /** The session's subscriptions; it listens to the tape while it has a consolidated feed. */
  datatype Subscriptions = Subscriptions(
    feeds: seq<DirectFeed>, tapes: seq<TapeSubscription>, kinds: map<nat, Kind>, listening: bool)

  const MAX_FEEDS_PER_SESSION: nat := 32
  const NO_SUBSCRIPTIONS := Subscriptions([], [], map[], false)

  predicate HasFeed(feeds: seq<DirectFeed>, id: nat) {
    exists i | 0 <= i < |feeds| :: feeds[i].requestId == id
  }

  predicate HasTape(tapes: seq<TapeSubscription>, id: nat) {
    exists i | 0 <= i < |tapes| :: tapes[i].requestId == id
  }

  /** Whether a new subscription with this id cannot start. */
  predicate Refuses(s: Subscriptions, id: nat) {
    HasFeed(s.feeds, id) || HasTape(s.tapes, id) || |s.feeds| + |s.tapes| >= MAX_FEEDS_PER_SESSION
  }

  function NewFeed(id: nat, listing: ListingKey, bids: bool, offers: bool, trades: bool, orders: bool): DirectFeed {
    DirectFeed(id, listing, bids, offers, trades, if orders then ByOrder else ByLevel, 1, Some([]), 0)
  }

  function NewTape(id: nat, instrument: nat): TapeSubscription {
    TapeSubscription(id, instrument, Some([]), 0, 0)
  }

  function WithFeed(s: Subscriptions, f: DirectFeed): Subscriptions {
    s.(feeds := s.feeds + [f], kinds := s.kinds[f.requestId := KindOf(f)])
  }

  function WithTape(s: Subscriptions, id: nat, instrument: nat): Subscriptions {
    s.(tapes := s.tapes + [NewTape(id, instrument)], kinds := s.kinds[id := TapeOf(instrument)], listening := true)
  }

  function DropFeed(feeds: seq<DirectFeed>, id: nat): seq<DirectFeed> {
    if feeds == [] then []
    else
      var last := feeds[|feeds| - 1];
      DropFeed(feeds[..|feeds| - 1], id) + if last.requestId == id then [] else [last]
  }

  function DropTape(tapes: seq<TapeSubscription>, id: nat): seq<TapeSubscription> {
    if tapes == [] then []
    else
      var last := tapes[|tapes| - 1];
      DropTape(tapes[..|tapes| - 1], id) + if last.requestId == id then [] else [last]
  }

  function Without(s: Subscriptions, id: nat): Subscriptions {
    var tapes := DropTape(s.tapes, id);
    Subscriptions(DropFeed(s.feeds, id), tapes, s.kinds - {id}, s.listening && tapes != [])
  }

  // ----- What every operation keeps ----------------------------------------

  ghost predicate DistinctFeeds(feeds: seq<DirectFeed>) {
    forall i, j | 0 <= i < j < |feeds| :: feeds[i].requestId != feeds[j].requestId
  }

  ghost predicate DistinctTapes(tapes: seq<TapeSubscription>) {
    forall i, j | 0 <= i < j < |tapes| :: tapes[i].requestId != tapes[j].requestId
  }

  ghost predicate FeedKinds(feeds: seq<DirectFeed>, kinds: map<nat, Kind>) {
    forall f :: f in feeds ==> f.requestId in kinds && kinds[f.requestId] == KindOf(f)
  }

  ghost predicate TapeKinds(tapes: seq<TapeSubscription>, kinds: map<nat, Kind>) {
    forall f :: f in tapes ==> f.requestId in kinds && kinds[f.requestId] == TapeOf(f.instrument)
  }

  /** Ids are used once, the limit holds, and the kinds map says of each subscription what it is. */
  ghost predicate Valid(s: Subscriptions) {
    && DistinctFeeds(s.feeds) && DistinctTapes(s.tapes)
    && (forall id: nat :: !(HasFeed(s.feeds, id) && HasTape(s.tapes, id)))
    && |s.feeds| + |s.tapes| <= MAX_FEEDS_PER_SESSION
    && FeedKinds(s.feeds, s.kinds) && TapeKinds(s.tapes, s.kinds)
    && (forall id :: id in s.kinds ==> HasFeed(s.feeds, id) || HasTape(s.tapes, id))
    && (s.listening <==> s.tapes != [])
  }

  lemma FeedAdded(feeds: seq<DirectFeed>, f: DirectFeed, id: nat)
    ensures HasFeed(feeds + [f], id) <==> HasFeed(feeds, id) || id == f.requestId
  {
    var all := feeds + [f];
    assert all[|feeds|] == f;
    if HasFeed(feeds, id) {
      var i :| 0 <= i < |feeds| && feeds[i].requestId == id;
      assert all[i].requestId == id;
    }
  }

  lemma TapeAdded(tapes: seq<TapeSubscription>, f: TapeSubscription, id: nat)
    ensures HasTape(tapes + [f], id) <==> HasTape(tapes, id) || id == f.requestId
  {
    var all := tapes + [f];
    assert all[|tapes|] == f;
    if HasTape(tapes, id) {
      var i :| 0 <= i < |tapes| && tapes[i].requestId == id;
      assert all[i].requestId == id;
    }
  }

  /** A new kind under an unused id changes no subscription's kind. */
  lemma KindAdded(s: Subscriptions, id: nat, kind: Kind)
    requires FeedKinds(s.feeds, s.kinds) && TapeKinds(s.tapes, s.kinds)
    requires !HasFeed(s.feeds, id) && !HasTape(s.tapes, id)
    ensures FeedKinds(s.feeds, s.kinds[id := kind]) && TapeKinds(s.tapes, s.kinds[id := kind])
  {
    forall f | f in s.feeds ensures f.requestId != id {
      var i :| 0 <= i < |s.feeds| && s.feeds[i] == f;
    }
    forall f | f in s.tapes ensures f.requestId != id {
      var i :| 0 <= i < |s.tapes| && s.tapes[i] == f;
    }
  }

  lemma SubscribeFeedKeeps(s: Subscriptions, f: DirectFeed)
    requires Valid(s) && !Refuses(s, f.requestId)
    ensures var t := WithFeed(s, f); Valid(t)
  {
    KindAdded(s, f.requestId, KindOf(f));
    forall id: nat ensures HasFeed(s.feeds + [f], id) <==> HasFeed(s.feeds, id) || id == f.requestId {
      FeedAdded(s.feeds, f, id);
    }
  }

  lemma SubscribeTapeKeeps(s: Subscriptions, id: nat, instrument: nat)
    requires Valid(s) && !Refuses(s, id)
    ensures var t := WithTape(s, id, instrument); Valid(t)
  {
    var f := NewTape(id, instrument);
    KindAdded(s, id, TapeOf(instrument));
    forall other: nat ensures HasTape(s.tapes + [f], other) <==> HasTape(s.tapes, other) || other == id {
      TapeAdded(s.tapes, f, other);
    }
  }

  lemma {:induction false} DropFeedIs(feeds: seq<DirectFeed>, id: nat)
    ensures forall f :: f in DropFeed(feeds, id) <==> f in feeds && f.requestId != id
    ensures |DropFeed(feeds, id)| <= |feeds|
  {
    if feeds != [] {
      var front, last := feeds[..|feeds| - 1], feeds[|feeds| - 1];
      DropFeedIs(front, id);
      assert feeds == front + [last];
    }
  }

  lemma {:induction false} DropFeedDistinct(feeds: seq<DirectFeed>, id: nat)
    requires DistinctFeeds(feeds)
    ensures DistinctFeeds(DropFeed(feeds, id))
  {
    if feeds != [] {
      var front, last := feeds[..|feeds| - 1], feeds[|feeds| - 1];
      DropFeedDistinct(front, id);
      DropFeedIs(front, id);
      var r := DropFeed(front, id);
      forall i | 0 <= i < |r| ensures r[i].requestId != last.requestId {
        assert r[i] in front;
        var j :| 0 <= j < |front| && front[j] == r[i];
        assert feeds[j] == r[i];
      }
    }
  }

  lemma {:induction false} DropTapeIs(tapes: seq<TapeSubscription>, id: nat)
    ensures forall f :: f in DropTape(tapes, id) <==> f in tapes && f.requestId != id
    ensures |DropTape(tapes, id)| <= |tapes|
  {
    if tapes != [] {
      var front, last := tapes[..|tapes| - 1], tapes[|tapes| - 1];
      DropTapeIs(front, id);
      assert tapes == front + [last];
    }
  }

  lemma {:induction false} DropTapeDistinct(tapes: seq<TapeSubscription>, id: nat)
    requires DistinctTapes(tapes)
    ensures DistinctTapes(DropTape(tapes, id))
  {
    if tapes != [] {
      var front, last := tapes[..|tapes| - 1], tapes[|tapes| - 1];
      DropTapeDistinct(front, id);
      DropTapeIs(front, id);
      var r := DropTape(front, id);
      forall i | 0 <= i < |r| ensures r[i].requestId != last.requestId {
        assert r[i] in front;
        var j :| 0 <= j < |front| && front[j] == r[i];
        assert tapes[j] == r[i];
      }
    }
  }

  lemma {:induction false} DropFeedShortens(feeds: seq<DirectFeed>, id: nat)
    ensures |DropFeed(feeds, id)| <= |feeds| && (|DropFeed(feeds, id)| == |feeds| <==> !HasFeed(feeds, id))
  {
    if feeds != [] {
      var front := feeds[..|feeds| - 1];
      DropFeedShortens(front, id);
      assert HasFeed(feeds, id) <==> HasFeed(front, id) || feeds[|feeds| - 1].requestId == id by {
        if HasFeed(front, id) {
          var i :| 0 <= i < |front| && front[i].requestId == id;
          assert feeds[i].requestId == id;
        }
      }
    }
  }

  lemma {:induction false} DropTapeShortens(tapes: seq<TapeSubscription>, id: nat)
    ensures |DropTape(tapes, id)| <= |tapes| && (|DropTape(tapes, id)| == |tapes| <==> !HasTape(tapes, id))
  {
    if tapes != [] {
      var front := tapes[..|tapes| - 1];
      DropTapeShortens(front, id);
      assert HasTape(tapes, id) <==> HasTape(front, id) || tapes[|tapes| - 1].requestId == id by {
        if HasTape(front, id) {
          var i :| 0 <= i < |front| && front[i].requestId == id;
          assert tapes[i].requestId == id;
        }
      }
    }
  }

  lemma HasIs(feeds: seq<DirectFeed>, tapes: seq<TapeSubscription>, id: nat)
    ensures HasFeed(feeds, id) <==> exists f :: f in feeds && f.requestId == id
    ensures HasTape(tapes, id) <==> exists f :: f in tapes && f.requestId == id
  {
    if HasFeed(feeds, id) {
      var i :| 0 <= i < |feeds| && feeds[i].requestId == id;
      assert feeds[i] in feeds;
    }
    if HasTape(tapes, id) {
      var i :| 0 <= i < |tapes| && tapes[i].requestId == id;
      assert tapes[i] in tapes;
    }
  }

  lemma DropHas(feeds: seq<DirectFeed>, tapes: seq<TapeSubscription>, id: nat, other: nat)
    ensures HasFeed(DropFeed(feeds, id), other) <==> HasFeed(feeds, other) && other != id
    ensures HasTape(DropTape(tapes, id), other) <==> HasTape(tapes, other) && other != id
  {
    DropFeedIs(feeds, id);
    DropTapeIs(tapes, id);
    HasIs(feeds, tapes, other);
    HasIs(DropFeed(feeds, id), DropTape(tapes, id), other);
  }

  lemma DropKinds(s: Subscriptions, id: nat)
    requires FeedKinds(s.feeds, s.kinds) && TapeKinds(s.tapes, s.kinds)
    ensures var t := Without(s, id); FeedKinds(t.feeds, t.kinds) && TapeKinds(t.tapes, t.kinds)
  {
    DropFeedIs(s.feeds, id);
    DropTapeIs(s.tapes, id);
  }

  function OtherFeed(id: nat): DirectFeed -> bool {
    (f: DirectFeed) => f.requestId != id
  }

  function OtherTape(id: nat): TapeSubscription -> bool {
    (f: TapeSubscription) => f.requestId != id
  }

  lemma {:induction false} DropFeedFilters(feeds: seq<DirectFeed>, id: nat)
    ensures DropFeed(feeds, id) == TimedQueue.Keep(feeds, OtherFeed(id))
  {
    if feeds != [] {
      var front, last := feeds[..|feeds| - 1], feeds[|feeds| - 1];
      DropFeedFilters(front, id);
      TimedQueue.KeepConcat(front, [last], OtherFeed(id));
      assert feeds == front + [last] && [last][1..] == [];
    }
  }

  lemma {:induction false} DropTapeFilters(tapes: seq<TapeSubscription>, id: nat)
    ensures DropTape(tapes, id) == TimedQueue.Keep(tapes, OtherTape(id))
  {
    if tapes != [] {
      var front, last := tapes[..|tapes| - 1], tapes[|tapes| - 1];
      DropTapeFilters(front, id);
      TimedQueue.KeepConcat(front, [last], OtherTape(id));
      assert tapes == front + [last] && [last][1..] == [];
    }
  }

  /** Frees the id and leaves the other subscriptions as they were, in order. */
  lemma UnsubscribeKeeps(s: Subscriptions, id: nat)
    requires Valid(s)
    ensures var t := Without(s, id);
      && Valid(t) && !HasFeed(t.feeds, id) && !HasTape(t.tapes, id) && id !in t.kinds
      && t.feeds == TimedQueue.Keep(s.feeds, OtherFeed(id)) && t.tapes == TimedQueue.Keep(s.tapes, OtherTape(id))
  {
    var t := Without(s, id);
    DropFeedFilters(s.feeds, id);
    DropTapeFilters(s.tapes, id);
    forall other: nat ensures HasFeed(t.feeds, other) <==> HasFeed(s.feeds, other) && other != id {
      DropHas(s.feeds, s.tapes, id, other);
    }
    forall other: nat ensures HasTape(t.tapes, other) <==> HasTape(s.tapes, other) && other != id {
      DropHas(s.feeds, s.tapes, id, other);
    }
    DropFeedDistinct(s.feeds, id);
    DropTapeDistinct(s.tapes, id);
    DropFeedIs(s.feeds, id);
    DropTapeIs(s.tapes, id);
    DropKinds(s, id);
  }

  // ----- Messages of many subscriptions ------------------------------------

  /** What each subscription produced, in the order they are served. */
  function Pool(parts: seq<seq<FeedMessage>>): seq<FeedMessage> {
    if parts == [] then [] else Pool(parts[..|parts| - 1]) + parts[|parts| - 1]
  }

  /** One subscription's messages among many. */
  function Mine(ms: seq<FeedMessage>, id: nat): seq<FeedMessage> {
    if ms == [] then []
    else
      var last := ms[|ms| - 1];
      Mine(ms[..|ms| - 1], id) + if last.requestId == id then [last] else []
  }

  lemma {:induction false} MineConcat(a: seq<FeedMessage>, b: seq<FeedMessage>, id: nat)
    ensures Mine(a + b, id) == Mine(a, id) + Mine(b, id)
  {
    if b == [] {
      assert a + b == a;
    } else {
      assert (a + b)[..|a + b| - 1] == a + b[..|b| - 1];
      MineConcat(a, b[..|b| - 1], id);
    }
  }

  ghost predicate Owned(part: seq<FeedMessage>, id: nat) {
    forall i | 0 <= i < |part| :: part[i].requestId == id
  }

  lemma {:induction false} MineOwned(part: seq<FeedMessage>, id: nat, other: nat)
    requires Owned(part, id)
    ensures Mine(part, other) == if other == id then part else []
  {
    if part != [] {
      MineOwned(part[..|part| - 1], id, other);
    }
  }

  ghost predicate EachOwned(parts: seq<seq<FeedMessage>>, ids: seq<nat>) {
    |parts| == |ids| && forall i | 0 <= i < |parts| :: Owned(parts[i], ids[i])
  }

  lemma {:induction false} PoolOfOthers(parts: seq<seq<FeedMessage>>, ids: seq<nat>, id: nat)
    requires EachOwned(parts, ids) && id !in ids
    ensures Mine(Pool(parts), id) == []
  {
    if parts != [] {
      var n := |parts| - 1;
      PoolOfOthers(parts[..n], ids[..n], id);
      MineConcat(Pool(parts[..n]), parts[n], id);
      MineOwned(parts[n], ids[n], id);
    }
  }

  /** Under distinct ids every subscription finds exactly its own messages in the pool. */
  lemma {:induction false} PoolKeepsApart(parts: seq<seq<FeedMessage>>, ids: seq<nat>, i: nat)
    requires EachOwned(parts, ids) && i < |ids|
    requires forall j, k | 0 <= j < k < |ids| :: ids[j] != ids[k]
    ensures Mine(Pool(parts), ids[i]) == parts[i]
  {
    var n := |parts| - 1;
    MineConcat(Pool(parts[..n]), parts[n], ids[i]);
    MineOwned(parts[n], ids[n], ids[i]);
    if i < n {
      PoolKeepsApart(parts[..n], ids[..n], i);
    } else {
      PoolOfOthers(parts[..n], ids[..n], ids[i]);
    }
  }

  lemma {:induction false} PoolOrigin(parts: seq<seq<FeedMessage>>, m: FeedMessage) returns (i: nat)
    requires m in Pool(parts)
    ensures i < |parts| && m in parts[i]
  {
    var n := |parts| - 1;
    if m in parts[n] {
      i := n;
    } else {
      i := PoolOrigin(parts[..n], m);
    }
  }

  // ----- One batch for every feed ------------------------------------------

  function FeedIds(feeds: seq<DirectFeed>): seq<nat> {
    seq(|feeds|, i requires 0 <= i < |feeds| => feeds[i].requestId)
  }

  function BatchFeeds(feeds: seq<DirectFeed>, b: Committed): seq<DirectFeed> {
    seq(|feeds|, i requires 0 <= i < |feeds| => OnBatch(feeds[i], b).0)
  }

  function BatchParts(feeds: seq<DirectFeed>, b: Committed): seq<seq<FeedMessage>> {
    seq(|feeds|, i requires 0 <= i < |feeds| => OnBatch(feeds[i], b).1)
  }

  function BatchMessages(feeds: seq<DirectFeed>, b: Committed): seq<FeedMessage> {
    Pool(BatchParts(feeds, b))
  }

  predicate AnyOverflows(feeds: seq<DirectFeed>, b: Committed) {
    exists i | 0 <= i < |feeds| :: Overflows(feeds[i], b)
  }

  /** A feed among others gets exactly what it would get alone, and nobody else's. */
  lemma EachFeedIsServedAlone(feeds: seq<DirectFeed>, b: Committed, i: nat)
    requires DistinctFeeds(feeds) && i < |feeds|
    ensures Mine(BatchMessages(feeds, b), feeds[i].requestId) == OnBatch(feeds[i], b).1
  {
    PoolKeepsApart(BatchParts(feeds, b), FeedIds(feeds), i);
  }

  lemma OnBatchSame(f: DirectFeed, b: Committed)
    ensures OnBatch(f, b).0.requestId == f.requestId && KindOf(OnBatch(f, b).0) == KindOf(f)
  {
  }

  // ----- Tape records for every consolidated feed --------------------------

  predicate TapeOverflows(f: TapeSubscription, r: Tape.Record) {
    f.instrument == r.instrument && f.pending.Some? && |f.pending.value| >= MAX_BUFFERED_BATCHES
  }

  function TapeMessage(f: TapeSubscription, r: Tape.Record): FeedMessage {
    FeedMessage(Hub, r.hubUs, f.requestId, r.firstReport, r.entries)
  }

  /** One record on one consolidated feed: buffered, sent, or already in its snapshot. */
  function OnRecord(f: TapeSubscription, r: Tape.Record): (TapeSubscription, seq<FeedMessage>) {
    if f.instrument != r.instrument then (f, [])
    else match f.pending
      case Some(buffer) => (f.(pending := Some(buffer + [r])), [])
      case None => (f, if r.firstReport > f.after then [TapeMessage(f, r)] else [])
  }

  function TapeIds(tapes: seq<TapeSubscription>): seq<nat> {
    seq(|tapes|, i requires 0 <= i < |tapes| => tapes[i].requestId)
  }

  function RecordFeeds(tapes: seq<TapeSubscription>, r: Tape.Record): seq<TapeSubscription> {
    seq(|tapes|, i requires 0 <= i < |tapes| => OnRecord(tapes[i], r).0)
  }

  function RecordParts(tapes: seq<TapeSubscription>, r: Tape.Record): seq<seq<FeedMessage>> {
    seq(|tapes|, i requires 0 <= i < |tapes| => OnRecord(tapes[i], r).1)
  }

  function RecordMessages(tapes: seq<TapeSubscription>, r: Tape.Record): seq<FeedMessage> {
    Pool(RecordParts(tapes, r))
  }

  /** Records in order, each for every consolidated feed. */
  function DrainedTapes(tapes: seq<TapeSubscription>, rs: seq<Tape.Record>): (seq<TapeSubscription>, seq<FeedMessage>)
    decreases |rs|
  {
    if rs == [] then (tapes, [])
    else
      var (before, ms) := DrainedTapes(tapes, rs[..|rs| - 1]);
      (RecordFeeds(before, rs[|rs| - 1]), ms + RecordMessages(before, rs[|rs| - 1]))
  }

  /** One consolidated feed drained alone. */
  function DrainedAlone(f: TapeSubscription, rs: seq<Tape.Record>): (TapeSubscription, seq<FeedMessage>)
    decreases |rs|
  {
    if rs == [] then (f, [])
    else
      var (before, ms) := DrainedAlone(f, rs[..|rs| - 1]);
      var (after, more) := OnRecord(before, rs[|rs| - 1]);
      (after, ms + more)
  }

  /** No consolidated feed still waiting for its snapshot runs out of buffer. */
  predicate Drains(tapes: seq<TapeSubscription>, rs: seq<Tape.Record>)
    decreases |rs|
  {
    rs == [] ||
    (Drains(tapes, rs[..|rs| - 1])
     && forall i | 0 <= i < |tapes| :: !TapeOverflows(DrainedAlone(tapes[i], rs[..|rs| - 1]).0, rs[|rs| - 1]))
  }

  lemma {:induction false} DrainedSubscriptions(tapes: seq<TapeSubscription>, rs: seq<Tape.Record>)
    ensures var ts := DrainedTapes(tapes, rs).0;
      |ts| == |tapes| && forall i | 0 <= i < |tapes| :: ts[i] == DrainedAlone(tapes[i], rs).0
    decreases |rs|
  {
    if rs != [] {
      DrainedSubscriptions(tapes, rs[..|rs| - 1]);
    }
  }

  lemma {:induction false} DrainedSame(f: TapeSubscription, rs: seq<Tape.Record>)
    ensures var g := DrainedAlone(f, rs).0;
      g.requestId == f.requestId && g.instrument == f.instrument && g.after == f.after
    decreases |rs|
  {
    if rs != [] {
      DrainedSame(f, rs[..|rs| - 1]);
    }
  }

  lemma DrainedIds(tapes: seq<TapeSubscription>, rs: seq<Tape.Record>)
    ensures TapeIds(DrainedTapes(tapes, rs).0) == TapeIds(tapes)
  {
    DrainedSubscriptions(tapes, rs);
    forall i | 0 <= i < |tapes| ensures DrainedAlone(tapes[i], rs).0.requestId == tapes[i].requestId {
      DrainedSame(tapes[i], rs);
    }
  }

  lemma RecordKeepsApart(tapes: seq<TapeSubscription>, ids: seq<nat>, r: Tape.Record, i: nat)
    requires ids == TapeIds(tapes) && i < |ids| && forall j, k | 0 <= j < k < |ids| :: ids[j] != ids[k]
    ensures Mine(RecordMessages(tapes, r), ids[i]) == OnRecord(tapes[i], r).1
  {
    PoolKeepsApart(RecordParts(tapes, r), ids, i);
  }

  /** Draining all consolidated feeds together is draining each alone: its state and its messages. */
  lemma {:induction false} EachTapeIsDrainedAlone(tapes: seq<TapeSubscription>, rs: seq<Tape.Record>, i: nat)
    requires DistinctTapes(tapes) && i < |tapes|
    ensures var (ts, ms) := DrainedTapes(tapes, rs);
      && |ts| == |tapes| && ts[i] == DrainedAlone(tapes[i], rs).0
      && Mine(ms, tapes[i].requestId) == DrainedAlone(tapes[i], rs).1
    decreases |rs|
  {
    DrainedSubscriptions(tapes, rs);
    if rs != [] {
      var front, r := rs[..|rs| - 1], rs[|rs| - 1];
      var (before, ms) := DrainedTapes(tapes, front);
      EachTapeIsDrainedAlone(tapes, front, i);
      DrainedIds(tapes, front);
      RecordKeepsApart(before, TapeIds(tapes), r, i);
      MineConcat(ms, RecordMessages(before, r), tapes[i].requestId);
    }
  }

  lemma {:induction false} DrainsFirst(tapes: seq<TapeSubscription>, rs: seq<Tape.Record>, n: nat)
    requires n <= |rs| && Drains(tapes, rs)
    ensures Drains(tapes, rs[..n])
    decreases |rs|
  {
    if n == |rs| {
      assert rs[..n] == rs;
    } else {
      DrainsFirst(tapes, rs[..|rs| - 1], n);
      assert rs[..|rs| - 1][..n] == rs[..n];
    }
  }

  function RecordsAfter(rs: seq<Tape.Record>, last: nat): seq<Tape.Record> {
    if rs == [] then []
    else
      var r := rs[|rs| - 1];
      RecordsAfter(rs[..|rs| - 1], last) + if r.firstReport > last then [r] else []
  }

  function TapeMessages(f: TapeSubscription, rs: seq<Tape.Record>): seq<FeedMessage> {
    seq(|rs|, i requires 0 <= i < |rs| => TapeMessage(f, rs[i]))
  }

  function Waiting<T>(pending: Option<seq<T>>): seq<T> {
    if pending.Some? then pending.value else []
  }

  // ----- What the session can do -------------------------------------------

  function FeedAt(feeds: seq<DirectFeed>, id: nat): (i: nat)
    ensures i <= |feeds|
    ensures i < |feeds| ==> feeds[i].requestId == id
    ensures forall j | 0 <= j < i :: feeds[j].requestId != id
  {
    if feeds == [] || feeds[0].requestId == id then 0 else 1 + FeedAt(feeds[1..], id)
  }

  function TapeAt(tapes: seq<TapeSubscription>, id: nat): (i: nat)
    ensures i <= |tapes|
    ensures i < |tapes| ==> tapes[i].requestId == id
    ensures forall j | 0 <= j < i :: tapes[j].requestId != id
  {
    if tapes == [] || tapes[0].requestId == id then 0 else 1 + TapeAt(tapes[1..], id)
  }

  /** The snapshot reply: the subscription leaves its buffer, and what it buffered after the snapshot follows. */
  function Activated(s: Subscriptions, id: nat, publishedBefore: nat, last: nat): (Subscriptions, seq<FeedMessage>) {
    var t, f := TapeAt(s.tapes, id), FeedAt(s.feeds, id);
    if t < |s.tapes| then
      var sub := s.tapes[t];
      (s.(tapes := s.tapes[t := sub.(pending := None, after := last)]),
       TapeMessages(sub, RecordsAfter(Waiting(sub.pending), last)))
    else if f < |s.feeds| then
      var (g, ms) := Activate(s.feeds[f], publishedBefore);
      (s.(feeds := s.feeds[f := g]), ms)
    else (s, [])
  }

  /** When a message leaves: never before the previous one of its subscription. */
  function Timed(s: Subscriptions, id: nat, proposed: nat): (Subscriptions, nat) {
    var f, t := FeedAt(s.feeds, id), TapeAt(s.tapes, id);
    if f < |s.feeds| then
      var at := Max(s.feeds[f].lastSendUs, proposed);
      (s.(feeds := s.feeds[f := s.feeds[f].(lastSendUs := at)]), at)
    else if t < |s.tapes| then
      var at := Max(s.tapes[t].lastSendUs, proposed);
      (s.(tapes := s.tapes[t := s.tapes[t].(lastSendUs := at)]), at)
    else (s, proposed)
  }

  /** Drains and activations move no subscription and change no kind. */
  ghost predicate SameSubscriptions(s: Subscriptions, t: Subscriptions) {
    && s.kinds == t.kinds && |s.feeds| == |t.feeds| && |s.tapes| == |t.tapes| && s.listening == t.listening
    && (forall i | 0 <= i < |s.feeds| ::
          s.feeds[i].requestId == t.feeds[i].requestId && KindOf(s.feeds[i]) == KindOf(t.feeds[i]))
    && (forall i | 0 <= i < |s.tapes| ::
          s.tapes[i].requestId == t.tapes[i].requestId && s.tapes[i].instrument == t.tapes[i].instrument)
  }

  lemma SameHas(s: Subscriptions, t: Subscriptions, id: nat)
    requires SameSubscriptions(s, t)
    ensures HasFeed(s.feeds, id) ==> HasFeed(t.feeds, id)
    ensures HasTape(s.tapes, id) ==> HasTape(t.tapes, id)
  {
    if HasFeed(s.feeds, id) {
      var i :| 0 <= i < |s.feeds| && s.feeds[i].requestId == id;
      assert t.feeds[i].requestId == id;
    }
    if HasTape(s.tapes, id) {
      var i :| 0 <= i < |s.tapes| && s.tapes[i].requestId == id;
      assert t.tapes[i].requestId == id;
    }
  }

  lemma SameKinds(s: Subscriptions, t: Subscriptions)
    requires FeedKinds(s.feeds, s.kinds) && TapeKinds(s.tapes, s.kinds) && SameSubscriptions(s, t)
    ensures FeedKinds(t.feeds, t.kinds) && TapeKinds(t.tapes, t.kinds)
  {
    forall i | 0 <= i < |t.feeds|
      ensures t.feeds[i].requestId in t.kinds && t.kinds[t.feeds[i].requestId] == KindOf(t.feeds[i])
    {
      assert s.feeds[i] in s.feeds;
    }
    forall i | 0 <= i < |t.tapes|
      ensures t.tapes[i].requestId in t.kinds && t.kinds[t.tapes[i].requestId] == TapeOf(t.tapes[i].instrument)
    {
      assert s.tapes[i] in s.tapes;
    }
  }

  lemma SameKeeps(s: Subscriptions, t: Subscriptions)
    requires Valid(s) && SameSubscriptions(s, t)
    ensures Valid(t)
  {
    forall id: nat
      ensures (HasFeed(s.feeds, id) <==> HasFeed(t.feeds, id)) && (HasTape(s.tapes, id) <==> HasTape(t.tapes, id))
    {
      SameHas(s, t, id);
      SameHas(t, s, id);
    }
    SameKinds(s, t);
  }

  lemma BatchKeeps(s: Subscriptions, b: Committed)
    requires Valid(s)
    ensures var t := s.(feeds := BatchFeeds(s.feeds, b)); Valid(t)
  {
    var t := s.(feeds := BatchFeeds(s.feeds, b));
    forall i | 0 <= i < |s.feeds|
      ensures s.feeds[i].requestId == t.feeds[i].requestId && KindOf(s.feeds[i]) == KindOf(t.feeds[i])
    {
      OnBatchSame(s.feeds[i], b);
    }
    SameKeeps(s, t);
  }

  lemma DrainKeeps(s: Subscriptions, rs: seq<Tape.Record>)
    requires Valid(s)
    ensures var t := s.(tapes := DrainedTapes(s.tapes, rs).0); Valid(t)
  {
    var t := s.(tapes := DrainedTapes(s.tapes, rs).0);
    DrainedSubscriptions(s.tapes, rs);
    forall i | 0 <= i < |s.tapes|
      ensures s.tapes[i].requestId == t.tapes[i].requestId && s.tapes[i].instrument == t.tapes[i].instrument
    {
      DrainedSame(s.tapes[i], rs);
    }
    SameKeeps(s, t);
  }

  lemma {:induction false} ApplyAllSame(f: DirectFeed, bs: seq<Committed>)
    ensures var g := ApplyAll(f, bs).0; g.requestId == f.requestId && KindOf(g) == KindOf(f)
    decreases |bs|
  {
    if bs != [] {
      ApplyAllSame(Apply(f, bs[0]).0, bs[1..]);
    }
  }

  lemma ActivateKeeps(s: Subscriptions, id: nat, publishedBefore: nat, last: nat)
    requires Valid(s)
    ensures var t := Activated(s, id, publishedBefore, last).0; Valid(t)
  {
    var i := FeedAt(s.feeds, id);
    if i < |s.feeds| {
      var f := s.feeds[i];
      ApplyAllSame(f.(pending := None), From(Waiting(f.pending), publishedBefore));
    }
    SameKeeps(s, Activated(s, id, publishedBefore, last).0);
  }

  lemma TimedKeeps(s: Subscriptions, id: nat, proposed: nat)
    requires Valid(s)
    ensures var t := Timed(s, id, proposed).0; Valid(t)
  {
    SameKeeps(s, Timed(s, id, proposed).0);
  }

  // ----- The session's object ----------------------------------------------

  method FindTape(tapes: seq<TapeSubscription>, id: nat) returns (i: nat)
    ensures i == TapeAt(tapes, id)
  {
    i := 0;
    while i < |tapes| && tapes[i].requestId != id
      invariant i <= |tapes| && forall j | 0 <= j < i :: tapes[j].requestId != id
    {
      i := i + 1;
    }
  }

  method FindFeed(feeds: seq<DirectFeed>, id: nat) returns (i: nat)
    ensures i == FeedAt(feeds, id)
  {
    i := 0;
    while i < |feeds| && feeds[i].requestId != id
      invariant i <= |feeds| && forall j | 0 <= j < i :: feeds[j].requestId != id
    {
      i := i + 1;
    }
  }

  /** Maps one batch to every active feed's increments and buffers it for pending ones. */
  method MapBatch(feeds: seq<DirectFeed>, b: Committed) returns (r: Option<(seq<DirectFeed>, seq<FeedMessage>)>)
    ensures r.None? <==> AnyOverflows(feeds, b)
    ensures r.Some? ==> r.value == (BatchFeeds(feeds, b), BatchMessages(feeds, b))
  {
    var done, messages := [], [];
    for i := 0 to |feeds|
      invariant done == BatchFeeds(feeds[..i], b) && messages == BatchMessages(feeds[..i], b)
      invariant forall j | 0 <= j < i :: !Overflows(feeds[j], b)
    {
      if Overflows(feeds[i], b) {
        return None;
      }
      assert BatchParts(feeds[..i + 1], b)[..i] == BatchParts(feeds[..i], b);
      var (f, ms) := OnBatch(feeds[i], b);
      done := done + [f];
      messages := messages + ms;
    }
    assert feeds[..|feeds|] == feeds;
    r := Some((done, messages));
  }

  method MapRecord(tapes: seq<TapeSubscription>, rec: Tape.Record)
    returns (r: Option<(seq<TapeSubscription>, seq<FeedMessage>)>)
    ensures r.None? <==> exists i | 0 <= i < |tapes| :: TapeOverflows(tapes[i], rec)
    ensures r.Some? ==> r.value == (RecordFeeds(tapes, rec), RecordMessages(tapes, rec))
  {
    var done, messages := [], [];
    for i := 0 to |tapes|
      invariant done == RecordFeeds(tapes[..i], rec) && messages == RecordMessages(tapes[..i], rec)
      invariant forall j | 0 <= j < i :: !TapeOverflows(tapes[j], rec)
    {
      if TapeOverflows(tapes[i], rec) {
        return None;
      }
      assert RecordParts(tapes[..i + 1], rec)[..i] == RecordParts(tapes[..i], rec);
      var (f, ms) := OnRecord(tapes[i], rec);
      done := done + [f];
      messages := messages + ms;
    }
    assert tapes[..|tapes|] == tapes;
    r := Some((done, messages));
  }

  /** Maps records in order, each to every consolidated feed. */
  method MapRecords(tapes: seq<TapeSubscription>, rs: seq<Tape.Record>)
    returns (r: Option<(seq<TapeSubscription>, seq<FeedMessage>)>)
    ensures r.Some? <==> Drains(tapes, rs)
    ensures r.Some? ==> r.value == DrainedTapes(tapes, rs)
  {
    var done, messages := tapes, [];
    for i := 0 to |rs|
      invariant (done, messages) == DrainedTapes(tapes, rs[..i])
      invariant Drains(tapes, rs[..i])
    {
      assert rs[..i + 1][..i] == rs[..i];
      DrainedSubscriptions(tapes, rs[..i]);
      var mapped := MapRecord(done, rs[i]);
      if mapped.None? {
        assert !Drains(tapes, rs[..i + 1]);
        if Drains(tapes, rs) {
          DrainsFirst(tapes, rs, i + 1);
        }
        return None;
      }
      done := mapped.value.0;
      messages := messages + mapped.value.1;
    }
    assert rs[..|rs|] == rs;
    r := Some((done, messages));
  }

  class SessionFeeds {
    var feeds: seq<DirectFeed>
    var tapes: seq<TapeSubscription>
    var kinds: map<nat, Kind>
    var listening: bool

    function Value(): Subscriptions
      reads this
    {
      Subscriptions(feeds, tapes, kinds, listening)
    }

    constructor ()
      ensures Valid(Value()) && Value() == NO_SUBSCRIPTIONS
    {
      feeds, tapes, kinds, listening := [], [], map[], false;
    }

    /** Whether a new subscription with this id cannot start. */
    method Refuse(id: nat) returns (refused: bool)
      ensures refused <==> Refuses(Value(), id)
    {
      var f := FindFeed(feeds, id);
      var t := FindTape(tapes, id);
      refused := f < |feeds| || t < |tapes| || |feeds| + |tapes| >= MAX_FEEDS_PER_SESSION;
    }

    /** `enabled` says whether the request makes the origin keep order views: it does even when refused. */
    method SubscribeVenue(id: nat, listing: ListingKey, bids: bool, offers: bool, trades: bool, orders: bool)
      returns (ok: bool, enabled: bool)
      requires Valid(Value())
      modifies this`feeds, this`kinds
      ensures Valid(Value()) && enabled == orders
      ensures ok <==> !Refuses(old(Value()), id) && (bids || offers || trades)
      ensures Value() ==
              if ok then WithFeed(old(Value()), NewFeed(id, listing, bids, offers, trades, orders)) else old(Value())
    {
      enabled := orders;
      var refused := Refuse(id);
      ok := !refused && (bids || offers || trades);
      if ok {
        var feed := NewFeed(id, listing, bids, offers, trades, orders);
        SubscribeFeedKeeps(Value(), feed);
        feeds := feeds + [feed];
        kinds := kinds[id := KindOf(feed)];
      }
    }

    /** The session's first consolidated feed needs the tape to be up. */
    method SubscribeTape(id: nat, instrument: nat, tapeUp: bool) returns (ok: bool)
      requires Valid(Value())
      modifies this`tapes, this`kinds, this`listening
      ensures Valid(Value())
      ensures ok <==> !Refuses(old(Value()), id) && (old(tapes) != [] || tapeUp)
      ensures Value() == if ok then WithTape(old(Value()), id, instrument) else old(Value())
    {
      var refused := Refuse(id);
      ok := !refused && (listening || tapeUp);
      if ok {
        SubscribeTapeKeeps(Value(), id, instrument);
        listening := true;
        tapes := tapes + [NewTape(id, instrument)];
        kinds := kinds[id := TapeOf(instrument)];
      }
    }

    method Unsubscribe(id: nat) returns (existed: bool)
      requires Valid(Value())
      modifies this
      ensures Valid(Value()) && Value() == Without(old(Value()), id)
      ensures existed <==> HasFeed(old(feeds), id) || HasTape(old(tapes), id)
    {
      UnsubscribeKeeps(Value(), id);
      DropFeedShortens(feeds, id);
      DropTapeShortens(tapes, id);
      var before := |feeds| + |tapes|;
      kinds := kinds - {id};
      feeds := DropFeed(feeds, id);
      tapes := DropTape(tapes, id);
      if tapes == [] {
        listening := false;
      }
      existed := |feeds| + |tapes| != before;
    }

    /** One committed batch; `None` disconnects the session. */
    method OnCommitted(b: Committed) returns (r: Option<seq<WireMessage>>)
      requires Valid(Value())
      modifies this`feeds
      ensures Valid(Value())
      ensures r.None? <==> AnyOverflows(old(feeds), b)
      ensures r.Some? ==> feeds == BatchFeeds(old(feeds), b)
      ensures r.Some? ==> r.value == EncodeAll(kinds, BatchMessages(old(feeds), b))
    {
      var mapped := MapBatch(feeds, b);
      if mapped.None? {
        return None;
      }
      BatchKeeps(Value(), b);
      feeds := mapped.value.0;
      r := Some(EncodeAll(kinds, mapped.value.1));
    }

    /**
      Every tape record applied since the last call; `None` disconnects the
      session. `drained` is `None` when the tape has dropped the session.
     */
    method DrainTape(drained: Option<seq<Tape.Record>>) returns (r: Option<seq<WireMessage>>)
      requires Valid(Value())
      modifies this`tapes
      ensures Valid(Value())
      ensures r.Some? <==> old(tapes) == [] || (drained.Some? && Drains(old(tapes), drained.value))
      ensures r.Some? ==> tapes == DrainedTapes(old(tapes), Waiting(drained)).0
      ensures r.Some? ==> r.value == EncodeAll(kinds, DrainedTapes(old(tapes), Waiting(drained)).1)
    {
      var rs := Waiting(drained);
      if !listening {
        NothingToDrain(tapes, rs);
        return Some([]);
      }
      if drained.None? {
        return None;
      }
      var mapped := MapRecords(tapes, rs);
      if mapped.None? {
        return None;
      }
      DrainKeeps(Value(), rs);
      tapes := mapped.value.0;
      r := Some(EncodeAll(kinds, mapped.value.1));
    }

    /** The snapshot reply: what was buffered after it follows. */
    method ActivateAfter(id: nat, publishedBefore: nat, last: nat) returns (r: seq<WireMessage>)
      requires Valid(Value())
      modifies this`feeds, this`tapes
      ensures Valid(Value())
      ensures Value() == Activated(old(Value()), id, publishedBefore, last).0
      ensures r == EncodeAll(kinds, Activated(old(Value()), id, publishedBefore, last).1)
    {
      ActivateKeeps(Value(), id, publishedBefore, last);
      var t := FindTape(tapes, id);
      if t < |tapes| {
        var sub := tapes[t];
        tapes := tapes[t := sub.(pending := None, after := last)];
        return EncodeAll(kinds, TapeMessages(sub, RecordsAfter(Waiting(sub.pending), last)));
      }
      var f := FindFeed(feeds, id);
      if f == |feeds| {
        return [];
      }
      var (g, ms) := Activate(feeds[f], publishedBefore);
      feeds := feeds[f := g];
      r := EncodeAll(kinds, ms);
    }

    /** A message never leaves before the previous one of the same feed. */
    method SendTime(id: nat, proposed: nat) returns (at: nat)
      requires Valid(Value())
      modifies this`feeds, this`tapes
      ensures Valid(Value()) && at >= proposed
      ensures (Value(), at) == Timed(old(Value()), id, proposed)
    {
      TimedKeeps(Value(), id, proposed);
      var f := FindFeed(feeds, id);
      if f < |feeds| {
        at := Max(feeds[f].lastSendUs, proposed);
        feeds := feeds[f := feeds[f].(lastSendUs := at)];
        return;
      }
      var t := FindTape(tapes, id);
      if t < |tapes| {
        at := Max(tapes[t].lastSendUs, proposed);
        tapes := tapes[t := tapes[t].(lastSendUs := at)];
        return;
      }
      at := proposed;
    }
  }

  lemma {:induction false} NothingToDrain(tapes: seq<TapeSubscription>, rs: seq<Tape.Record>)
    requires tapes == []
    ensures DrainedTapes(tapes, rs).0 == tapes && DrainedTapes(tapes, rs).1 == []
    decreases |rs|
  {
    if rs != [] {
      var r := rs[|rs| - 1];
      NothingToDrain(tapes, rs[..|rs| - 1]);
      assert RecordParts(tapes, r) == [] && RecordFeeds(tapes, r) == tapes;
    }
  }
}
