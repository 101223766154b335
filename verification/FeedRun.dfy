/**
  A direct feed over every run: commits, the snapshot taken between them, the
  session's drains and the snapshot's reply, in any interleaving, with the
  client that reads the feed.
 */
module FeedRun {
  import opened Words
  import opened Market
  import opened Book
  import opened Feed

  // ----- The committed history ---------------------------------------------

  /**
    Every batch of a run, what the feed's listing displays before the first and
    after each, and the entries each holds for the feed.
   */
  datatype History = History(log: seq<Committed>, shown: seq<Shown>, entries: seq<seq<Increment>>)

  ghost predicate SameTruth(f: DirectFeed, a: Shown, b: Shown) {
    forall k :: Truth(f, a, k) == Truth(f, b, k)
  }

  predicate IsGap(f: DirectFeed, b: Committed) {
    f.listing in b.publicGaps
  }

  /** A batch says truly what it did to the feed's listing, or names it as a gap. */
  ghost predicate Told(f: DirectFeed, b: Committed, before: Shown, after: Shown) {
    || IsGap(f, b)
    || match UpdateFor(b.public, f.listing)
       case Some(u) => Tells(f, u, before, after)
       case None => SameTruth(f, before, after)
  }

  predicate Shaped(h: History) {
    |h.shown| == |h.log| + 1 && |h.entries| == |h.log|
  }

  /** The entries a batch holds for a feed. */
  function EntriesIn(f: DirectFeed, b: Committed): seq<Increment> {
    if IsGap(f, b) then []
    else match UpdateFor(b.public, f.listing)
      case None => []
      case Some(u) => Entries(f, u)
  }

  /** Batch `i` stands at its ordinal, with the entries it holds for the feed. */
  ghost predicate StandsAt(f: DirectFeed, h: History, i: nat)
    requires Shaped(h) && i < |h.log|
  {
    h.log[i].ordinal == i && h.entries[i] == EntriesIn(f, h.log[i])
  }

  ghost predicate Recorded(f: DirectFeed, h: History) {
    && Shaped(h)
    && (forall i | 0 <= i < |h.shown| :: Distinct(h.shown[i].orders))
    && (forall i | 0 <= i < |h.log| :: StandsAt(f, h, i))
  }

  /** Entries that change no displayed level or order. */
  predicate NoBook(es: seq<Increment>) {
    forall i | 0 <= i < |es| :: es[i].TradeEntry?
  }

  /**
    What a claim about the book needs of batch `i`. From batch `told` on, it is
    told truly. Before, it may also be one that publishes nothing of the book:
    a commit made before the feed was there to be told.
   */
  ghost predicate TrueAt(f: DirectFeed, h: History, told: nat, i: nat)
    requires Shaped(h) && i < |h.log|
  {
    if i < told then IsGap(f, h.log[i]) || NoBook(h.entries[i]) else Told(f, h.log[i], h.shown[i], h.shown[i + 1])
  }

  /** Gap batches among batches `from..to`. */
  function Gaps(f: DirectFeed, h: History, from: nat, to: nat): nat
    requires to <= |h.log|
  {
    if to <= from then 0 else Gaps(f, h, from, to - 1) + (if IsGap(f, h.log[to - 1]) then 1 else 0)
  }

  /** Report numbers that batches `from..to` take: one for every entry and one for every gap. */
  function Reports(f: DirectFeed, h: History, from: nat, to: nat): nat
    requires Shaped(h) && to <= |h.log|
  {
    if to <= from then 0
    else Reports(f, h, from, to - 1) + (if IsGap(f, h.log[to - 1]) then 1 else |h.entries[to - 1]|)
  }

  /** The batches among `from..to` that hold entries for the feed. */
  function Effective(h: History, from: nat, to: nat): seq<nat>
    requires to <= |h.entries|
  {
    if to <= from then []
    else Effective(h, from, to - 1) + (if h.entries[to - 1] != [] then [to - 1] else [])
  }

  // ----- The client --------------------------------------------------------

  /** One message as the client received it, and how many report numbers it skipped. */
  datatype Receipt = Receipt(since: nat, batch: nat, message: FeedMessage, skipped: int, contiguous: bool, view: View)

  /**
    The client: its view, the report it expects next, and whether every report
    since the snapshot followed the one before it. `since` is the batch after
    the last one it heard of.
   */
  datatype Client = Client(view: View, next: nat, contiguous: bool, since: nat, received: seq<Receipt>)

  function Untag(es: seq<(ListingKey, Increment)>): seq<Increment> {
    seq(|es|, i requires 0 <= i < |es| => es[i].1)
  }

  function Receive(c: Client, batch: nat, m: FeedMessage): Client {
    var view := ApplyEntries(c.view, Untag(m.entries));
    var contiguous := c.contiguous && m.firstReport == c.next;
    var r := Receipt(c.since, batch, m, m.firstReport - c.next, contiguous, view);
    Client(view, m.firstReport + |m.entries|, contiguous, batch + 1, c.received + [r])
  }

  /** A batch on an active feed, its message read by the client. */
  function Deliver(f: DirectFeed, c: Client, b: Committed): (DirectFeed, Client) {
    var (g, m) := Apply(f, b);
    (g, if m.Some? then Receive(c, b.ordinal, m.value) else c)
  }

  function DeliverAll(f: DirectFeed, c: Client, bs: seq<Committed>): (DirectFeed, Client)
    decreases |bs|
  {
    if bs == [] then (f, c)
    else var (g, d) := Deliver(f, c, bs[0]); DeliverAll(g, d, bs[1..])
  }

  /** What the snapshot shows: both sides of the book, whatever sides the feed carries. */
  function SnapshotView(f: DirectFeed, s: Shown): View {
    ApplyEntries(map[], Entries(BothSides(f), SnapshotUpdate(f, s)))
  }

  function BothSides(f: DirectFeed): DirectFeed {
    f.(bids := true, offers := true)
  }

  function SnapshotUpdate(f: DirectFeed, s: Shown): ListingUpdate {
    ListingUpdate(f.listing, [], DiffLevels(EMPTY_DEPTH, s.depth), None, None, DiffOrders([], s.orders))
  }

  lemma SnapshotTells(f: DirectFeed, s: Shown)
    requires Distinct(s.orders)
    ensures Tells(BothSides(f), SnapshotUpdate(f, s), Shown(EMPTY_DEPTH, []), s)
  {
    DiffLevelsIsExact(EMPTY_DEPTH, s.depth);
    DiffOrdersIsExact([], s.orders);
  }

  lemma SnapshotShows(f: DirectFeed, s: Shown)
    requires Distinct(s.orders)
    ensures Shows(f, SnapshotView(f, s), s)
  {
    var both, nothing := BothSides(f), Shown(EMPTY_DEPTH, []);
    SnapshotTells(f, s);
    forall k ensures Held(f, SnapshotView(f, s), k) == Truth(f, s, k) {
      UpdateOverwrites(both, SnapshotUpdate(f, s), nothing, s, map[], k);
      assert Truth(both, nothing, k) == None;
      assert Held(both, SnapshotView(f, s), k) == Truth(both, s, k);
    }
  }

  // ----- What every delivered batch keeps ----------------------------------

  /** The feed's parameters, which no batch changes. */
  ghost predicate Like(f: DirectFeed, g: DirectFeed) {
    && f.listing == g.listing && f.detail == g.detail && f.requestId == g.requestId
    && f.bids == g.bids && f.offers == g.offers && f.trades == g.trades
  }

  /** What a client may hold while batches older than its snapshot still arrive. */
  ghost predicate Between(f: DirectFeed, v: View, now: Shown, snap: Shown, late: bool) {
    forall k :: Held(f, v, k) == Truth(f, now, k) || (late && Held(f, v, k) == Truth(f, snap, k))
  }

  /**
    The snapshot held batches `..before`; the feed has processed from batch
    `joined` on; batches from `told` on are to be told truly.
   */
  datatype Place = Place(h: History, before: nat, joined: nat, told: nat)

  ghost predicate Placed(f: DirectFeed, l: Place) {
    Recorded(f, l.h) && l.joined <= l.before <= |l.h.log| && l.told <= l.before
  }

  /** Every batch the feed has processed so far allows the claims about the book. */
  ghost predicate TrueTo(f: DirectFeed, l: Place, to: nat)
    requires Shaped(l.h) && to <= |l.h.log|
  {
    forall i | l.joined <= i < to :: TrueAt(f, l.h, l.told, i)
  }

  /** The message a batch owes the feed. */
  function Owed(f: DirectFeed, l: Place, batch: nat): FeedMessage
    requires Shaped(l.h) && batch < |l.h.log|
  {
    FeedMessage(Venue(f.listing.venue), l.h.log[batch].durableUs, f.requestId,
                1 + Reports(f, l.h, l.joined, batch), Tagged(f.listing, l.h.entries[batch]))
  }

  /**
    The claims about one received message: it is what its batch owes, it skips
    one number for every gap batch since the message before, it is contiguous
    exactly when there was no gap at all, and then, if the batches were told
    truly, it leaves the committed book of its batch, from the snapshot's on.
   */
  ghost predicate Good(f: DirectFeed, l: Place, r: Receipt)
    requires Shaped(l.h)
  {
    && l.joined <= r.since <= r.batch < |l.h.log|
    && r.message == Owed(f, l, r.batch)
    && r.skipped == Gaps(f, l.h, r.since, r.batch)
    && (r.contiguous <==> Gaps(f, l.h, l.joined, r.batch) == 0)
    && (r.contiguous && l.before <= r.batch + 1 && TrueTo(f, l, r.batch + 1) ==>
          Shows(f, r.view, l.h.shown[r.batch + 1]))
  }

  ghost predicate AllGood(f: DirectFeed, l: Place, rs: seq<Receipt>)
    requires Shaped(l.h)
  {
    forall i | 0 <= i < |rs| :: GoodAt(f, l, rs, i)
  }

  ghost predicate GoodAt(f: DirectFeed, l: Place, rs: seq<Receipt>, i: nat)
    requires Shaped(l.h) && i < |rs|
  {
    Good(f, l, rs[i])
  }

  function Batches(rs: seq<Receipt>): seq<nat> {
    seq(|rs|, i requires 0 <= i < |rs| => rs[i].batch)
  }

  /** The report numbers the feed and its client are at, after batch `at - 1`. */
  ghost predicate Numbered(spec: DirectFeed, f: DirectFeed, c: Client, l: Place, at: nat)
    requires Shaped(l.h) && at <= |l.h.log|
  {
    && l.joined <= c.since <= at
    && f.nextReport == 1 + Reports(spec, l.h, l.joined, at)
    && c.next + Gaps(spec, l.h, c.since, at) == f.nextReport
    && (c.contiguous <==> Gaps(spec, l.h, l.joined, c.since) == 0)
  }

  ghost predicate Seen(spec: DirectFeed, c: Client, l: Place, at: nat)
    requires Shaped(l.h) && at <= |l.h.log|
  {
    && Batches(c.received) == Effective(l.h, l.joined, at)
    && AllGood(spec, l, c.received)
  }

  ghost predicate Holds(spec: DirectFeed, c: Client, l: Place, at: nat)
    requires Shaped(l.h) && at <= |l.h.log| && l.before <= |l.h.log|
  {
    Gaps(spec, l.h, l.joined, at) == 0 && TrueTo(spec, l, at) ==> HoldsView(spec, c.view, l, at)
  }

  /** Nothing has touched the snapshot's book until batch `told`; from then on the view is between the horizons. */
  ghost predicate HoldsView(spec: DirectFeed, v: View, l: Place, at: nat)
    requires Shaped(l.h) && at <= |l.h.log| && l.before <= |l.h.log|
  {
    if at < l.told then Shows(spec, v, l.h.shown[l.before])
    else Between(spec, v, l.h.shown[at], l.h.shown[l.before], at < l.before)
  }

  ghost predicate Sync(spec: DirectFeed, f: DirectFeed, c: Client, l: Place, at: nat)
    requires Placed(spec, l)
  {
    && Like(spec, f) && f.pending.None? && at <= |l.h.log|
    && Numbered(spec, f, c, l, at) && Seen(spec, c, l, at) && Holds(spec, c, l, at)
  }

  // ----- One batch ---------------------------------------------------------

  lemma {:induction false} EntriesLike(f: DirectFeed, g: DirectFeed, u: ListingUpdate)
    requires Like(f, g)
    ensures Entries(f, u) == Entries(g, u)
  {
    TradesLike(f, g, u.trades);
    LevelsLike(f, g, u.levels);
    OrdersLike(f, g, u.orders);
  }

  lemma {:induction false} TradesLike(f: DirectFeed, g: DirectFeed, ts: seq<Trade>)
    requires Like(f, g)
    ensures TradeIncrements(f, ts) == TradeIncrements(g, ts)
  {
    if ts != [] {
      TradesLike(f, g, ts[1..]);
    }
  }

  lemma {:induction false} LevelsLike(f: DirectFeed, g: DirectFeed, cs: seq<LevelChange>)
    requires Like(f, g)
    ensures LevelIncrements(f, cs) == LevelIncrements(g, cs)
  {
    if cs != [] {
      LevelsLike(f, g, cs[1..]);
    }
  }

  lemma {:induction false} OrdersLike(f: DirectFeed, g: DirectFeed, cs: seq<OrderChange>)
    requires Like(f, g)
    ensures OrderIncrements(f, cs) == OrderIncrements(g, cs)
  {
    if cs != [] {
      OrdersLike(f, g, cs[1..]);
    }
  }

  lemma DeliverIs(spec: DirectFeed, f: DirectFeed, c: Client, b: Committed)
    requires Like(spec, f)
    ensures var es := EntriesIn(spec, b);
      Deliver(f, c, b) ==
        if IsGap(spec, b) then (f.(nextReport := SatAdd(f.nextReport, 1)), c)
        else if es == [] then (f, c)
        else (f.(nextReport := SatAdd(f.nextReport, |es|)),
              Receive(c, b.ordinal,
                FeedMessage(Venue(spec.listing.venue), b.durableUs, spec.requestId, f.nextReport,
                  Tagged(spec.listing, es))))
  {
    if UpdateFor(b.public, f.listing).Some? {
      EntriesLike(spec, f, UpdateFor(b.public, f.listing).value);
    }
  }

  lemma {:induction false} GapsAdd(f: DirectFeed, h: History, a: nat, b: nat, c: nat)
    requires a <= b <= c <= |h.log|
    ensures Gaps(f, h, a, c) == Gaps(f, h, a, b) + Gaps(f, h, b, c)
  {
    if b < c {
      GapsAdd(f, h, a, b, c - 1);
    }
  }

  /** A batch that is no gap takes a truthful view to the truth after it, for both horizons. */
  lemma ViewAfter(f: DirectFeed, b: Committed, before: Shown, after: Shown, snap: Shown, late: bool, v: View)
    requires Told(f, b, before, after) && !IsGap(f, b)
    requires Between(f, v, before, snap, late)
    ensures Between(f, ApplyEntries(v, EntriesIn(f, b)), after, snap, late)
  {
    if UpdateFor(b.public, f.listing).Some? {
      var u := UpdateFor(b.public, f.listing).value;
      var w := ApplyEntries(v, Entries(f, u));
      forall k ensures Held(f, w, k) == Truth(f, after, k) || (late && Held(f, w, k) == Truth(f, snap, k)) {
        UpdateOverwrites(f, u, before, after, v, k);
      }
    }
  }

  /** Trades leave the view alone. */
  lemma NoBookKeepsView(f: DirectFeed, v: View, es: seq<Increment>, s: Shown)
    requires NoBook(es) && Shows(f, v, s)
    ensures Shows(f, ApplyEntries(v, es), s)
  {
    forall k ensures Held(f, ApplyEntries(v, es), k) == Truth(f, s, k) {
      UntouchedKey(v, es, k);
      assert Lookup(ApplyEntries(v, es), k) == Lookup(v, k);
    }
  }

  /** The last batch of the snapshot ends the lateness: the two horizons coincide. */
  lemma BetweenSettles(f: DirectFeed, v: View, l: Place, at: nat)
    requires Placed(f, l) && at < |l.h.log|
    requires Between(f, v, l.h.shown[at + 1], l.h.shown[l.before], at < l.before)
    ensures Between(f, v, l.h.shown[at + 1], l.h.shown[l.before], at + 1 < l.before)
    ensures l.before <= at + 1 ==> Shows(f, v, l.h.shown[at + 1])
  {
  }

  lemma ViewBeforeTold(spec: DirectFeed, v: View, l: Place, at: nat)
    requires Placed(spec, l) && at < |l.h.log| && at < l.told && HoldsView(spec, v, l, at)
    requires TrueAt(spec, l.h, l.told, at) && !IsGap(spec, l.h.log[at])
    ensures HoldsView(spec, ApplyEntries(v, l.h.entries[at]), l, at + 1)
  {
    NoBookKeepsView(spec, v, l.h.entries[at], l.h.shown[l.before]);
  }

  lemma ViewOnceTold(spec: DirectFeed, v: View, l: Place, at: nat)
    requires Placed(spec, l) && at < |l.h.log| && l.told <= at && HoldsView(spec, v, l, at)
    requires TrueAt(spec, l.h, l.told, at) && !IsGap(spec, l.h.log[at])
    ensures HoldsView(spec, ApplyEntries(v, l.h.entries[at]), l, at + 1)
  {
    EntriesAt(spec, l.h, at);
    ViewAfter(spec, l.h.log[at], l.h.shown[at], l.h.shown[at + 1], l.h.shown[l.before], at < l.before, v);
    BetweenSettles(spec, ApplyEntries(v, l.h.entries[at]), l, at);
  }

  lemma SettledShows(spec: DirectFeed, v: View, l: Place, at: nat)
    requires Placed(spec, l) && l.before <= at <= |l.h.log| && HoldsView(spec, v, l, at)
    ensures Shows(spec, v, l.h.shown[at])
  {
  }

  /** The committed view after batch `at`, whether or not it held entries. */
  lemma HoldsAfter(spec: DirectFeed, c: Client, d: Client, l: Place, at: nat)
    requires Placed(spec, l) && l.joined <= at < |l.h.log| && Holds(spec, c, l, at)
    requires d.view == ApplyEntries(c.view, l.h.entries[at])
    ensures Holds(spec, d, l, at + 1)
    ensures Gaps(spec, l.h, l.joined, at + 1) == 0 && l.before <= at + 1 && TrueTo(spec, l, at + 1) ==>
      Shows(spec, d.view, l.h.shown[at + 1])
  {
    if Gaps(spec, l.h, l.joined, at + 1) == 0 && TrueTo(spec, l, at + 1) {
      assert TrueTo(spec, l, at) && TrueAt(spec, l.h, l.told, at);
      if at < l.told {
        ViewBeforeTold(spec, c.view, l, at);
      } else {
        ViewOnceTold(spec, c.view, l, at);
      }
      if l.before <= at + 1 {
        SettledShows(spec, d.view, l, at + 1);
      }
    }
  }

  lemma DeliverGap(spec: DirectFeed, f: DirectFeed, c: Client, l: Place, at: nat) returns (g: DirectFeed, d: Client)
    requires Placed(spec, l) && Sync(spec, f, c, l, at) && at < |l.h.log| && IsGap(spec, l.h.log[at])
    requires 1 + Reports(spec, l.h, l.joined, at + 1) <= U64_MAX
    ensures (g, d) == Deliver(f, c, l.h.log[at]) && Sync(spec, g, d, l, at + 1)
  {
    EntriesAt(spec, l.h, at);
    DeliverIs(spec, f, c, l.h.log[at]);
    g, d := f.(nextReport := f.nextReport + 1), c;
    assert Effective(l.h, l.joined, at + 1) == Effective(l.h, l.joined, at);
  }

  lemma DeliverQuiet(spec: DirectFeed, f: DirectFeed, c: Client, l: Place, at: nat)
    requires Placed(spec, l) && Sync(spec, f, c, l, at) && at < |l.h.log|
    requires !IsGap(spec, l.h.log[at]) && l.h.entries[at] == []
    ensures Deliver(f, c, l.h.log[at]) == (f, c) && Sync(spec, f, c, l, at + 1)
  {
    EntriesAt(spec, l.h, at);
    DeliverIs(spec, f, c, l.h.log[at]);
    HoldsAfter(spec, c, c, l, at);
  }

  lemma NumberedAfterMessage(spec: DirectFeed, f: DirectFeed, g: DirectFeed, c: Client, d: Client, l: Place, at: nat)
    requires Shaped(l.h) && at < |l.h.log| && Numbered(spec, f, c, l, at) && !IsGap(spec, l.h.log[at])
    requires g.nextReport == f.nextReport + |l.h.entries[at]|
    requires d.next == g.nextReport && d.since == at + 1
    requires d.contiguous <==> c.contiguous && f.nextReport == c.next
    ensures Numbered(spec, g, d, l, at + 1)
    ensures d.contiguous <==> Gaps(spec, l.h, l.joined, at) == 0
    ensures f.nextReport - c.next == Gaps(spec, l.h, c.since, at)
  {
    GapsAdd(spec, l.h, l.joined, c.since, at);
  }

  lemma SeenAfterMessage(spec: DirectFeed, c: Client, d: Client, l: Place, at: nat, r: Receipt)
    requires Shaped(l.h) && l.joined <= at < |l.h.log| && Seen(spec, c, l, at)
    requires l.h.entries[at] != []
    requires d.received == c.received + [r] && r.batch == at && Good(spec, l, r)
    ensures Seen(spec, d, l, at + 1)
  {
    assert Batches(d.received) == Batches(c.received) + [at];
    forall i | 0 <= i < |d.received| ensures GoodAt(spec, l, d.received, i) {
      if i < |c.received| {
        assert GoodAt(spec, l, c.received, i);
      }
    }
  }

  lemma EntriesAt(f: DirectFeed, h: History, i: nat)
    requires Recorded(f, h) && i < |h.log|
    ensures h.log[i].ordinal == i && h.entries[i] == EntriesIn(f, h.log[i])
    ensures h.entries[i] != [] ==> !IsGap(f, h.log[i])
  {
    assert StandsAt(f, h, i);
  }

  /** A batch with entries sends what it owes. */
  lemma DeliverOwed(spec: DirectFeed, f: DirectFeed, l: Place, at: nat)
    requires Shaped(l.h) && Like(spec, f) && at < |l.h.log| && l.h.entries[at] != []
    requires l.h.log[at].ordinal == at && l.h.entries[at] == EntriesIn(spec, l.h.log[at]) && !IsGap(spec, l.h.log[at])
    requires f.nextReport == 1 + Reports(spec, l.h, l.joined, at) && f.nextReport + |l.h.entries[at]| <= U64_MAX
    ensures Apply(f, l.h.log[at]) == (f.(nextReport := f.nextReport + |l.h.entries[at]|), Some(Owed(spec, l, at)))
  {
    ApplyOwed(spec, f, l.h.log[at]);
  }

  lemma ApplyOwed(spec: DirectFeed, f: DirectFeed, b: Committed)
    requires Like(spec, f) && EntriesIn(spec, b) != []
    ensures var es := EntriesIn(spec, b);
      Apply(f, b) == (f.(nextReport := SatAdd(f.nextReport, |es|)),
                      Some(FeedMessage(Venue(spec.listing.venue), b.durableUs, spec.requestId, f.nextReport,
                        Tagged(spec.listing, es))))
  {
    EntriesLike(spec, f, UpdateFor(b.public, f.listing).value);
  }

  lemma OwedView(spec: DirectFeed, c: Client, l: Place, at: nat)
    requires Shaped(l.h) && at < |l.h.log|
    ensures Receive(c, at, Owed(spec, l, at)).view == ApplyEntries(c.view, l.h.entries[at])
  {
    assert Untag(Tagged(spec.listing, l.h.entries[at])) == l.h.entries[at];
  }

  /** What the client makes of an owed message. */
  lemma ReceiveOwed(spec: DirectFeed, f: DirectFeed, c: Client, l: Place, at: nat, g: DirectFeed, d: Client)
    requires Placed(spec, l) && Sync(spec, f, c, l, at) && at < |l.h.log|
    requires !IsGap(spec, l.h.log[at]) && l.h.entries[at] != []
    requires g == f.(nextReport := f.nextReport + |l.h.entries[at]|)
    requires d == Receive(c, at, Owed(spec, l, at))
    ensures Sync(spec, g, d, l, at + 1)
  {
    OwedView(spec, c, l, at);
    NumberedAfterMessage(spec, f, g, c, d, l, at);
    HoldsAfter(spec, c, d, l, at);
    SeenAfterMessage(spec, c, d, l, at, d.received[|c.received|]);
  }

  lemma DeliverMessage(spec: DirectFeed, f: DirectFeed, c: Client, l: Place, at: nat) returns (g: DirectFeed, d: Client)
    requires Placed(spec, l) && Sync(spec, f, c, l, at) && at < |l.h.log|
    requires !IsGap(spec, l.h.log[at]) && l.h.entries[at] != []
    requires 1 + Reports(spec, l.h, l.joined, at + 1) <= U64_MAX
    ensures (g, d) == Deliver(f, c, l.h.log[at]) && Sync(spec, g, d, l, at + 1)
  {
    EntriesAt(spec, l.h, at);
    DeliverOwed(spec, f, l, at);
    g, d := f.(nextReport := f.nextReport + |l.h.entries[at]|), Receive(c, at, Owed(spec, l, at));
    ReceiveOwed(spec, f, c, l, at, g, d);
  }

  /** Every batch, whatever it holds, keeps feed and client in step with the history. */
  lemma DeliverKeeps(spec: DirectFeed, f: DirectFeed, c: Client, l: Place, at: nat) returns (g: DirectFeed, d: Client)
    requires Placed(spec, l) && Sync(spec, f, c, l, at) && at < |l.h.log|
    requires 1 + Reports(spec, l.h, l.joined, at + 1) <= U64_MAX
    ensures (g, d) == Deliver(f, c, l.h.log[at]) && Sync(spec, g, d, l, at + 1)
  {
    if IsGap(spec, l.h.log[at]) {
      g, d := DeliverGap(spec, f, c, l, at);
    } else if l.h.entries[at] == [] {
      DeliverQuiet(spec, f, c, l, at);
      g, d := f, c;
    } else {
      g, d := DeliverMessage(spec, f, c, l, at);
    }
  }

  // ----- The snapshot's reply ----------------------------------------------

  function Concerned(f: DirectFeed, bs: seq<Committed>): seq<Committed> {
    if bs == [] then [] else (if Concerns(f, bs[0]) then [bs[0]] else []) + Concerned(f, bs[1..])
  }

  lemma {:induction false} ConcernedConcat(f: DirectFeed, a: seq<Committed>, b: seq<Committed>)
    ensures Concerned(f, a + b) == Concerned(f, a) + Concerned(f, b)
  {
    if a == [] {
      assert a + b == b;
    } else {
      assert (a + b)[1..] == a[1..] + b;
      ConcernedConcat(f, a[1..], b);
    }
  }

  lemma {:induction false} FromConcat(a: seq<Committed>, b: seq<Committed>, before: nat)
    ensures From(a + b, before) == From(a, before) + From(b, before)
  {
    if a == [] {
      assert a + b == b;
    } else {
      assert (a + b)[1..] == a[1..] + b;
      FromConcat(a[1..], b, before);
    }
  }

  function OneConcerned(f: DirectFeed, b: Committed): seq<Committed> {
    if Concerns(f, b) then [b] else []
  }

  lemma ConcernedFirst(f: DirectFeed, log: seq<Committed>, a: nat, b: nat)
    requires a < b <= |log|
    ensures Concerned(f, log[a..b]) == OneConcerned(f, log[a]) + Concerned(f, log[a + 1..b])
  {
    var range := log[a..b];
    assert range[0] == log[a] && range[1..] == log[a + 1..b];
  }

  lemma ConcernedLast(f: DirectFeed, log: seq<Committed>, a: nat, b: nat)
    requires a <= b < |log|
    ensures Concerned(f, log[a..b + 1]) == Concerned(f, log[a..b]) + OneConcerned(f, log[b])
  {
    assert log[a..b + 1] == log[a..b] + [log[b]];
    ConcernedConcat(f, log[a..b], [log[b]]);
  }

  lemma FromOne(f: DirectFeed, b: Committed, before: nat)
    ensures From(OneConcerned(f, b), before) == if b.ordinal >= before then OneConcerned(f, b) else []
  {
  }

  /** The buffer holds the concerned batches since registration; those after the snapshot are a range of the log. */
  lemma {:induction false} BufferFromSnapshot(f: DirectFeed, log: seq<Committed>, a: nat, b: nat, before: nat)
    requires a <= b <= |log|
    requires forall i | a <= i < b :: log[i].ordinal == i
    ensures From(Concerned(f, log[a..b]), before) == if before < b then Concerned(f, log[Max(a, before)..b]) else []
    decreases b - a
  {
    if a < b {
      ConcernedFirst(f, log, a, b);
      FromConcat(OneConcerned(f, log[a]), Concerned(f, log[a + 1..b]), before);
      FromOne(f, log[a], before);
      BufferFromSnapshot(f, log, a + 1, b, before);
    } else {
      assert log[a..b] == [];
    }
  }

  ghost predicate Fits(f: DirectFeed, h: History) {
    Shaped(h) && 1 + Reports(f, h, 0, |h.log|) <= U64_MAX
  }

  lemma {:induction false} ReportsWithin(f: DirectFeed, h: History, from: nat, to: nat, end: nat)
    requires Shaped(h) && to <= end <= |h.log|
    ensures Reports(f, h, from, to) <= Reports(f, h, 0, end)
    decreases end
  {
    if to < end {
      ReportsWithin(f, h, from, to, end - 1);
    } else if from < to {
      ReportsWithin(f, h, from, to - 1, end - 1);
    }
  }

  /** A batch that does not concern the feed might as well not have been buffered. */
  lemma DeliverFirst(spec: DirectFeed, f: DirectFeed, c: Client, b: Committed, rest: seq<Committed>)
    requires Like(spec, f)
    ensures var (g, d) := Deliver(f, c, b); DeliverAll(f, c, OneConcerned(spec, b) + rest) == DeliverAll(g, d, rest)
  {
    if Concerns(spec, b) {
      var all := [b] + rest;
      assert all[0] == b && all[1..] == rest;
    } else {
      assert [] + rest == rest;
    }
  }

  /** Delivering the concerned batches of a range is delivering the range. */
  lemma {:induction false} DeliverRange(spec: DirectFeed, f: DirectFeed, c: Client, l: Place, at: nat, end: nat)
      returns (g: DirectFeed, d: Client)
    requires Placed(spec, l) && Fits(spec, l.h) && Sync(spec, f, c, l, at) && at <= end <= |l.h.log|
    ensures (g, d) == DeliverAll(f, c, Concerned(spec, l.h.log[at..end])) && Sync(spec, g, d, l, end)
    decreases end - at
  {
    if at < end {
      ReportsWithin(spec, l.h, l.joined, at + 1, |l.h.log|);
      var f', c' := DeliverKeeps(spec, f, c, l, at);
      ConcernedFirst(spec, l.h.log, at, end);
      DeliverFirst(spec, f, c, l.h.log[at], Concerned(spec, l.h.log[at + 1..end]));
      g, d := DeliverRange(spec, f', c', l, at + 1, end);
    } else {
      assert l.h.log[at..end] == [];
      g, d := f, c;
    }
  }

  // ----- The system --------------------------------------------------------

  datatype System = System(
    published: nat,            // batches committed so far
    drained: nat,              // batches the session has drained
    subscribedAt: nat,         // batches drained when the feed was registered
    feed: DirectFeed,
    snapshot: Option<nat>,     // batches published before the snapshot was taken
    joined: nat,               // the first batch the active feed processed
    client: Client,
    closed: bool)              // the session disconnected

  datatype Step = Commit | TakeSnapshot | Drain | Reply

  const NOBODY := Client(map[], 1, true, 0, [])

  function Start(spec: DirectFeed, published: nat, drained: nat): System {
    System(published, drained, drained, spec.(nextReport := 1, pending := Some([])), None, 0, NOBODY, false)
  }

  function DrainNext(h: History, s: System): System
    requires s.drained < |h.log|
  {
    var b := h.log[s.drained];
    var t := s.(drained := s.drained + 1);
    if s.feed.pending.None? then
      var (f, c) := Deliver(s.feed, s.client, b); t.(feed := f, client := c)
    else if Overflows(s.feed, b) then t.(closed := true)
    else t.(feed := OnBatch(s.feed, b).0)
  }

  /** The reply reaches the session: the client reads the snapshot, then what was buffered after it. */
  function Join(h: History, s: System): System
    requires s.snapshot.Some? && s.snapshot.value < |h.shown| && s.feed.pending.Some?
  {
    var p := s.snapshot.value;
    var joined := Min(s.drained, p);
    var c := Client(SnapshotView(s.feed, h.shown[p]), 1, true, joined, []);
    var (f, d) := DeliverAll(s.feed.(pending := None), c, From(s.feed.pending.value, p));
    s.(feed := f, client := d, joined := joined)
  }

  function Next(h: History, s: System, step: Step): System {
    if s.closed then s
    else match step
      case Commit => if s.published < |h.log| then s.(published := s.published + 1) else s
      case TakeSnapshot => if s.snapshot.None? then s.(snapshot := Some(s.published)) else s
      case Drain => if s.drained < s.published && s.drained < |h.log| then DrainNext(h, s) else s
      case Reply => if s.snapshot.Some? && s.snapshot.value < |h.shown| && s.feed.pending.Some? then Join(h, s) else s
  }

  function Run(h: History, s: System, steps: seq<Step>): System
    decreases |steps|
  {
    if steps == [] then s else Run(h, Next(h, s, steps[0]), steps[1..])
  }

  ghost predicate Waiting(spec: DirectFeed, h: History, s: System) {
    && s.subscribedAt <= s.drained <= |h.log|
    && s.feed == spec.(nextReport := 1, pending := Some(Concerned(spec, h.log[s.subscribedAt..s.drained])))
  }

  ghost predicate Inv(spec: DirectFeed, h: History, told: nat, s: System)
    requires Recorded(spec, h)
  {
    && s.subscribedAt <= s.drained <= s.published <= |h.log|
    && told <= s.published && (s.snapshot.Some? ==> told <= s.snapshot.value)
    && (s.snapshot.Some? ==> s.subscribedAt <= s.snapshot.value <= s.published)
    && (s.feed.pending.Some? && !s.closed ==> Waiting(spec, h, s))
    && (s.feed.pending.None? ==>
          && s.snapshot.Some? && s.joined <= s.snapshot.value
          && Sync(spec, s.feed, s.client, Place(h, s.snapshot.value, s.joined, told), s.drained))
  }

  lemma DrainWaiting(spec: DirectFeed, h: History, told: nat, s: System)
    requires Recorded(spec, h) && Inv(spec, h, told, s) && !s.closed && s.feed.pending.Some? && s.drained < |h.log|
    ensures var t := DrainNext(h, s); t.feed.pending.Some? && (!t.closed ==> Waiting(spec, h, t))
  {
    ConcernedLast(spec, h.log, s.subscribedAt, s.drained);
    var t, buffer := DrainNext(h, s), s.feed.pending.value;
    if !t.closed {
      assert buffer + [] == buffer;
      assert t.feed == s.feed.(pending := Some(buffer + OneConcerned(spec, h.log[s.drained])));
    }
  }

  /** What the reply lets through of the buffer of batches `from..drained`. */
  lemma BufferIs(spec: DirectFeed, h: History, from: nat, drained: nat, before: nat)
    requires Recorded(spec, h) && from <= before && from <= drained <= |h.log| && before <= |h.log|
    ensures From(Concerned(spec, h.log[from..drained]), before)
         == if before < drained then Concerned(spec, h.log[before..drained]) else []
  {
    forall i | 0 <= i < |h.log| ensures h.log[i].ordinal == i {
      EntriesAt(spec, h, i);
    }
    BufferFromSnapshot(spec, h.log, from, drained, before);
  }

  /** What feed and client are after the reply, from the buffer of batches `from..drained`. */
  lemma JoinedClient(spec: DirectFeed, h: History, f: DirectFeed, c: Client, l: Place, from: nat, drained: nat)
      returns (g: DirectFeed, d: Client)
    requires l.h == h && Placed(spec, l) && Fits(spec, h) && Sync(spec, f, c, l, l.joined)
    requires from <= l.before && from <= drained <= |h.log| && l.joined == Min(drained, l.before)
    ensures (g, d) == DeliverAll(f, c, From(Concerned(spec, h.log[from..drained]), l.before))
    ensures Sync(spec, g, d, l, drained)
  {
    BufferIs(spec, h, from, drained, l.before);
    if l.before < drained {
      g, d := DeliverRange(spec, f, c, l, l.before, drained);
    } else {
      g, d := f, c;
    }
  }

  lemma JoinKeeps(spec: DirectFeed, h: History, told: nat, s: System)
    requires Recorded(spec, h) && Fits(spec, h) && Inv(spec, h, told, s) && !s.closed
    requires s.snapshot.Some? && s.feed.pending.Some?
    ensures var t := Join(h, s); Inv(spec, h, told, t)
  {
    var p := s.snapshot.value;
    var joined := Min(s.drained, p);
    var l := Place(h, p, joined, told);
    var f := s.feed.(pending := None);
    var c := Client(SnapshotView(s.feed, h.shown[p]), 1, true, joined, []);
    SnapshotShows(s.feed, h.shown[p]);
    JoinedAtSnapshot(spec, s.feed, f, c, l);
    var g, d := JoinedClient(spec, h, f, c, l, s.subscribedAt, s.drained);
    ActiveKeeps(spec, h, told, s, s.(feed := g, client := d, joined := joined));
  }

  /** A client that has just read the snapshot. */
  lemma JoinedAtSnapshot(spec: DirectFeed, asked: DirectFeed, f: DirectFeed, c: Client, l: Place)
    requires Placed(spec, l) && Like(spec, f) && f.pending.None? && f.nextReport == 1
    requires c.next == 1 && c.contiguous && c.since == l.joined && c.received == []
    requires Like(spec, asked) && Shows(asked, c.view, l.h.shown[l.before])
    ensures Sync(spec, f, c, l, l.joined)
  {
    forall k ensures Held(spec, c.view, k) == Truth(spec, l.h.shown[l.before], k) {
      assert Truth(spec, l.h.shown[l.before], k) == Truth(asked, l.h.shown[l.before], k);
      assert Held(spec, c.view, k) == Held(asked, c.view, k);
    }
  }

  /** An active system whose feed and client are in step. */
  lemma ActiveKeeps(spec: DirectFeed, h: History, told: nat, s: System, t: System)
    requires Recorded(spec, h) && Inv(spec, h, told, s) && s.snapshot.Some?
    requires t == s.(drained := t.drained, feed := t.feed, joined := t.joined, client := t.client)
    requires s.drained <= t.drained <= s.published && t.joined <= s.snapshot.value && t.feed.pending.None?
    requires Sync(spec, t.feed, t.client, Place(h, s.snapshot.value, t.joined, told), t.drained)
    ensures Inv(spec, h, told, t)
  {
  }

  lemma DrainActive(spec: DirectFeed, h: History, told: nat, s: System)
    requires Recorded(spec, h) && Fits(spec, h) && Inv(spec, h, told, s) && s.drained < s.published
        && s.feed.pending.None?
    ensures var t := DrainNext(h, s); Inv(spec, h, told, t)
  {
    var l := Place(h, s.snapshot.value, s.joined, told);
    ReportsWithin(spec, h, s.joined, s.drained + 1, |h.log|);
    var f, c := DeliverKeeps(spec, s.feed, s.client, l, s.drained);
    ActiveKeeps(spec, h, told, s, s.(drained := s.drained + 1, feed := f, client := c));
  }

  lemma NextKeeps(spec: DirectFeed, h: History, told: nat, s: System, step: Step)
    requires Recorded(spec, h) && Fits(spec, h) && Inv(spec, h, told, s)
    ensures var t := Next(h, s, step); Inv(spec, h, told, t)
  {
    if !s.closed && step.Drain? && s.drained < s.published {
      if s.feed.pending.Some? {
        DrainWaiting(spec, h, told, s);
      } else {
        DrainActive(spec, h, told, s);
      }
    } else if !s.closed && step.Reply? && s.snapshot.Some? && s.feed.pending.Some? {
      JoinKeeps(spec, h, told, s);
    }
  }

  lemma {:induction false} RunKeeps(spec: DirectFeed, h: History, told: nat, s: System, steps: seq<Step>)
    requires Recorded(spec, h) && Fits(spec, h) && Inv(spec, h, told, s)
    ensures Inv(spec, h, told, Run(h, s, steps))
    decreases |steps|
  {
    if steps != [] {
      NextKeeps(spec, h, told, s, steps[0]);
      RunKeeps(spec, h, told, Next(h, s, steps[0]), steps[1..]);
    }
  }

  // ----- The claims --------------------------------------------------------

  /**
    The direct-feed theorem. On every run, from any registration point, the
    client has received exactly the messages that the batches from `joined` on
    owe it, in order, each good (see `Good`): contiguous exactly while no gap
    batch was processed, and then, where the processed batches were told truly,
    leaving the committed book of its batch, from the snapshot's batch on.
    Nothing is asked of batches before `joined`. No drain order is assumed:
    `joined` is before the snapshot when earlier batches were still undrained at
    the reply.
   */
  lemma ContiguousClientHoldsTheBook(
    spec: DirectFeed, h: History, published: nat, drained: nat, told: nat, steps: seq<Step>)
    requires Recorded(spec, h) && Fits(spec, h) && drained <= published <= |h.log| && told <= published
    ensures var s := Run(h, Start(spec, published, drained), steps);
      s.feed.pending.None? ==>
        && s.snapshot.Some? && drained <= s.joined <= s.snapshot.value <= |h.log| && s.joined <= s.drained <= |h.log|
        && var l := Place(h, s.snapshot.value, s.joined, told);
        && Batches(s.client.received) == Effective(h, s.joined, s.drained)
        && AllGood(spec, l, s.client.received)
        && (Gaps(spec, h, s.joined, s.drained) == 0 && s.snapshot.value <= s.drained && TrueTo(spec, l, s.drained) ==>
              Shows(spec, s.client.view, h.shown[s.drained]))
  {
    var start := Start(spec, published, drained);
    assert h.log[drained..drained] == [];
    assert start.feed == spec.(nextReport := 1, pending := Some(Concerned(spec, h.log[drained..drained])));
    RunKeeps(spec, h, told, start, steps);
    RunRegistered(h, start, steps);
    var s := Run(h, start, steps);
    if s.feed.pending.None? {
      ActiveShows(spec, h, told, s);
    }
  }

  lemma ActiveShows(spec: DirectFeed, h: History, told: nat, s: System)
    requires Recorded(spec, h) && Inv(spec, h, told, s) && s.feed.pending.None?
    ensures var l := Place(h, s.snapshot.value, s.joined, told);
      Gaps(spec, h, s.joined, s.drained) == 0 && s.snapshot.value <= s.drained && TrueTo(spec, l, s.drained) ==>
        Shows(spec, s.client.view, h.shown[s.drained])
  {
    var l := Place(h, s.snapshot.value, s.joined, told);
    if Gaps(spec, h, s.joined, s.drained) == 0 && s.snapshot.value <= s.drained && TrueTo(spec, l, s.drained) {
      SettledShows(spec, s.client.view, l, s.drained);
    }
  }

  /** The registration point does not move, and the feed joins at or after it. */
  lemma {:induction false} RunRegistered(h: History, s: System, steps: seq<Step>)
    requires s.subscribedAt <= s.drained && (s.snapshot.Some? ==> s.subscribedAt <= s.snapshot.value)
    requires s.subscribedAt <= s.published && (s.feed.pending.None? ==> s.subscribedAt <= s.joined)
    ensures var t := Run(h, s, steps);
      t.subscribedAt == s.subscribedAt && (t.feed.pending.None? ==> s.subscribedAt <= t.joined)
    decreases |steps|
  {
    if steps != [] {
      NextRegistered(h, s, steps[0]);
      RunRegistered(h, Next(h, s, steps[0]), steps[1..]);
    }
  }

  lemma NextRegistered(h: History, s: System, step: Step)
    requires s.subscribedAt <= s.drained && (s.snapshot.Some? ==> s.subscribedAt <= s.snapshot.value)
    requires s.subscribedAt <= s.published && (s.feed.pending.None? ==> s.subscribedAt <= s.joined)
    ensures var t := Next(h, s, step);
      && t.subscribedAt == s.subscribedAt <= t.drained && (t.snapshot.Some? ==> s.subscribedAt <= t.snapshot.value)
      && s.subscribedAt <= t.published && (t.feed.pending.None? ==> s.subscribedAt <= t.joined)
  {
    if step.Drain? && s.drained < s.published && s.drained < |h.log| && s.feed.pending.None? {
      ApplyKeepsPending(s.feed, h.log[s.drained]);
    }
  }

  lemma {:induction false} EffectiveAt(h: History, from: nat, to: nat, i: int)
    requires to <= |h.entries|
    ensures i in Effective(h, from, to) <==> from <= i < to && h.entries[i] != []
  {
    if from < to {
      EffectiveAt(h, from, to - 1, i);
      var front, last := Effective(h, from, to - 1), if h.entries[to - 1] != [] then [to - 1] else [];
      assert Effective(h, from, to) == front + last;
      assert i in front + last <==> i in front || i in last;
    }
  }

  lemma EffectiveRange(h: History, from: nat, to: nat)
    requires to <= |h.entries|
    ensures forall i :: i in Effective(h, from, to) <==> from <= i < to && h.entries[i] != []
  {
    forall i ensures i in Effective(h, from, to) <==> from <= i < to && h.entries[i] != [] {
      EffectiveAt(h, from, to, i);
    }
  }

  /**
    A feed sends only what follows its snapshot exactly when no batch that was
    undrained at the reply, and already in the snapshot, holds entries for it.
    Draining before handling the reply (`joined` at the snapshot) is enough.
   */
  lemma OnlyAfterTheSnapshotIff(spec: DirectFeed, h: History, published: nat, drained: nat, steps: seq<Step>)
    requires Recorded(spec, h) && Fits(spec, h) && drained <= published <= |h.log|
    ensures var s := Run(h, Start(spec, published, drained), steps);
      s.feed.pending.None? && s.snapshot.Some? && s.snapshot.value <= s.drained <= |h.log| ==>
        ((forall r :: r in s.client.received ==> s.snapshot.value <= r.batch)
         <==> (forall i | s.joined <= i < s.snapshot.value :: h.entries[i] == []))
  {
    ContiguousClientHoldsTheBook(spec, h, published, drained, 0, steps);
    var s := Run(h, Start(spec, published, drained), steps);
    if s.feed.pending.None? && s.snapshot.Some? && s.snapshot.value <= s.drained <= |h.log| {
      EffectiveRange(h, s.joined, s.drained);
      var rs, bs := s.client.received, Batches(s.client.received);
      BatchesOf(rs);
      assert forall i :: i in bs <==> s.joined <= i < s.drained && h.entries[i] != [];
    }
  }

  lemma BatchesOf(rs: seq<Receipt>)
    ensures forall r :: r in rs ==> r.batch in Batches(rs)
    ensures forall b :: b in Batches(rs) ==> exists r :: r in rs && r.batch == b
  {
    forall r | r in rs ensures r.batch in Batches(rs) {
      var i :| 0 <= i < |rs| && rs[i] == r;
      assert Batches(rs)[i] == r.batch;
    }
    forall b | b in Batches(rs) ensures exists r :: r in rs && r.batch == b {
      var i :| 0 <= i < |rs| && Batches(rs)[i] == b;
      assert rs[i] in rs;
    }
  }

  // ----- Earlier batches after the reply -----------------------------------

  /**
    The reply may be handled before a batch the snapshot already holds is
    drained; whatever that batch holds for the feed is then sent after the
    snapshot, although the snapshot was taken after it.
   */
  lemma UndrainedBatchIsRepeated(spec: DirectFeed, h: History)
    requires Recorded(spec, h) && Fits(spec, h) && |h.log| > 0 && h.entries[0] != []
    ensures var s := Run(h, Start(spec, 0, 0), [Commit, TakeSnapshot, Reply, Drain]);
      && s.feed.pending.None? && s.snapshot == Some(1)
      && |s.client.received| == 1 && s.client.received[0].batch == 0
      && s.client.received[0].message.entries == Tagged(spec.listing, h.entries[0])
  {
    ContiguousClientHoldsTheBook(spec, h, 0, 0, 0, [Commit, TakeSnapshot, Reply, Drain]);
    ReplyBeforeDrain(spec, h);
    var s := Run(h, Start(spec, 0, 0), [Commit, TakeSnapshot, Reply, Drain]);
    OneEffective(h);
    var rs := s.client.received;
    assert |rs| == |Batches(rs)| && rs[0].batch == Batches(rs)[0];
    assert GoodAt(spec, Place(h, 1, 0, 0), rs, 0);
  }

  lemma ReplyBeforeDrain(spec: DirectFeed, h: History)
    requires |h.log| > 0 && |h.shown| > 1
    ensures var s := Run(h, Start(spec, 0, 0), [Commit, TakeSnapshot, Reply, Drain]);
      s.feed.pending.None? && s.snapshot == Some(1) && s.joined == 0 && s.drained == 1
  {
    var s0 := Start(spec, 0, 0);
    var s2 := Next(h, Next(h, s0, Commit), TakeSnapshot);
    assert s2 == s0.(published := 1, snapshot := Some(1));
    var s3 := Next(h, s2, Reply);
    assert s3 == Join(h, s2) && From([], 1) == [];
    assert s3.feed == s2.feed.(pending := None) && s3.joined == 0 && s3.drained == 0 && s3.snapshot == Some(1)
      && !s3.closed && s3.published == 1;
    assert Next(h, s3, Drain) == DrainNext(h, s3);
    ApplyKeepsPending(s3.feed, h.log[0]);
    RunOfFour(h, s0, Commit, TakeSnapshot, Reply, Drain);
  }

  lemma ApplyKeepsPending(f: DirectFeed, b: Committed)
    ensures Apply(f, b).0.pending == f.pending
  {
  }

  lemma OneEffective(h: History)
    requires |h.entries| > 0 && h.entries[0] != []
    ensures Effective(h, 0, 1) == [0]
  {
    assert Effective(h, 0, 0) == [];
  }

  /** Such a history exists, told truly throughout: one batch with one trade. */
  lemma TradeHistory(spec: DirectFeed) returns (h: History)
    requires spec.trades
    ensures Recorded(spec, h) && Fits(spec, h) && |h.log| == 1 && TrueAt(spec, h, 0, 0)
    ensures h.entries == [[TradeEntry(100, 7, None, None, None)]]
  {
    var nothing, trade := Shown(EMPTY_DEPTH, []), Trade(100, 7, None, None, None);
    var entry := TradeEntry(100, 7, None, None, None);
    var u := ListingUpdate(spec.listing, [trade], [], None, None, []);
    var b := Committed(0, Venue(spec.listing.venue), [], 0, [u], []);
    h := History([b], [nothing, nothing], [[entry]]);
    assert UpdateFor(b.public, spec.listing) == Some(u);
    assert Tells(spec, u, nothing, nothing);
    assert TradeIncrements(spec, [trade]) == [entry] + TradeIncrements(spec, []);
    assert Entries(spec, u) == [entry];
    assert StandsAt(spec, h, 0);
    assert Reports(spec, h, 0, 1) == Reports(spec, h, 0, 0) + 1;
  }

  lemma RunOfFour(h: History, s: System, a: Step, b: Step, c: Step, d: Step)
    ensures Run(h, s, [a, b, c, d]) == Next(h, Next(h, Next(h, Next(h, s, a), b), c), d)
  {
    var s1 := Next(h, s, a);
    var s2 := Next(h, s1, b);
    var s3 := Next(h, s2, c);
    assert [a, b, c, d][1..] == [b, c, d] && [b, c, d][1..] == [c, d] && [c, d][1..] == [d] && [d][1..] == [];
    assert Run(h, s3, [d]) == Run(h, Next(h, s3, d), []);
    assert Run(h, s2, [c, d]) == Run(h, s3, [d]);
    assert Run(h, s1, [b, c, d]) == Run(h, s2, [c, d]);
    assert Run(h, s, [a, b, c, d]) == Run(h, s1, [b, c, d]);
  }
}
