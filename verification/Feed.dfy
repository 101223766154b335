/**
  One direct venue feed (public_feed.rs) and the client that reads it.

  The feed numbers its entries; a batch whose public projection failed consumes
  one number and sends nothing. The client keeps a view of the listing, by price
  level or order by order, and a report number it expects next.
 */
module Feed {
  import opened Words
  import opened Market
  import opened Book

  datatype Detail = ByLevel | ByOrder

  datatype DirectFeed = DirectFeed(
    requestId: nat,
    listing: ListingKey,
    bids: bool,
    offers: bool,
    trades: bool,
    detail: Detail,
    nextReport: nat,
    pending: Option<seq<Committed>>,
    lastSendUs: nat)

  predicate Wants(f: DirectFeed, side: Side) {
    if side.Buy? then f.bids else f.offers
  }

  function LevelAction(c: LevelChange): UpdateAction {
    if c.quantity == 0 then Delete else if c.previous == 0 then New else UpdateAction.Change
  }

  function OrderUpdate(a: OrderAction): UpdateAction {
    match a
    case Added => New
    case Changed => UpdateAction.Change
    case Deleted => Delete
  }

  function LevelIncrement(c: LevelChange): Increment {
    LevelEntry(LevelAction(c), c.side, c.price, c.quantity)
  }

  function OrderIncrement(c: OrderChange): Increment {
    OrderEntry(OrderUpdate(c.action), c.side, c.reference, c.price, c.quantity, c.broker)
  }

  /** Only an order-by-order feed names the resting order. */
  function TradeIncrement(f: DirectFeed, t: Trade): Increment {
    TradeEntry(t.price, t.quantity, if f.detail.ByOrder? then t.reference else None, t.buyer, t.seller)
  }

  function TradeIncrements(f: DirectFeed, ts: seq<Trade>): seq<Increment> {
    if ts == [] then [] else [TradeIncrement(f, ts[0])] + TradeIncrements(f, ts[1..])
  }

  function LevelIncrements(f: DirectFeed, cs: seq<LevelChange>): seq<Increment> {
    if cs == [] then []
    else (if Wants(f, cs[0].side) then [LevelIncrement(cs[0])] else []) + LevelIncrements(f, cs[1..])
  }

  function OrderIncrements(f: DirectFeed, cs: seq<OrderChange>): seq<Increment> {
    if cs == [] then []
    else (if Wants(f, cs[0].side) then [OrderIncrement(cs[0])] else []) + OrderIncrements(f, cs[1..])
  }

  /** A feed's entries of one listing update: its trades, then its book changes. */
  function Entries(f: DirectFeed, u: ListingUpdate): seq<Increment> {
    (if f.trades then TradeIncrements(f, u.trades) else [])
    + (if f.detail.ByOrder? then OrderIncrements(f, u.orders) else LevelIncrements(f, u.levels))
  }

  function UpdateFor(public: seq<ListingUpdate>, listing: ListingKey): Option<ListingUpdate> {
    if public == [] then None
    else if public[0].listing == listing then Some(public[0])
    else UpdateFor(public[1..], listing)
  }

  function Tagged(listing: ListingKey, es: seq<Increment>): seq<(ListingKey, Increment)> {
    seq(|es|, i requires 0 <= i < |es| => (listing, es[i]))
  }

  /** One batch on an active feed: its increment, or one skipped report number. */
  function Apply(f: DirectFeed, b: Committed): (DirectFeed, Option<FeedMessage>) {
    if f.listing in b.publicGaps then (f.(nextReport := SatAdd(f.nextReport, 1)), None)
    else match UpdateFor(b.public, f.listing)
      case None => (f, None)
      case Some(u) =>
        var es := Entries(f, u);
        if es == [] then (f, None)
        else (f.(nextReport := SatAdd(f.nextReport, |es|)),
              Some(FeedMessage(Venue(f.listing.venue), b.durableUs, f.requestId, f.nextReport, Tagged(f.listing, es))))
  }

  /** Whether a batch concerns a feed's listing at all. */
  predicate Concerns(f: DirectFeed, b: Committed) {
    UpdateFor(b.public, f.listing).Some? || f.listing in b.publicGaps
  }

  function Optional<T>(m: Option<T>): seq<T> {
    if m.Some? then [m.value] else []
  }

  function ApplyAll(f: DirectFeed, bs: seq<Committed>): (DirectFeed, seq<FeedMessage>)
    decreases |bs|
  {
    if bs == [] then (f, [])
    else
      var (g, m) := Apply(f, bs[0]);
      var (h, ms) := ApplyAll(g, bs[1..]);
      (h, Optional(m) + ms)
  }

  /** The buffered batches published after the snapshot. */
  function From(bs: seq<Committed>, publishedBefore: nat): seq<Committed> {
    if bs == [] then []
    else (if bs[0].ordinal >= publishedBefore then [bs[0]] else []) + From(bs[1..], publishedBefore)
  }

  /** The snapshot arrived: what was buffered after it follows. */
  function Activate(f: DirectFeed, publishedBefore: nat): (DirectFeed, seq<FeedMessage>) {
    ApplyAll(f.(pending := None), From(if f.pending.Some? then f.pending.value else [], publishedBefore))
  }

  const MAX_BUFFERED_BATCHES: nat := 4096

  predicate Overflows(f: DirectFeed, b: Committed) {
    Concerns(f, b) && f.pending.Some? && |f.pending.value| >= MAX_BUFFERED_BATCHES
  }

  /** One drained batch on one feed. */
  function OnBatch(f: DirectFeed, b: Committed): (DirectFeed, seq<FeedMessage>) {
    if !Concerns(f, b) then (f, [])
    else match f.pending
      case Some(buffer) => (f.(pending := Some(buffer + [b])), [])
      case None => var (g, m) := Apply(f, b); (g, Optional(m))
  }

  // ----- The client --------------------------------------------------------

  datatype Key = AtPrice(side: Side, price: int) | AtReference(reference: nat)

  datatype Cell = Cell(side: Side, price: int, quantity: nat, broker: Option<nat>)

  type View = map<Key, Cell>

  function Lookup(v: View, k: Key): Option<Cell> {
    if k in v then Some(v[k]) else None
  }

  function KeyOf(e: Increment): Option<Key> {
    match e
    case TradeEntry(_, _, _, _, _) => None
    case LevelEntry(_, side, price, _) => Some(AtPrice(side, price))
    case OrderEntry(_, _, reference, _, _, _) => Some(AtReference(reference))
  }

  /** What an entry makes of its key: absolute, never relative to what was there. */
  function CellOf(e: Increment): Option<Cell> {
    match e
    case TradeEntry(_, _, _, _, _) => None
    case LevelEntry(_, side, price, quantity) => if quantity == 0 then None else Some(Cell(side, price, quantity, None))
    case OrderEntry(action, side, _, price, quantity, broker) =>
      if action.Delete? then None else Some(Cell(side, price, quantity, broker))
  }

  function ApplyEntry(v: View, e: Increment): View {
    match (KeyOf(e), CellOf(e))
    case (None, _) => v
    case (Some(k), None) => v - {k}
    case (Some(k), Some(c)) => v[k := c]
  }

  function ApplyEntries(v: View, es: seq<Increment>): View {
    if es == [] then v else ApplyEntry(ApplyEntries(v, es[..|es| - 1]), es[|es| - 1])
  }

  /** What a listing displays. */
  datatype Shown = Shown(depth: Depth, orders: seq<DisplayedOrder>)

  /** The cell a client of this feed should hold at `k`. */
  function Truth(f: DirectFeed, s: Shown, k: Key): Option<Cell> {
    match k
    case AtPrice(side, price) =>
      if f.detail.ByLevel? && Wants(f, side) && Visible(s.depth, side, price) > 0
      then Some(Cell(side, price, Visible(s.depth, side, price), None)) else None
    case AtReference(reference) =>
      var o := Find(s.orders, reference);
      if f.detail.ByOrder? && o.Some? && Wants(f, o.value.side)
      then Some(Cell(o.value.side, o.value.price, o.value.quantity, o.value.broker)) else None
  }

  /** What a client holds of the sides its feed carries. */
  function Held(f: DirectFeed, v: View, k: Key): Option<Cell> {
    if k in v && Wants(f, v[k].side) then Some(v[k]) else None
  }

  ghost predicate Shows(f: DirectFeed, v: View, s: Shown) {
    forall k :: Held(f, v, k) == Truth(f, s, k)
  }

  /** Orders keep their side, price and broker while they keep their reference. */
  ghost predicate SameOrders(before: seq<DisplayedOrder>, after: seq<DisplayedOrder>) {
    forall r: nat :: Find(before, r).Some? && Find(after, r).Some? ==>
      var o, n := Find(before, r).value, Find(after, r).value;
      o.side == n.side && o.price == n.price && o.broker == n.broker
  }

  /** The order changes on the sides a feed carries are exactly the true ones. */
  ghost predicate TellsOrders(f: DirectFeed, cs: seq<OrderChange>, before: Shown, after: Shown) {
    && DistinctChanges(cs)
    && (forall c: OrderChange | Wants(f, c.side) ::
          c in cs <==> ChangeOf(Find(before.orders, c.reference), Find(after.orders, c.reference)) == Some(c))
    && SameOrders(before.orders, after.orders)
  }

  /** An update that tells this feed's book truly. */
  ghost predicate Tells(f: DirectFeed, u: ListingUpdate, before: Shown, after: Shown) {
    if f.detail.ByLevel? then IsLevelDiff(u.levels, before.depth, after.depth)
    else TellsOrders(f, u.orders, before, after)
  }

  // ----- Entries are absolute ----------------------------------------------

  lemma {:induction false} UntouchedKey(v: View, es: seq<Increment>, k: Key)
    requires forall i | 0 <= i < |es| :: KeyOf(es[i]) != Some(k)
    ensures Lookup(ApplyEntries(v, es), k) == Lookup(v, k)
  {
    if es != [] {
      UntouchedKey(v, es[..|es| - 1], k);
    }
  }

  lemma {:induction false} TouchedKey(v: View, es: seq<Increment>, i: nat, k: Key)
    requires i < |es| && KeyOf(es[i]) == Some(k)
    requires forall j | i < j < |es| :: KeyOf(es[j]) != Some(k)
    ensures Lookup(ApplyEntries(v, es), k) == CellOf(es[i])
  {
    if i < |es| - 1 {
      TouchedKey(v, es[..|es| - 1], i, k);
    }
  }

  ghost predicate DistinctKeys(es: seq<Increment>) {
    forall i, j | 0 <= i < j < |es| :: KeyOf(es[i]) != KeyOf(es[j])
  }

  lemma {:induction false} TradesTouchNothing(f: DirectFeed, ts: seq<Trade>)
    ensures forall i | 0 <= i < |TradeIncrements(f, ts)| :: TradeIncrements(f, ts)[i].TradeEntry?
  {
    if ts != [] {
      TradesTouchNothing(f, ts[1..]);
    }
  }

  /** Every level entry comes from a wanted change. */
  lemma {:induction false} LevelOrigin(f: DirectFeed, cs: seq<LevelChange>, e: Increment) returns (c: LevelChange)
    requires e in LevelIncrements(f, cs)
    ensures c in cs && Wants(f, c.side) && e == LevelIncrement(c)
  {
    if Wants(f, cs[0].side) && e == LevelIncrement(cs[0]) {
      c := cs[0];
    } else {
      c := LevelOrigin(f, cs[1..], e);
    }
  }

  lemma {:induction false} LevelIncrementsExact(f: DirectFeed, cs: seq<LevelChange>)
    requires forall i, j | 0 <= i < j < |cs| :: cs[i].side != cs[j].side || cs[i].price != cs[j].price
    ensures var es := LevelIncrements(f, cs);
      && (forall c :: c in cs && Wants(f, c.side) ==> LevelIncrement(c) in es)
      && DistinctKeys(es)
  {
    if cs != [] {
      var rest := LevelIncrements(f, cs[1..]);
      LevelIncrementsExact(f, cs[1..]);
      assert cs == [cs[0]] + cs[1..];
      forall i | 0 <= i < |rest| ensures KeyOf(rest[i]) != KeyOf(LevelIncrement(cs[0])) {
        var c := LevelOrigin(f, cs[1..], rest[i]);
      }
      var es := LevelIncrements(f, cs);
      var head := |es| - |rest|;
      forall i, j | 0 <= i < j < |es| ensures KeyOf(es[i]) != KeyOf(es[j]) {
        assert es[j] == rest[j - head];
        if head <= i {
          assert es[i] == rest[i - head] && KeyOf(rest[i - head]) != KeyOf(rest[j - head]);
        } else {
          assert es[i] == LevelIncrement(cs[0]);
        }
      }
    }
  }

  /** Every order entry comes from a wanted change. */
  lemma {:induction false} OrderOrigin(f: DirectFeed, cs: seq<OrderChange>, e: Increment) returns (c: OrderChange)
    requires e in OrderIncrements(f, cs)
    ensures c in cs && Wants(f, c.side) && e == OrderIncrement(c)
  {
    if Wants(f, cs[0].side) && e == OrderIncrement(cs[0]) {
      c := cs[0];
    } else {
      c := OrderOrigin(f, cs[1..], e);
    }
  }

  lemma {:induction false} OrderIncrementsExact(f: DirectFeed, cs: seq<OrderChange>)
    requires forall i, j | 0 <= i < j < |cs| :: cs[i].reference != cs[j].reference
    ensures var es := OrderIncrements(f, cs);
      && (forall c :: c in cs && Wants(f, c.side) ==> OrderIncrement(c) in es)
      && DistinctKeys(es)
  {
    if cs != [] {
      var rest := OrderIncrements(f, cs[1..]);
      OrderIncrementsExact(f, cs[1..]);
      assert cs == [cs[0]] + cs[1..];
      forall i | 0 <= i < |rest| ensures KeyOf(rest[i]) != KeyOf(OrderIncrement(cs[0])) {
        var c := OrderOrigin(f, cs[1..], rest[i]);
      }
      var es := OrderIncrements(f, cs);
      var head := |es| - |rest|;
      forall i, j | 0 <= i < j < |es| ensures KeyOf(es[i]) != KeyOf(es[j]) {
        assert es[j] == rest[j - head];
        if head <= i {
          assert es[i] == rest[i - head] && KeyOf(rest[i - head]) != KeyOf(rest[j - head]);
        } else {
          assert es[i] == OrderIncrement(cs[0]);
        }
      }
    }
  }

  lemma BookEntriesSet(es: seq<Increment>, trades: seq<Increment>, v: View, k: Key, e: Increment)
    requires e in es && KeyOf(e) == Some(k)
    requires DistinctKeys(es)
    ensures Lookup(ApplyEntries(v, trades + es), k) == CellOf(e)
  {
    var i :| 0 <= i < |es| && es[i] == e;
    var all := trades + es;
    assert forall j | |trades| + i < j < |all| :: all[j] == es[j - |trades|];
    TouchedKey(v, all, |trades| + i, k);
  }

  lemma NoEntrySets(es: seq<Increment>, trades: seq<Increment>, v: View, k: Key)
    requires forall e :: e in es ==> KeyOf(e) != Some(k)
    requires forall i | 0 <= i < |trades| :: trades[i].TradeEntry?
    ensures Lookup(ApplyEntries(v, trades + es), k) == Lookup(v, k)
  {
    var all := trades + es;
    forall i | 0 <= i < |all| ensures KeyOf(all[i]) != Some(k) {
      if i >= |trades| {
        assert all[i] == es[i - |trades|] && all[i] in es;
      }
    }
    UntouchedKey(v, all, k);
  }

  lemma LevelsOverwrite(f: DirectFeed, u: ListingUpdate, before: Shown, after: Shown, v: View, k: Key)
    requires f.detail.ByLevel? && Tells(f, u, before, after)
    ensures Held(f, ApplyEntries(v, Entries(f, u)), k)
         == if Truth(f, before, k) == Truth(f, after, k) then Held(f, v, k) else Truth(f, after, k)
  {
    var trades := if f.trades then TradeIncrements(f, u.trades) else [];
    var es := LevelIncrements(f, u.levels);
    TradesTouchNothing(f, u.trades);
    LevelIncrementsExact(f, u.levels);
    if k.AtPrice? && Wants(f, k.side)
      && Visible(before.depth, k.side, k.price) != Visible(after.depth, k.side, k.price) {
      var c := LevelChange(
        k.side, k.price, Visible(before.depth, k.side, k.price), Visible(after.depth, k.side, k.price));
      assert c in u.levels;
      BookEntriesSet(es, trades, v, k, LevelIncrement(c));
    } else {
      forall e | e in es ensures KeyOf(e) != Some(k) {
        var c := LevelOrigin(f, u.levels, e);
      }
      NoEntrySets(es, trades, v, k);
    }
  }

  lemma OrdersOverwrite(f: DirectFeed, u: ListingUpdate, before: Shown, after: Shown, v: View, k: Key)
    requires f.detail.ByOrder? && Tells(f, u, before, after)
    ensures Held(f, ApplyEntries(v, Entries(f, u)), k)
         == if Truth(f, before, k) == Truth(f, after, k) then Held(f, v, k) else Truth(f, after, k)
  {
    var trades := if f.trades then TradeIncrements(f, u.trades) else [];
    var es := OrderIncrements(f, u.orders);
    TradesTouchNothing(f, u.trades);
    OrderIncrementsExact(f, u.orders);
    if k.AtReference? {
      var c := ChangeOf(Find(before.orders, k.reference), Find(after.orders, k.reference));
      OrderTruth(f, before, after, k);
      if c.Some? && Wants(f, c.value.side) {
        assert c.value in u.orders;
        BookEntriesSet(es, trades, v, k, OrderIncrement(c.value));
        return;
      }
    }
    forall e | e in es ensures KeyOf(e) != Some(k) {
      var d := OrderOrigin(f, u.orders, e);
    }
    NoEntrySets(es, trades, v, k);
  }

  lemma OrderTruth(f: DirectFeed, before: Shown, after: Shown, k: Key)
    requires f.detail.ByOrder? && k.AtReference? && SameOrders(before.orders, after.orders)
    ensures var c := ChangeOf(Find(before.orders, k.reference), Find(after.orders, k.reference));
      && (c.Some? ==> c.value.reference == k.reference)
      && (c.Some? && Wants(f, c.value.side) ==>
            Truth(f, after, k) == CellOf(OrderIncrement(c.value)) && Truth(f, before, k) != Truth(f, after, k))
      && (c.None? || !Wants(f, c.value.side) ==> Truth(f, before, k) == Truth(f, after, k))
  {
    FindInRest(before.orders, k.reference);
    FindInRest(after.orders, k.reference);
  }

  /**
    A true update overwrites: whatever view it is applied to, exactly the keys
    that changed become what they are after the commit.
   */
  lemma UpdateOverwrites(f: DirectFeed, u: ListingUpdate, before: Shown, after: Shown, v: View, k: Key)
    requires Tells(f, u, before, after)
    ensures Held(f, ApplyEntries(v, Entries(f, u)), k)
         == if Truth(f, before, k) == Truth(f, after, k) then Held(f, v, k) else Truth(f, after, k)
  {
    if f.detail.ByLevel? {
      LevelsOverwrite(f, u, before, after, v, k);
    } else {
      OrdersOverwrite(f, u, before, after, v, k);
    }
  }

  // ----- What entries say beyond the book ----------------------------------

  function TradeOf(e: Increment): Trade
    requires e.TradeEntry?
  {
    Trade(e.price, e.quantity, e.resting, e.buyer, e.seller)
  }

  /** The trades among entries, in order. */
  function TradesIn(es: seq<Increment>): seq<Trade> {
    if es == [] then [] else (if es[0].TradeEntry? then [TradeOf(es[0])] else []) + TradesIn(es[1..])
  }

  lemma {:induction false} TradesInConcat(a: seq<Increment>, b: seq<Increment>)
    ensures TradesIn(a + b) == TradesIn(a) + TradesIn(b)
  {
    if a == [] {
      assert a + b == b;
    } else {
      var head := if a[0].TradeEntry? then [TradeOf(a[0])] else [];
      calc {
        TradesIn(a + b);
        { assert (a + b)[0] == a[0] && (a + b)[1..] == a[1..] + b; }
        head + TradesIn(a[1..] + b);
        { TradesInConcat(a[1..], b); }
        head + (TradesIn(a[1..]) + TradesIn(b));
        (head + TradesIn(a[1..])) + TradesIn(b);
      }
    }
  }

  /** A trade as a feed of this detail carries it. */
  function AsCarried(f: DirectFeed, t: Trade): Trade {
    t.(reference := if f.detail.ByOrder? then t.reference else None)
  }

  function AllCarried(f: DirectFeed, ts: seq<Trade>): seq<Trade> {
    seq(|ts|, i requires 0 <= i < |ts| => AsCarried(f, ts[i]))
  }

  lemma {:induction false} TradesRoundTrip(f: DirectFeed, ts: seq<Trade>)
    ensures TradesIn(TradeIncrements(f, ts)) == AllCarried(f, ts)
  {
    if ts != [] {
      TradesRoundTrip(f, ts[1..]);
      var es := TradeIncrements(f, ts);
      assert es[1..] == TradeIncrements(f, ts[1..]);
      assert AllCarried(f, ts) == [AsCarried(f, ts[0])] + AllCarried(f, ts[1..]);
    }
  }

  lemma {:induction false} NoTrades(es: seq<Increment>)
    requires forall i | 0 <= i < |es| :: !es[i].TradeEntry?
    ensures TradesIn(es) == []
  {
    if es != [] {
      NoTrades(es[1..]);
    }
  }

  /** A feed with trades carries each trade of an update once and in order; one without carries none. */
  lemma EntriesCarryTheTrades(f: DirectFeed, u: ListingUpdate)
    ensures TradesIn(Entries(f, u)) == if f.trades then AllCarried(f, u.trades) else []
  {
    var trades := if f.trades then TradeIncrements(f, u.trades) else [];
    var book := if f.detail.ByOrder? then OrderIncrements(f, u.orders) else LevelIncrements(f, u.levels);
    TradesInConcat(trades, book);
    TradesRoundTrip(f, u.trades);
    forall i | 0 <= i < |book| ensures !book[i].TradeEntry? {
      assert book[i] in book;
      if f.detail.ByOrder? {
        var c := OrderOrigin(f, u.orders, book[i]);
      } else {
        var c := LevelOrigin(f, u.levels, book[i]);
      }
    }
    NoTrades(book);
  }

  lemma EntryIsBook(f: DirectFeed, u: ListingUpdate, e: Increment)
    requires e in Entries(f, u)
    ensures e.LevelEntry? ==> e in LevelIncrements(f, u.levels) && f.detail.ByLevel?
    ensures e.OrderEntry? ==> e in OrderIncrements(f, u.orders) && f.detail.ByOrder?
  {
    if f.trades && e in TradeIncrements(f, u.trades) {
      TradesTouchNothing(f, u.trades);
    } else if f.detail.ByOrder? {
      var c := OrderOrigin(f, u.orders, e);
    } else {
      var c := LevelOrigin(f, u.levels, e);
    }
  }

  /** An entry's action says whether its key was displayed before the commit and is after it. */
  lemma ActionsAreTrue(f: DirectFeed, u: ListingUpdate, before: Shown, after: Shown, e: Increment)
    requires Tells(f, u, before, after) && e in Entries(f, u)
    ensures e.LevelEntry? ==>
      && e.quantity == Visible(after.depth, e.side, e.price)
      && (e.action.New? <==> Visible(before.depth, e.side, e.price) == 0)
      && (e.action.Delete? <==> Visible(after.depth, e.side, e.price) == 0)
    ensures e.OrderEntry? ==>
      && (e.action.New? <==> Find(before.orders, e.reference).None?)
      && (e.action.Delete? <==> Find(after.orders, e.reference).None?)
  {
    EntryIsBook(f, u, e);
    if e.LevelEntry? {
      var c := LevelOrigin(f, u.levels, e);
    } else if e.OrderEntry? {
      var c := OrderOrigin(f, u.orders, e);
    }
  }

  // ----- The order of a feed's entries -------------------------------------

  function Rank(e: Increment): nat {
    match e
    case TradeEntry(_, _, _, _, _) => 0
    case LevelEntry(_, side, _, _) => if side.Buy? then 1 else 2
    case OrderEntry(action, _, _, _, _, _) => if action.Delete? then 1 else if action.Change? then 2 else 3
  }

  /** A later entry ranks no earlier, and prices of a side rise. */
  ghost predicate Ranked(es: seq<Increment>) {
    forall i, j | 0 <= i < j < |es| ::
      && Rank(es[i]) <= Rank(es[j])
      && (es[i].LevelEntry? && es[j].LevelEntry? && es[i].side == es[j].side ==> es[i].price < es[j].price)
  }

  function OrderRank(a: OrderAction): nat {
    match a
    case Deleted => 1
    case Changed => 2
    case Added => 3
  }

  lemma {:induction false} LevelsRanked(f: DirectFeed, cs: seq<LevelChange>)
    requires LevelsInOrder(cs)
    ensures Ranked(LevelIncrements(f, cs))
  {
    if cs != [] {
      var rest := cs[1..];
      assert forall i | 0 <= i < |rest| :: rest[i] == cs[i + 1];
      LevelsRanked(f, rest);
      forall e | e in LevelIncrements(f, rest)
        ensures e.LevelEntry? && ((cs[0].side.Buy? && e.side.Sell?) || (cs[0].side == e.side && cs[0].price < e.price))
      {
        var c := LevelOrigin(f, rest, e);
        var i :| 0 <= i < |rest| && rest[i] == c;
      }
      var es := LevelIncrements(f, rest);
      assert forall i | 0 <= i < |es| :: es[i] in es;
    }
  }

  lemma {:induction false} OrdersRanked(f: DirectFeed, cs: seq<OrderChange>)
    requires forall i, j | 0 <= i < j < |cs| :: OrderRank(cs[i].action) <= OrderRank(cs[j].action)
    ensures Ranked(OrderIncrements(f, cs))
  {
    if cs != [] {
      var rest := cs[1..];
      assert forall i | 0 <= i < |rest| :: rest[i] == cs[i + 1];
      OrdersRanked(f, rest);
      forall e | e in OrderIncrements(f, rest) ensures e.OrderEntry? && OrderRank(cs[0].action) <= Rank(e) {
        var c := OrderOrigin(f, rest, e);
        var i :| 0 <= i < |rest| && rest[i] == c;
      }
      var es := OrderIncrements(f, rest);
      assert forall i | 0 <= i < |es| :: es[i] in es;
    }
  }

  /**
    A feed sends an update's trades first and then its book changes as they are
    listed: bids before offers by price, or deletions, changes and additions.
   */
  lemma EntriesInOrder(f: DirectFeed, u: ListingUpdate)
    requires LevelsInOrder(u.levels)
    requires forall i, j | 0 <= i < j < |u.orders| :: OrderRank(u.orders[i].action) <= OrderRank(u.orders[j].action)
    ensures Ranked(Entries(f, u))
  {
    TradesTouchNothing(f, u.trades);
    LevelsRanked(f, u.levels);
    OrdersRanked(f, u.orders);
    TradesLead(if f.trades then TradeIncrements(f, u.trades) else [],
      if f.detail.ByOrder? then OrderIncrements(f, u.orders) else LevelIncrements(f, u.levels));
  }

  lemma TradesLead(ts: seq<Increment>, es: seq<Increment>)
    requires (forall i | 0 <= i < |ts| :: ts[i].TradeEntry?) && Ranked(es)
    ensures Ranked(ts + es)
  {
  }
}
