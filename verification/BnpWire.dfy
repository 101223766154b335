/**
  The wire form of a session's public feeds (bnp_feeds.rs): an increment on the
  wire keeps every numbered entry and its meaning, and an order-by-order
  snapshot goes out in parts that fit their frames.
 */
module BnpWire {
  import opened Words
  import opened Market
  import opened Book
  import opened Feed
  import Tape
  import Quoted = TapeClient

  /** What a subscription is, as remembered for encoding. */
  datatype Kind = Levels(listing: ListingKey) | Orders(listing: ListingKey) | TapeOf(instrument: nat)

  function KindOf(f: DirectFeed): Kind {
    if f.detail.ByOrder? then Orders(f.listing) else Levels(f.listing)
  }

  // ----- The wire form -----------------------------------------------------

  datatype EntryKind = TradeKind | BidKind | AskKind

  datatype WireEntry =
    | Plain(kind: EntryKind, price: int, quantity: nat)
    | OrderWire(action: UpdateAction, side: Side, reference: nat, price: int, quantity: nat, broker: Option<nat>)
    | OrderTrade(price: int, quantity: nat, resting: Option<nat>, buyer: Option<nat>, seller: Option<nat>)
    | TapeWire(venue: nat, kind: EntryKind, price: int, quantity: nat)

  datatype WireMessage =
    | MarketUpdate(requestId: nat, listing: ListingKey, firstReport: nat, entries: seq<WireEntry>)
    | OrderUpdate(requestId: nat, listing: ListingKey, firstReport: nat, entries: seq<WireEntry>)
    | TapeUpdate(requestId: nat, instrument: nat, firstReport: nat, entries: seq<WireEntry>)

  function LevelWire(e: Increment): Option<WireEntry> {
    match e
    case TradeEntry(price, quantity, _, _, _) => Some(Plain(TradeKind, price, quantity))
    case LevelEntry(_, side, price, quantity) => Some(Plain(if side.Buy? then BidKind else AskKind, price, quantity))
    case OrderEntry(_, _, _, _, _, _) => None
  }

  function OrderEntryWire(e: Increment): Option<WireEntry> {
    match e
    case TradeEntry(price, quantity, resting, buyer, seller) =>
      Some(OrderTrade(price, quantity, resting, buyer, seller))
    case OrderEntry(action, side, reference, price, quantity, broker) =>
      Some(OrderWire(action, side, reference, price, quantity, broker))
    case LevelEntry(_, _, _, _) => None
  }

  function EntryWire(kind: Kind, e: (ListingKey, Increment)): Option<WireEntry> {
    match kind
    case Levels(_) => LevelWire(e.1)
    case Orders(_) => OrderEntryWire(e.1)
    case TapeOf(_) =>
      match LevelWire(e.1)
      case Some(Plain(k, price, quantity)) => Some(TapeWire(e.0.venue, k, price, quantity))
      case _ => None
  }

  function EncodeEntries(kind: Kind, es: seq<(ListingKey, Increment)>): seq<WireEntry> {
    if es == [] then []
    else
      EncodeEntries(kind, es[..|es| - 1])
      + var w := EntryWire(kind, es[|es| - 1]); if w.Some? then [w.value] else []
  }

  function Encode(kind: Kind, m: FeedMessage): WireMessage {
    var es := EncodeEntries(kind, m.entries);
    match kind
    case Levels(listing) => MarketUpdate(m.requestId, listing, m.firstReport, es)
    case Orders(listing) => OrderUpdate(m.requestId, listing, m.firstReport, es)
    case TapeOf(instrument) => TapeUpdate(m.requestId, instrument, m.firstReport, es)
  }

  function EncodeAll(kinds: map<nat, Kind>, ms: seq<FeedMessage>): seq<WireMessage> {
    if ms == [] then []
    else
      var m := ms[|ms| - 1];
      EncodeAll(kinds, ms[..|ms| - 1]) + if m.requestId in kinds then [Encode(kinds[m.requestId], m)] else []
  }

  /** The kind names this listing. */
  predicate InKind(kind: Kind, k: ListingKey) {
    match kind
    case Levels(listing) => k == listing
    case Orders(listing) => k == listing
    case TapeOf(instrument) => k.instrument == instrument
  }

  /** An entry the kind can carry. */
  predicate Fits(kind: Kind, e: (ListingKey, Increment)) {
    InKind(kind, e.0) && if kind.Orders? then !e.1.LevelEntry? else !e.1.OrderEntry?
  }

  ghost predicate AllFit(kind: Kind, es: seq<(ListingKey, Increment)>) {
    forall i | 0 <= i < |es| :: Fits(kind, es[i])
  }

  // ----- What a reader makes of the wire -----------------------------------

  /** One entry as its reader takes it; only the tape names a venue. */
  datatype Told =
    | ToldTrade(venue: Option<nat>, trade: Trade)
    | ToldLevel(venue: Option<nat>, side: Side, price: int, quantity: nat)
    | ToldOrder(action: UpdateAction, side: Side, reference: nat, price: int, quantity: nat, broker: Option<nat>)

  function SideNamed(kind: EntryKind): Side {
    if kind.BidKind? then Buy else Sell
  }

  function ReadPlain(venue: Option<nat>, kind: EntryKind, price: int, quantity: nat): Told {
    if kind.TradeKind? then ToldTrade(venue, Trade(price, quantity, None, None, None))
    else ToldLevel(venue, SideNamed(kind), price, quantity)
  }

  function Read(w: WireEntry): Told {
    match w
    case Plain(kind, price, quantity) => ReadPlain(None, kind, price, quantity)
    case TapeWire(venue, kind, price, quantity) => ReadPlain(Some(venue), kind, price, quantity)
    case OrderTrade(price, quantity, resting, buyer, seller) =>
      ToldTrade(None, Trade(price, quantity, resting, buyer, seller))
    case OrderWire(action, side, reference, price, quantity, broker) =>
      ToldOrder(action, side, reference, price, quantity, broker)
  }

  /** What a subscription of this kind tells of a trade: order by order everything, otherwise the print. */
  function TradeFor(kind: Kind, t: Trade): Trade {
    if kind.Orders? then t else Trade(t.price, t.quantity, None, None, None)
  }

  function VenueFor(kind: Kind, k: ListingKey): Option<nat> {
    if kind.TapeOf? then Some(k.venue) else None
  }

  /** What an increment's entry means to the reader. */
  function Meant(kind: Kind, e: (ListingKey, Increment)): Told {
    match e.1
    case TradeEntry(price, quantity, resting, buyer, seller) =>
      ToldTrade(VenueFor(kind, e.0), TradeFor(kind, Trade(price, quantity, resting, buyer, seller)))
    case LevelEntry(_, side, price, quantity) => ToldLevel(VenueFor(kind, e.0), side, price, quantity)
    case OrderEntry(action, side, reference, price, quantity, broker) =>
      ToldOrder(action, side, reference, price, quantity, broker)
  }

  /** The trades a reader finds on the wire, in order. */
  function TradesRead(ws: seq<WireEntry>): seq<Told> {
    if ws == [] then []
    else
      var last := Read(ws[|ws| - 1]);
      TradesRead(ws[..|ws| - 1]) + if last.ToldTrade? then [last] else []
  }

  /** The trades among an increment's entries, as its kind tells them. */
  function TradesMeant(kind: Kind, es: seq<(ListingKey, Increment)>): seq<Told> {
    if es == [] then []
    else
      var last := es[|es| - 1];
      TradesMeant(kind, es[..|es| - 1]) + if last.1.TradeEntry? then [Meant(kind, last)] else []
  }

  lemma EntryIsTold(kind: Kind, e: (ListingKey, Increment))
    requires Fits(kind, e)
    ensures EntryWire(kind, e).Some? && Read(EntryWire(kind, e).value) == Meant(kind, e)
  {
  }

  /** The wire tells every entry, once and in order. */
  lemma {:induction false} EncodeKeepsEntries(kind: Kind, es: seq<(ListingKey, Increment)>)
    requires AllFit(kind, es)
    ensures |EncodeEntries(kind, es)| == |es|
    ensures forall i | 0 <= i < |es| :: Read(EncodeEntries(kind, es)[i]) == Meant(kind, es[i])
    ensures TradesRead(EncodeEntries(kind, es)) == TradesMeant(kind, es)
  {
    if es != [] {
      var front, last := es[..|es| - 1], es[|es| - 1];
      EncodeKeepsEntries(kind, front);
      EntryIsTold(kind, last);
      var ws := EncodeEntries(kind, es);
      assert ws[..|ws| - 1] == EncodeEntries(kind, front);
    }
  }

  /** The kinds map knows the message's subscription and can carry its entries. */
  ghost predicate Carried(kinds: map<nat, Kind>, m: FeedMessage) {
    m.requestId in kinds && AllFit(kinds[m.requestId], m.entries)
  }

  /** The kind a wire message was encoded for. */
  function WireKind(w: WireMessage): Kind {
    match w
    case MarketUpdate(_, listing, _, _) => Levels(listing)
    case OrderUpdate(_, listing, _, _) => Orders(listing)
    case TapeUpdate(_, instrument, _, _) => TapeOf(instrument)
  }

  /** The wire message names its listings, numbers every entry of the increment and tells it, trades and all. */
  ghost predicate Carries(w: WireMessage, m: FeedMessage) {
    var kind := WireKind(w);
    && w.requestId == m.requestId && w.firstReport == m.firstReport && |w.entries| == |m.entries|
    && (forall i | 0 <= i < |m.entries| :: InKind(kind, m.entries[i].0))
    && (forall i | 0 <= i < |m.entries| :: Read(w.entries[i]) == Meant(kind, m.entries[i]))
    && TradesRead(w.entries) == TradesMeant(kind, m.entries)
  }

  /** Message by message. */
  ghost predicate EachCarried(ws: seq<WireMessage>, ms: seq<FeedMessage>) {
    |ws| == |ms| && forall i | 0 <= i < |ms| :: Carries(ws[i], ms[i])
  }

  lemma EncodeCarries(kind: Kind, m: FeedMessage)
    requires AllFit(kind, m.entries)
    ensures var w := Encode(kind, m); Carries(w, m)
  {
    EncodeKeepsEntries(kind, m.entries);
    assert WireKind(Encode(kind, m)) == kind;
    assert forall i | 0 <= i < |m.entries| :: Fits(kind, m.entries[i]);
  }

  lemma CarriedNext(ws: seq<WireMessage>, w: WireMessage, ms: seq<FeedMessage>, m: FeedMessage)
    requires EachCarried(ws, ms) && Carries(w, m)
    ensures EachCarried(ws + [w], ms + [m])
  {
    forall i | 0 <= i < |ms + [m]| ensures Carries((ws + [w])[i], (ms + [m])[i]) {
      if i < |ms| {
        assert Carries(ws[i], ms[i]);
      }
    }
  }

  lemma {:induction false} EncodeAllCarries(kinds: map<nat, Kind>, ms: seq<FeedMessage>)
    requires forall m :: m in ms ==> Carried(kinds, m)
    ensures EachCarried(EncodeAll(kinds, ms), ms)
  {
    if ms != [] {
      var front, m := ms[..|ms| - 1], ms[|ms| - 1];
      EncodeAllCarries(kinds, front);
      assert Carried(kinds, m) && ms == front + [m];
      EncodeCarries(kinds[m.requestId], m);
      CarriedNext(EncodeAll(kinds, front), Encode(kinds[m.requestId], m), front, m);
    }
  }

  // ----- Feeds hold only what their kind carries ---------------------------

  lemma {:induction false} LevelsFit(f: DirectFeed, cs: seq<LevelChange>)
    ensures forall i | 0 <= i < |LevelIncrements(f, cs)| :: LevelIncrements(f, cs)[i].LevelEntry?
  {
    if cs != [] {
      LevelsFit(f, cs[1..]);
    }
  }

  lemma {:induction false} OrdersFit(f: DirectFeed, cs: seq<OrderChange>)
    ensures forall i | 0 <= i < |OrderIncrements(f, cs)| :: OrderIncrements(f, cs)[i].OrderEntry?
  {
    if cs != [] {
      OrdersFit(f, cs[1..]);
    }
  }

  lemma EntriesFit(f: DirectFeed, u: ListingUpdate)
    ensures forall i | 0 <= i < |Entries(f, u)| :: Fits(KindOf(f), (f.listing, Entries(f, u)[i]))
  {
    TradesTouchNothing(f, u.trades);
    LevelsFit(f, u.levels);
    OrdersFit(f, u.orders);
  }

  /** Every message of a feed carries, on the wire, exactly the entries it numbered. */
  lemma WireKeepsNumberedEntries(f: DirectFeed, b: Committed)
    ensures var (g, m) := Apply(f, b);
      m.Some? ==>
        && AllFit(KindOf(f), m.value.entries)
        && |Encode(KindOf(f), m.value).entries| == |m.value.entries|
        && Encode(KindOf(f), m.value).firstReport == f.nextReport
        && (g.nextReport < U64_MAX ==> g.nextReport == f.nextReport + |Encode(KindOf(f), m.value).entries|)
  {
    var (g, m) := Apply(f, b);
    if m.Some? {
      EntriesFit(f, UpdateFor(b.public, f.listing).value);
      EncodeKeepsEntries(KindOf(f), m.value.entries);
    }
  }

  /** A record the processor can publish. */
  ghost predicate Published(r: Tape.Record) {
    exists p: Tape.Processor, hubUs: nat, c: Tape.VenueChange :: Tape.RecordOf(p, hubUs, c) == [r]
  }

  lemma PublishedFits(r: Tape.Record)
    requires Published(r)
    ensures AllFit(TapeOf(r.instrument), r.entries)
  {
    var p: Tape.Processor, hubUs: nat, c: Tape.VenueChange :| Tape.RecordOf(p, hubUs, c) == [r];
    assert r == [r][0] && r.entries == Tape.EntriesOf(p, c);
  }

  // ----- The wire form keeps the meaning -----------------------------------

  /** What a wire entry makes of the client's view. */
  function ReadWire(v: View, w: WireEntry): View {
    match w
    case Plain(kind, price, quantity) =>
      var k := AtPrice(SideNamed(kind), price);
      if kind.TradeKind? then v
      else if quantity == 0 then v - {k}
      else v[k := Cell(SideNamed(kind), price, quantity, None)]
    case OrderWire(action, side, reference, price, quantity, broker) =>
      var k := AtReference(reference);
      if action.Delete? then v - {k} else v[k := Cell(side, price, quantity, broker)]
    case _ => v
  }

  function ReadAll(v: View, ws: seq<WireEntry>): View {
    if ws == [] then v else ReadWire(ReadAll(v, ws[..|ws| - 1]), ws[|ws| - 1])
  }

  lemma EntryKeepsMeaning(v: View, kind: Kind, listing: ListingKey, e: Increment)
    requires !kind.TapeOf? && Fits(kind, (listing, e))
    ensures EntryWire(kind, (listing, e)).Some?
    ensures ReadWire(v, EntryWire(kind, (listing, e)).value) == ApplyEntry(v, e)
  {
  }

  lemma EncodeLast(kind: Kind, es: seq<(ListingKey, Increment)>)
    requires es != [] && EntryWire(kind, es[|es| - 1]).Some?
    ensures var ws := EncodeEntries(kind, es);
      && ws != [] && ws[..|ws| - 1] == EncodeEntries(kind, es[..|es| - 1])
      && ws[|ws| - 1] == EntryWire(kind, es[|es| - 1]).value
  {
  }

  /** Reading the wire entries of a direct feed is reading the entries themselves. */
  lemma {:induction false} WireKeepsMeaning(v: View, kind: Kind, listing: ListingKey, es: seq<Increment>)
    requires !kind.TapeOf? && forall i | 0 <= i < |es| :: Fits(kind, (listing, es[i]))
    ensures ReadAll(v, EncodeEntries(kind, Tagged(listing, es))) == ApplyEntries(v, es)
  {
    if es != [] {
      var front, last := es[..|es| - 1], es[|es| - 1];
      WireKeepsMeaning(v, kind, listing, front);
      assert Tagged(listing, es)[..|es| - 1] == Tagged(listing, front);
      EntryKeepsMeaning(ApplyEntries(v, front), kind, listing, last);
      EncodeLast(kind, Tagged(listing, es));
    }
  }

  /** What a tape entry on the wire makes of the client's quotes: it names a venue, and zero is no quote. */
  function ReadTape(v: Quoted.View, instrument: nat, w: WireEntry): Quoted.View {
    if !w.TapeWire? || w.kind.TradeKind? then v
    else
      var k := ListingKey(w.venue, instrument);
      var level := if w.quantity == 0 then None else Some(Level(w.price, w.quantity));
      v[k := Quoted.Put(Quoted.Look(v, k), SideNamed(w.kind), level)]
  }

  function ReadTapeAll(v: Quoted.View, instrument: nat, ws: seq<WireEntry>): Quoted.View {
    if ws == [] then v else ReadTape(ReadTapeAll(v, instrument, ws[..|ws| - 1]), instrument, ws[|ws| - 1])
  }

  /** The wire drops an entry's action and instrument: it may where they are implied. */
  predicate Implied(instrument: nat, e: (ListingKey, Increment)) {
    e.0.instrument == instrument && !e.1.OrderEntry?
      && (e.1.LevelEntry? ==> (e.1.action.Delete? <==> e.1.quantity == 0))
  }

  lemma {:induction false} TapeEntriesKeepMeaning(v: Quoted.View, instrument: nat, es: seq<(ListingKey, Increment)>)
    requires forall i | 0 <= i < |es| :: Implied(instrument, es[i])
    ensures ReadTapeAll(v, instrument, EncodeEntries(TapeOf(instrument), es)) == Quoted.ApplyEntries(v, es)
  {
    if es != [] {
      TapeEntriesKeepMeaning(v, instrument, es[..|es| - 1]);
      assert Implied(instrument, es[|es| - 1]);
      EncodeLast(TapeOf(instrument), es);
    }
  }

  /** A quote shows a positive quantity. */
  predicate Positive(q: Quotes) {
    (q.bid.Some? ==> q.bid.value.quantity > 0) && (q.ask.Some? ==> q.ask.value.quantity > 0)
  }

  /** Reading a record on the wire is reading the record, as a venue quotes positive quantities only. */
  lemma TapeWireKeepsMeaning(v: Quoted.View, p: Tape.Processor, c: Tape.VenueChange)
    requires Positive(c.quotes)
    ensures var i, es := c.listing.instrument, Tape.EntriesOf(p, c);
      ReadTapeAll(v, i, EncodeEntries(TapeOf(i), es)) == Quoted.ApplyEntries(v, es)
  {
    TapeEntriesKeepMeaning(v, c.listing.instrument, Tape.EntriesOf(p, c));
  }

  // ----- The trades on the wire --------------------------------------------

  function TradesToldFor(kind: Kind, listing: ListingKey, ts: seq<Trade>): seq<Told> {
    seq(|ts|, i requires 0 <= i < |ts| => ToldTrade(VenueFor(kind, listing), TradeFor(kind, ts[i])))
  }

  lemma {:induction false} TradesMeantAre(kind: Kind, listing: ListingKey, es: seq<Increment>)
    ensures TradesMeant(kind, Tagged(listing, es)) == TradesToldFor(kind, listing, TradesIn(es))
  {
    if es != [] {
      var front, last := es[..|es| - 1], es[|es| - 1];
      TradesMeantAre(kind, listing, front);
      assert Tagged(listing, es)[..|front|] == Tagged(listing, front);
      assert es == front + [last] && [last][1..] == [];
      TradesInConcat(front, [last]);
      assert TradesIn([last]) == if last.TradeEntry? then [TradeOf(last)] else [];
    }
  }

  /**
    Reading the trades off the wire gives the increment's trades, once and in
    order: price and quantity on a level feed; resting reference and brokers too
    on an order feed; with its venue, price and quantity on the tape.
   */
  lemma WireKeepsTrades(kind: Kind, listing: ListingKey, es: seq<Increment>)
    requires forall i | 0 <= i < |es| :: Fits(kind, (listing, es[i]))
    ensures TradesRead(EncodeEntries(kind, Tagged(listing, es))) == TradesToldFor(kind, listing, TradesIn(es))
  {
    EncodeKeepsEntries(kind, Tagged(listing, es));
    TradesMeantAre(kind, listing, es);
  }

  /** So a record on the wire prints its change's trades, each with the venue, price and quantity. */
  lemma TapeWireKeepsTrades(p: Tape.Processor, c: Tape.VenueChange)
    ensures var ws := EncodeEntries(TapeOf(c.listing.instrument), Tape.EntriesOf(p, c));
      && |TradesRead(ws)| == |c.trades|
      && forall i | 0 <= i < |c.trades| ::
           TradesRead(ws)[i] ==
             ToldTrade(Some(c.listing.venue), Trade(c.trades[i].price, c.trades[i].quantity, None, None, None))
  {
    var kind, es := TapeOf(c.listing.instrument), Tape.EntriesOf(p, c);
    var increments := Quoted.Increments(es);
    Quoted.RecordCarriesTheTrades(p, c);
    assert es == Tagged(c.listing, increments);
    WireKeepsTrades(kind, c.listing, increments);
  }

  // ----- Snapshots in parts ------------------------------------------------

  const U32_MAX: nat := 0xFFFF_FFFF

  datatype BookOrder = BookOrder(
    side: Side, reference: nat, price: int, quantity: nat, broker: Option<nat>, position: nat)

  datatype Part = Part(complete: bool, orders: seq<BookOrder>)

  function OnSide(orders: seq<DisplayedOrder>, side: Side): nat {
    if orders == [] then 0
    else OnSide(orders[..|orders| - 1], side) + if orders[|orders| - 1].side == side then 1 else 0
  }

  lemma OnSideNext(orders: seq<DisplayedOrder>, i: nat, side: Side)
    requires i < |orders|
    ensures OnSide(orders[..i + 1], side) == OnSide(orders[..i], side) + if orders[i].side == side then 1 else 0
  {
    assert orders[..i + 1][..i] == orders[..i];
  }

  /** An order with its place in its side's queue, from one. */
  function PlacedOrder(orders: seq<DisplayedOrder>, i: nat): BookOrder
    requires i < |orders|
  {
    var o := orders[i];
    BookOrder(o.side, o.reference, o.price, o.quantity, o.broker, Min(OnSide(orders[..i + 1], o.side), U32_MAX))
  }

  method PlaceOrders(orders: seq<DisplayedOrder>) returns (book: seq<BookOrder>)
    ensures |book| == |orders| && forall i | 0 <= i < |orders| :: book[i] == PlacedOrder(orders, i)
  {
    book := [];
    var bids, asks := 0, 0;
    for i := 0 to |orders|
      invariant bids == Min(OnSide(orders[..i], Buy), U32_MAX) && asks == Min(OnSide(orders[..i], Sell), U32_MAX)
      invariant |book| == i && forall j | 0 <= j < i :: book[j] == PlacedOrder(orders, j)
    {
      var o := orders[i];
      OnSideNext(orders, i, Buy);
      OnSideNext(orders, i, Sell);
      if o.side == Sell {
        asks := Min(asks + 1, U32_MAX);
      } else {
        bids := Min(bids + 1, U32_MAX);
      }
      var position := if o.side == Sell then asks else bids;
      var placed := BookOrder(o.side, o.reference, o.price, o.quantity, o.broker, position);
      assert placed == PlacedOrder(orders, i);
      book := book + [placed];
    }
  }

  function Chunks(orders: seq<BookOrder>, per: nat): seq<seq<BookOrder>>
    requires per > 0
  {
    if |orders| <= per then [orders] else [orders[..per]] + Chunks(orders[per..], per)
  }

  function Parts(orders: seq<BookOrder>, perPart: nat): seq<Part> {
    var chunks := Chunks(orders, Max(perPart, 1));
    seq(|chunks|, i requires 0 <= i < |chunks| => Part(i + 1 == |chunks|, chunks[i]))
  }

  function Joined(chunks: seq<seq<BookOrder>>): seq<BookOrder> {
    if chunks == [] then [] else chunks[0] + Joined(chunks[1..])
  }

  lemma {:induction false} ChunksJoin(orders: seq<BookOrder>, per: nat)
    requires per > 0
    ensures var cs := Chunks(orders, per);
      && cs != [] && Joined(cs) == orders
      && (forall i | 0 <= i < |cs| :: |cs[i]| <= per && (orders != [] ==> cs[i] != []))
      && (forall i | 0 <= i < |cs| - 1 :: |cs[i]| == per)
  {
    var cs := Chunks(orders, per);
    if |orders| > per {
      ChunksJoin(orders[per..], per);
      assert cs[1..] == Chunks(orders[per..], per);
      assert orders == orders[..per] + orders[per..];
    } else {
      assert cs[1..] == [];
      assert Joined(cs) == orders + Joined([]);
    }
  }

  function OrdersOf(parts: seq<Part>): seq<BookOrder> {
    if parts == [] then [] else parts[0].orders + OrdersOf(parts[1..])
  }

  lemma {:induction false} OrdersOfChunks(parts: seq<Part>, chunks: seq<seq<BookOrder>>)
    requires |parts| == |chunks| && forall i | 0 <= i < |parts| :: parts[i].orders == chunks[i]
    ensures OrdersOf(parts) == Joined(chunks)
  {
    if parts != [] {
      OrdersOfChunks(parts[1..], chunks[1..]);
    }
  }

  /** The parts concatenate to the book, all but the last are full, and the last alone is marked complete. */
  lemma PartsAreTheBook(orders: seq<BookOrder>, perPart: nat)
    ensures var ps := Parts(orders, perPart);
      && ps != [] && OrdersOf(ps) == orders
      && (forall i | 0 <= i < |ps| :: ps[i].complete <==> i == |ps| - 1)
      && (forall i | 0 <= i < |ps| :: |ps[i].orders| <= Max(perPart, 1) && (ps[i].orders == [] ==> orders == []))
      && (forall i | 0 <= i < |ps| - 1 :: |ps[i].orders| == Max(perPart, 1))
  {
    ChunksJoin(orders, Max(perPart, 1));
    OrdersOfChunks(Parts(orders, perPart), Chunks(orders, Max(perPart, 1)));
  }

  const ORDER_SNAPSHOT_HEADER_BYTES: nat := 64
  const BOOK_ORDER_BYTES: nat := 46
  const MAX_GROUP_ENTRIES: nat := 4096

  function OrdersPerPart(maxFrameBytes: nat): nat {
    Min(Max(SatSub(maxFrameBytes, ORDER_SNAPSHOT_HEADER_BYTES) / BOOK_ORDER_BYTES, 1), MAX_GROUP_ENTRIES)
  }

  /** A part fits its frame exactly when the frame holds a header and one order; no larger part would. */
  lemma PartFitsItsFrame(maxFrameBytes: nat)
    ensures var n := OrdersPerPart(maxFrameBytes);
      && 1 <= n <= MAX_GROUP_ENTRIES
      && (ORDER_SNAPSHOT_HEADER_BYTES + n * BOOK_ORDER_BYTES <= maxFrameBytes
          <==> ORDER_SNAPSHOT_HEADER_BYTES + BOOK_ORDER_BYTES <= maxFrameBytes)
      && (n < MAX_GROUP_ENTRIES ==> maxFrameBytes < ORDER_SNAPSHOT_HEADER_BYTES + (n + 1) * BOOK_ORDER_BYTES)
  {
  }
}
