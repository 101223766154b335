/**
  A client of the consolidated tape: what the entries of a record make of the
  quotes it holds.
 */
module TapeClient {
  import opened Words
  import opened Market
  import opened Tape
  import Feed

  // ----- Quotes by venue and side ------------------------------------------

  type View = map<ListingKey, Quotes>

  function Look(v: View, k: ListingKey): Quotes {
    if k in v then v[k] else NO_QUOTES
  }

  function SideOf(q: Quotes, side: Side): Option<Level> {
    if side.Buy? then q.bid else q.ask
  }

  function Put(q: Quotes, side: Side, level: Option<Level>): Quotes {
    if side.Buy? then q.(bid := level) else q.(ask := level)
  }

  /** An entry names a venue's listing; a quote entry replaces that venue's quote on its side. */
  function ApplyEntry(v: View, e: (ListingKey, Increment)): View {
    match e.1
    case LevelEntry(action, side, price, quantity) =>
      v[e.0 := Put(Look(v, e.0), side, if action.Delete? then None else Some(Level(price, quantity)))]
    case _ => v
  }

  function ApplyEntries(v: View, es: seq<(ListingKey, Increment)>): View {
    if es == [] then v else ApplyEntry(ApplyEntries(v, es[..|es| - 1]), es[|es| - 1])
  }

  /** The client quotes every listing of the instrument as the processor does. */
  ghost predicate Shows(v: View, p: Processor, i: nat) {
    forall k: ListingKey :: k.instrument == i ==> Look(v, k) == QuotesAt(p, k)
  }

  lemma {:induction false} ApplyConcat(v: View, a: seq<(ListingKey, Increment)>, b: seq<(ListingKey, Increment)>)
    ensures ApplyEntries(v, a + b) == ApplyEntries(ApplyEntries(v, a), b)
  {
    if b == [] {
      assert a + b == a;
    } else {
      assert (a + b)[..|a + b| - 1] == a + b[..|b| - 1];
      ApplyConcat(v, a, b[..|b| - 1]);
    }
  }

  lemma {:induction false} TradesMoveNoQuote(v: View, k: ListingKey, ts: seq<Print>)
    ensures ApplyEntries(v, TradeEntries(k, ts)) == v
  {
    if ts != [] {
      TradesMoveNoQuote(v, k, ts[..|ts| - 1]);
      assert TradeEntries(k, ts)[..|ts| - 1] == TradeEntries(k, ts[..|ts| - 1]);
    }
  }

  /** A quote entry moves its own side, whatever the client held there. */
  lemma QuoteEntryApplies(
    v: View, k: ListingKey, side: Side, was: Option<Level>, now: Option<Level>, j: ListingKey, other: Side)
    ensures SideOf(Look(ApplyEntries(v, QuoteEntry(k, side, was, now)), j), other)
         == if j == k && other == side && was != now then now else SideOf(Look(v, j), other)
  {
    if was != now {
      var e := QuoteEntry(k, side, was, now);
      assert e[..0] == [];
      assert ApplyEntries(v, e) == ApplyEntry(v, e[0]);
    }
  }

  /** A record moves exactly the sides its change moved, on the listing it names. */
  lemma RecordApplies(v: View, p: Processor, c: VenueChange, j: ListingKey, side: Side)
    ensures var was := SideOf(QuotesAt(p, c.listing), side);
      SideOf(Look(ApplyEntries(v, EntriesOf(p, c)), j), side)
      == if j == c.listing && was != SideOf(c.quotes, side) then SideOf(c.quotes, side) else SideOf(Look(v, j), side)
  {
    var k, was := c.listing, QuotesAt(p, c.listing);
    var ts, bids := TradeEntries(k, c.trades), QuoteEntry(k, Buy, was.bid, c.quotes.bid);
    var asks := QuoteEntry(k, Sell, was.ask, c.quotes.ask);
    ApplyConcat(v, ts + bids, asks);
    ApplyConcat(v, ts, bids);
    TradesMoveNoQuote(v, k, c.trades);
    QuoteEntryApplies(v, k, Buy, was.bid, c.quotes.bid, j, side);
    QuoteEntryApplies(ApplyEntries(v, bids), k, Sell, was.ask, c.quotes.ask, j, side);
  }

  // ----- What a record says ------------------------------------------------

  function Increments(es: seq<(ListingKey, Increment)>): seq<Increment> {
    seq(|es|, i requires 0 <= i < |es| => es[i].1)
  }

  function AsTrades(ts: seq<Print>): seq<Trade> {
    seq(|ts|, i requires 0 <= i < |ts| => Trade(ts[i].price, ts[i].quantity, None, None, None))
  }

  /** A record carries its change's trades once and in order, every entry naming the change's venue. */
  lemma RecordCarriesTheTrades(p: Processor, c: VenueChange)
    ensures Feed.TradesIn(Increments(EntriesOf(p, c))) == AsTrades(c.trades)
    ensures forall i | 0 <= i < |EntriesOf(p, c)| :: EntriesOf(p, c)[i].0 == c.listing
  {
    var was := QuotesAt(p, c.listing);
    var ts := TradeEntries(c.listing, c.trades);
    var quotes :=
      QuoteEntry(c.listing, Buy, was.bid, c.quotes.bid) + QuoteEntry(c.listing, Sell, was.ask, c.quotes.ask);
    assert EntriesOf(p, c) == ts + quotes;
    assert Increments(ts + quotes) == Increments(ts) + Increments(quotes);
    Feed.TradesInConcat(Increments(ts), Increments(quotes));
    TradeEntriesRoundTrip(c.listing, c.trades);
    Feed.NoTrades(Increments(quotes));
  }

  lemma {:induction false} TradeEntriesRoundTrip(k: ListingKey, ts: seq<Print>)
    ensures Feed.TradesIn(Increments(TradeEntries(k, ts))) == AsTrades(ts)
  {
    if ts != [] {
      TradeEntriesRoundTrip(k, ts[1..]);
      var es := Increments(TradeEntries(k, ts));
      assert es[1..] == Increments(TradeEntries(k, ts[1..]));
      assert AsTrades(ts) == AsTrades(ts[..1]) + AsTrades(ts[1..]);
    }
  }

  /** Trades, then the bid, then the offer. */
  function Turn(e: Increment): nat {
    match e
    case LevelEntry(_, side, _, _) => if side.Buy? then 1 else 2
    case _ => 0
  }

  lemma RecordIsInOrder(p: Processor, c: VenueChange)
    ensures var es := EntriesOf(p, c);
      && (forall i | 0 <= i < |es| :: !es[i].1.OrderEntry?)
      && (forall i, j | 0 <= i < j < |es| :: Turn(es[i].1) < Turn(es[j].1) || Turn(es[i].1) == Turn(es[j].1) == 0)
  {
  }

  /** A quote entry says whether its venue quoted that side before the change and does after it. */
  lemma QuoteActionsAreTrue(p: Processor, c: VenueChange, i: nat)
    requires i < |EntriesOf(p, c)| && EntriesOf(p, c)[i].1.LevelEntry?
    ensures var e := EntriesOf(p, c)[i].1;
      var was, now := SideOf(QuotesAt(p, c.listing), e.side), SideOf(c.quotes, e.side);
      && was != now
      && (e.action.New? <==> was.None?) && (e.action.Delete? <==> now.None?)
      && (if now.Some? then now == Some(Level(e.price, e.quantity))
          else e.quantity == 0 && was.Some? && e.price == was.value.price)
  {
  }
}
