/** The facts a commit publishes: canonical events and their public, anonymous view. */
module Market {
  import opened Words

  datatype Side = Buy | Sell

  datatype ListingKey = ListingKey(venue: nat, instrument: nat)

  datatype Endpoint = Hub | Venue(id: nat)

  /** Event payloads as far as publication reads them. */
  datatype Payload =
    | OrderReceived(listing: Option<ListingKey>)
    | OrderRested(listing: Option<ListingKey>)
    | OrderCanceled(listing: Option<ListingKey>)
    | TradeExecuted(
        listing: Option<ListingKey>, instrument: nat, price: int, quantity: nat,
        maker: nat, buyer: Option<nat>, seller: Option<nat>)
    | Simulation
    | OtherPayload

  datatype Event = Event(sequence: nat, payload: Payload)

  /** A public trade; `reference` is the resting order's, where order views are kept. */
  datatype Trade = Trade(price: int, quantity: nat, reference: Option<nat>, buyer: Option<nat>, seller: Option<nat>)

  /** One price and its visible quantity. */
  datatype Level = Level(price: int, quantity: nat)

  datatype LevelChange = LevelChange(side: Side, price: int, previous: nat, quantity: nat)

  datatype OrderAction = Added | Changed | Deleted

  datatype OrderChange = OrderChange(
    action: OrderAction, side: Side, reference: nat, price: int, quantity: nat, broker: Option<nat>)

  datatype DisplayedOrder = DisplayedOrder(
    orderId: nat, reference: nat, side: Side, price: int, quantity: nat, broker: Option<nat>)

  datatype ListingUpdate = ListingUpdate(
    listing: ListingKey,
    trades: seq<Trade>,
    levels: seq<LevelChange>,
    bestBid: Option<Level>,
    bestAsk: Option<Level>,
    orders: seq<OrderChange>)

  /** One committed command's batch, shared by every subscriber. */
  datatype Committed = Committed(
    durableUs: nat,
    source: Endpoint,
    events: seq<Event>,
    ordinal: nat,
    public: seq<ListingUpdate>,
    publicGaps: seq<ListingKey>)

  datatype UpdateAction = New | Change | Delete

  /** One entry of a market-data increment. */
  datatype Increment =
    | TradeEntry(price: int, quantity: nat, resting: Option<nat>, buyer: Option<nat>, seller: Option<nat>)
    | LevelEntry(action: UpdateAction, side: Side, price: int, quantity: nat)
    | OrderEntry(action: UpdateAction, side: Side, reference: nat, price: int, quantity: nat, broker: Option<nat>)

  /** One increment on its way to a subscriber, numbered from `firstReport`. */
  datatype FeedMessage = FeedMessage(
    source: Endpoint, availableUs: nat, requestId: nat, firstReport: nat, entries: seq<(ListingKey, Increment)>)

  /** One venue's best bid and offer. */
  datatype Quotes = Quotes(bid: Option<Level>, ask: Option<Level>)

  const NO_QUOTES := Quotes(None, None)

  /** What the committer asks of the consolidated tape. */
  datatype TapeCall =
    | Prime(quotes: map<ListingKey, Quotes>)
    | Hear(ordinal: nat, durableUs: nat, public: seq<ListingUpdate>)
    | HearGap(ordinal: nat, durableUs: nat, rebuilt: seq<(ListingKey, Quotes)>)
    | TakeDown
}
