/**
  The consolidated tape (consolidated.rs): a processor at the hub that hears
  every venue's changes after a delay, applies them in arrival order, numbers
  its entries per instrument, and goes down for good rather than lose a change.
 */
module Tape {
  import opened Words
  import opened Market
  import opened TimedQueue

  /** A venue's change on its way to the processor; a gap carries rebuilt quotes and no entries. */
  datatype VenueChange = VenueChange(listing: ListingKey, trades: seq<Print>, quotes: Quotes, gap: bool)

  /** A trade as the tape carries it. */
  datatype Print = Print(price: int, quantity: nat)

  datatype Record = Record(instrument: nat, hubUs: nat, firstReport: nat, entries: seq<(ListingKey, Increment)>)

  /** What the processor knows: each venue's quotes and each instrument's next report. */
  datatype Processor = Processor(quotes: map<ListingKey, Quotes>, next: map<nat, nat>)

  datatype TapeState = TapeState(
    processor: Processor, inFlight: seq<Item<VenueChange>>, failed: bool, sent: seq<Record>)

  datatype Config = Config(processingUs: nat, capacity: nat)

  function QuotesAt(p: Processor, k: ListingKey): Quotes {
    if k in p.quotes then p.quotes[k] else NO_QUOTES
  }

  function NextAt(p: Processor, instrument: nat): nat {
    if instrument in p.next then p.next[instrument] else 1
  }

  // ----- Applying one change -----------------------------------------------

  function QuoteEntry(k: ListingKey, side: Side, was: Option<Level>, now: Option<Level>): seq<(ListingKey, Increment)> {
    if was == now then []
    else if now.None? then [(k, LevelEntry(Delete, side, was.value.price, 0))]
    else [(k, LevelEntry(if was.None? then New else UpdateAction.Change, side, now.value.price, now.value.quantity))]
  }

  function TradeEntries(k: ListingKey, ts: seq<Print>): seq<(ListingKey, Increment)> {
    seq(|ts|, i requires 0 <= i < |ts| => (k, TradeEntry(ts[i].price, ts[i].quantity, None, None, None)))
  }

  /** The entries a change publishes: its trades, then each side whose quote it moves. */
  function EntriesOf(p: Processor, c: VenueChange): seq<(ListingKey, Increment)> {
    var was := QuotesAt(p, c.listing);
    TradeEntries(c.listing, c.trades)
    + QuoteEntry(c.listing, Buy, was.bid, c.quotes.bid)
    + QuoteEntry(c.listing, Sell, was.ask, c.quotes.ask)
  }

  /** Report numbers a change takes. */
  function Taken(p: Processor, c: VenueChange): nat {
    if c.gap then 1 else |EntriesOf(p, c)|
  }

  function Advance(p: Processor, c: VenueChange): Processor {
    var i := c.listing.instrument;
    Processor(p.quotes[c.listing := c.quotes],
              if Taken(p, c) == 0 then p.next else p.next[i := SatAdd(NextAt(p, i), Taken(p, c))])
  }

  function RecordOf(p: Processor, hubUs: nat, c: VenueChange): seq<Record> {
    if c.gap || EntriesOf(p, c) == [] then []
    else [Record(c.listing.instrument, hubUs, NextAt(p, c.listing.instrument), EntriesOf(p, c))]
  }

  function AdvanceAll(p: Processor, items: seq<Item<VenueChange>>): Processor {
    if items == [] then p else Advance(AdvanceAll(p, items[..|items| - 1]), items[|items| - 1].value)
  }

  function Records(p: Processor, items: seq<Item<VenueChange>>): seq<Record> {
    if items == [] then []
    else
      var front, last := items[..|items| - 1], items[|items| - 1];
      Records(p, front) + RecordOf(AdvanceAll(p, front), last.key.at, last.value)
  }

  // ----- Everything that happens to the processor --------------------------

  /** A change it applies, or quotes it is primed with; it keeps the quotes it knows. */
  datatype Happening = Applied(change: Item<VenueChange>) | Primed(quotes: map<ListingKey, Quotes>)

  function Happen(p: Processor, e: Happening): Processor {
    match e
    case Applied(it) => Advance(p, it.value)
    case Primed(quotes) => p.(quotes := quotes + p.quotes)
  }

  /** Only a change is published. */
  function Said(p: Processor, e: Happening): seq<Record> {
    if e.Applied? then RecordOf(p, e.change.key.at, e.change.value) else []
  }

  function HappenAll(p: Processor, es: seq<Happening>): Processor {
    Fold(Happen, p, es)
  }

  function SaidAll(p: Processor, es: seq<Happening>): seq<Record> {
    Emit(Happen, Said, p, es)
  }

  // ----- The tape's operations ---------------------------------------------

  /** The leading changes that have reached the hub. */
  function Due(q: seq<Item<VenueChange>>, now: nat): (d: seq<Item<VenueChange>>)
    ensures |d| <= |q| && d == q[..|d|]
  {
    if q == [] || q[0].key.at > now then [] else [q[0]] + Due(q[1..], now)
  }

  function Released(t: TapeState, now: nat): TapeState {
    AppliedAll(t, Due(t.inFlight, now))
  }

  /** Quotes the processor already knows are kept. */
  function PrimedWith(t: TapeState, quotes: map<ListingKey, Quotes>): TapeState {
    t.(processor := Happen(t.processor, Primed(quotes)))
  }

  function Down(t: TapeState): TapeState {
    t.(inFlight := [], failed := true)
  }

  function Arrives(cfg: Config, durableUs: nat, delay: nat): nat {
    SatAdd(SatAdd(durableUs, delay), cfg.processingUs)
  }

  /** Saturating at each addition is saturating once. */
  lemma ArrivesAfterPathAndProcessing(cfg: Config, durableUs: nat, delay: nat)
    requires durableUs <= U64_MAX
    ensures Arrives(cfg, durableUs, delay) == Min(durableUs + delay + cfg.processingUs, U64_MAX)
  {
  }

  /** One change starts on its way, unless its path fails or too many are in flight. */
  function Depart(t: TapeState, cfg: Config, it: Item<VenueChange>, path: bool): TapeState {
    if t.failed then t
    else if !path || |t.inFlight| >= Max(cfg.capacity, 1) then Down(t)
    else t.(inFlight := Insert(t.inFlight, it))
  }

  /** The changes of one commit and the delay each meets; `None` is a failed path. */
  datatype Departure = Departure(ordinal: nat, durableUs: nat, changes: seq<VenueChange>, delays: seq<Option<nat>>)

  predicate Wellformed(d: Departure) {
    |d.changes| == |d.delays|
  }

  function ItemOf(cfg: Config, d: Departure, i: nat): Item<VenueChange>
    requires Wellformed(d) && i < |d.changes|
  {
    Item(Key(Arrives(cfg, d.durableUs, if d.delays[i].Some? then d.delays[i].value else 0), d.ordinal, i), d.changes[i])
  }

  function DepartFirst(t: TapeState, cfg: Config, d: Departure, n: nat): TapeState
    requires Wellformed(d) && n <= |d.changes|
  {
    if n == 0 then t else Depart(DepartFirst(t, cfg, d, n - 1), cfg, ItemOf(cfg, d, n - 1), d.delays[n - 1].Some?)
  }

  function VenueChangeOf(u: ListingUpdate): VenueChange {
    VenueChange(u.listing, Prints(u.trades), Quotes(u.bestBid, u.bestAsk), false)
  }

  function Prints(ts: seq<Trade>): seq<Print> {
    seq(|ts|, i requires 0 <= i < |ts| => Print(ts[i].price, ts[i].quantity))
  }

  function ChangesOf(public: seq<ListingUpdate>): seq<VenueChange> {
    seq(|public|, i requires 0 <= i < |public| => VenueChangeOf(public[i]))
  }

  function GapsOf(rebuilt: seq<(ListingKey, Quotes)>): seq<VenueChange> {
    seq(|rebuilt|, i requires 0 <= i < |rebuilt| => VenueChange(rebuilt[i].0, [], rebuilt[i].1, true))
  }

  function ReleasedOne(t: TapeState): TapeState
    requires t.inFlight != []
  {
    var it := t.inFlight[0];
    TapeState(
      Advance(t.processor, it.value), t.inFlight[1..], t.failed, t.sent + RecordOf(t.processor, it.key.at, it.value))
  }

  lemma {:induction false} AdvanceFirst(p: Processor, it: Item<VenueChange>, rest: seq<Item<VenueChange>>)
    ensures AdvanceAll(p, [it] + rest) == AdvanceAll(Advance(p, it.value), rest)
    ensures Records(p, [it] + rest) == RecordOf(p, it.key.at, it.value) + Records(Advance(p, it.value), rest)
  {
    var all := [it] + rest;
    var front, last := all[..|all| - 1], all[|all| - 1];
    if rest == [] {
      assert all == [it] && front == [];
      assert AdvanceAll(p, front) == p && Records(p, front) == [];
    } else {
      assert front == [it] + rest[..|rest| - 1] && last == rest[|rest| - 1];
      AdvanceFirst(p, it, rest[..|rest| - 1]);
    }
  }

  lemma ReleaseFirst(t: TapeState, now: nat)
    requires t.inFlight != [] && t.inFlight[0].key.at <= now
    ensures Released(t, now) == Released(ReleasedOne(t), now)
  {
    DueFirst(t.inFlight, now);
    ReleaseDue(t, t.inFlight[0], Due(t.inFlight[1..], now));
  }

  lemma DueFirst(q: seq<Item<VenueChange>>, now: nat)
    requires q != [] && q[0].key.at <= now
    ensures Due(q, now) == [q[0]] + Due(q[1..], now)
  {
  }

  /** The state after a known list of changes was applied. */
  function AppliedAll(t: TapeState, due: seq<Item<VenueChange>>): TapeState
    requires |due| <= |t.inFlight|
  {
    TapeState(AdvanceAll(t.processor, due), t.inFlight[|due|..], t.failed, t.sent + Records(t.processor, due))
  }

  /** Applying the first change and then the others is applying them all. */
  lemma ReleaseDue(t: TapeState, it: Item<VenueChange>, due: seq<Item<VenueChange>>)
    requires t.inFlight != [] && it == t.inFlight[0] && |due| < |t.inFlight|
    ensures AppliedAll(t, [it] + due) == AppliedAll(ReleasedOne(t), due)
  {
    AdvanceFirst(t.processor, it, due);
    Regroup(t.sent, RecordOf(t.processor, it.key.at, it.value), Records(Advance(t.processor, it.value), due));
    assert t.inFlight[1..][|due|..] == t.inFlight[1 + |due|..];
  }

  // ----- The tape object ---------------------------------------------------

  class ConsolidatedTape {
    const cfg: Config
    var quotes: map<ListingKey, Quotes>
    var nextReport: map<nat, nat>
    var inFlight: seq<Item<VenueChange>>
    var failed: bool
    var sent: seq<Record>

    function Value(): TapeState
      reads this
    {
      TapeState(Processor(quotes, nextReport), inFlight, failed, sent)
    }

    constructor (cfg: Config)
      ensures this.cfg == cfg
      ensures Value() == TapeState(Processor(map[], map[]), [], false, [])
    {
      this.cfg := cfg;
      quotes, nextReport, inFlight, failed, sent := map[], map[], [], false, [];
    }

    method PrimeQuotes(seeds: map<ListingKey, Quotes>)
      modifies this`quotes
      ensures Value() == PrimedWith(old(Value()), seeds)
    {
      quotes := seeds + quotes;
    }

    method Fail()
      modifies this`inFlight, this`failed
      ensures Value() == Down(old(Value()))
    {
      inFlight, failed := [], true;
    }

    /** Starts each change of one commit on its way, in order; fails whole. */
    method Start(d: Departure)
      requires Wellformed(d)
      modifies this`inFlight, this`failed
      ensures Value() == DepartFirst(old(Value()), cfg, d, |d.changes|)
    {
      if failed {
        FailedDeparts(Value(), cfg, d, |d.changes|);
        return;
      }
      for i := 0 to |d.changes|
        invariant !failed && Value() == DepartFirst(old(Value()), cfg, d, i)
      {
        if d.delays[i].None? || |inFlight| >= Max(cfg.capacity, 1) {
          Fail();
          FailedStays(old(Value()), cfg, d, i + 1, |d.changes|);
          return;
        }
        var arrives := Arrives(cfg, d.durableUs, d.delays[i].value);
        inFlight := Insert(inFlight, Item(Key(arrives, d.ordinal, i), d.changes[i]));
      }
    }

    /** Each public change of one committed batch. */
    method Hear(ordinal: nat, durableUs: nat, public: seq<ListingUpdate>, delays: seq<Option<nat>>)
      requires |delays| == |public|
      modifies this`inFlight, this`failed
      ensures var d := Departure(ordinal, durableUs, ChangesOf(public), delays);
        Value() == DepartFirst(old(Value()), cfg, d, |public|)
    {
      if public != [] {
        Start(Departure(ordinal, durableUs, ChangesOf(public), delays));
      }
    }

    /** A skipped report for each listing whose projection failed, with its rebuilt quotes. */
    method HearGap(ordinal: nat, durableUs: nat, rebuilt: seq<(ListingKey, Quotes)>, delays: seq<Option<nat>>)
      requires |delays| == |rebuilt|
      modifies this`inFlight, this`failed
      ensures var d := Departure(ordinal, durableUs, GapsOf(rebuilt), delays);
        Value() == DepartFirst(old(Value()), cfg, d, |rebuilt|)
    {
      if rebuilt != [] {
        Start(Departure(ordinal, durableUs, GapsOf(rebuilt), delays));
      }
    }

    method TakeDown()
      modifies this`inFlight, this`failed
      ensures failed && sent == old(sent)
      ensures Value() == if old(failed) then old(Value()) else Down(old(Value()))
    {
      if !failed {
        Fail();
      }
    }

    /** Applies the first change in flight: a gap takes one number silently, a record is published. */
    method ApplyFirst()
      requires inFlight != []
      modifies this`quotes, this`nextReport, this`inFlight, this`sent
      ensures Value() == ReleasedOne(old(Value()))
    {
      var p := Processor(quotes, nextReport);
      var it := inFlight[0];
      var c := it.value;
      var i := c.listing.instrument;
      inFlight := inFlight[1..];
      quotes := quotes[c.listing := c.quotes];
      if c.gap {
        nextReport := nextReport[i := SatAdd(NextAt(p, i), 1)];
        return;
      }
      var entries := EntriesOf(p, c);
      if entries != [] {
        nextReport := nextReport[i := SatAdd(NextAt(p, i), |entries|)];
        sent := sent + [Record(i, it.key.at, NextAt(p, i), entries)];
      }
    }

    /** Applies and publishes every change due by `now`; returns when the next one is due. */
    method Release(now: nat) returns (nextDue: Option<nat>)
      modifies this`quotes, this`nextReport, this`inFlight, this`sent
      ensures Value() == Released(old(Value()), now)
      ensures nextDue == if inFlight == [] then None else Some(inFlight[0].key.at)
      ensures nextDue.Some? ==> nextDue.value > now
    {
      while inFlight != [] && inFlight[0].key.at <= now
        invariant Released(Value(), now) == Released(old(Value()), now)
        decreases |inFlight|
      {
        ReleaseFirst(Value(), now);
        ApplyFirst();
      }
      assert Due(inFlight, now) == [];
      nextDue := if inFlight == [] then None else Some(inFlight[0].key.at);
    }

    /** The last report and quotes of one instrument, everything due applied; nothing once failed. */
    method Snapshot(instrument: nat, now: nat) returns (r: Option<(nat, map<ListingKey, Quotes>)>)
      modifies this`quotes, this`nextReport, this`inFlight, this`sent
      ensures Value() == Released(old(Value()), now)
      ensures r == if failed then None else Some(SnapshotOf(Value().processor, instrument))
      ensures r.Some? ==>
        && (forall k :: k in r.value.1 <==> k in quotes && k.instrument == instrument)
        && (forall k | k in r.value.1 :: r.value.1[k] == quotes[k])
    {
      var _ := Release(now);
      if failed {
        return None;
      }
      var p := Processor(quotes, nextReport);
      r := Some(SnapshotOf(p, instrument));
    }
  }

  function SnapshotOf(p: Processor, instrument: nat): (nat, map<ListingKey, Quotes>) {
    (SatSub(NextAt(p, instrument), 1), map k | k in p.quotes && k.instrument == instrument :: p.quotes[k])
  }

  lemma {:induction false} FailedDeparts(t: TapeState, cfg: Config, d: Departure, n: nat)
    requires Wellformed(d) && n <= |d.changes| && t.failed
    ensures DepartFirst(t, cfg, d, n) == t
  {
    if n > 0 {
      FailedDeparts(t, cfg, d, n - 1);
    }
  }

  lemma {:induction false} FailedStays(t: TapeState, cfg: Config, d: Departure, m: nat, n: nat)
    requires Wellformed(d) && m <= n <= |d.changes| && DepartFirst(t, cfg, d, m).failed
    ensures DepartFirst(t, cfg, d, n) == DepartFirst(t, cfg, d, m)
  {
    if m < n {
      FailedStays(t, cfg, d, m, n - 1);
    }
  }
}
