/**
  The publishing origin (distributor.rs, PublishingOrigin): every durable commit
  is measured against cached books and published once; a failed projection
  becomes a gap and a rebuild of the caches.

  Reads of the run can fail independently at each place the source reads it;
  `Faults` says which of them do.
 */
module Origin {
  import opened Words
  import opened Market
  import opened Book
  import opened Feed
  import FeedRun

  type RunState = map<ListingKey, Shown>

  /** The caches of one run: absent until primed, and dropped by recovery. */
  datatype Caches = Caches(
    books: Option<map<ListingKey, Depth>>,
    orders: Option<map<ListingKey, seq<DisplayedOrder>>>,
    ordersEnabled: bool)

  /** Which reads of the run succeed during one command. */
  datatype Faults = Faults(
    primeBooks: bool, primeOrders: bool, project: bool,
    listings: bool, reprimeBooks: bool, reprimeOrders: bool, rebuild: bool)

  function Depths(run: RunState): map<ListingKey, Depth> {
    map k | k in run :: run[k].depth
  }

  function Views(run: RunState): map<ListingKey, seq<DisplayedOrder>> {
    map k | k in run :: run[k].orders
  }

  function Best(d: Depth): Quotes {
    Quotes(BestBid(d), BestAsk(d))
  }

  function Bests(run: RunState): map<ListingKey, Quotes> {
    map k | k in run :: Best(run[k].depth)
  }

  // ----- Listings in key order ---------------------------------------------

  predicate Before(a: ListingKey, b: ListingKey) {
    a.venue < b.venue || (a.venue == b.venue && a.instrument < b.instrument)
  }

  lemma KeyIn(s: set<ListingKey>)
    ensures s == {} || exists k :: k in s
  {
    if forall k :: k !in s {
      assert s == {};
    }
  }

  lemma {:induction false} HasFirst(s: set<ListingKey>)
    requires s != {}
    ensures exists m :: m in s && forall k :: k in s ==> k == m || Before(m, k)
    decreases s
  {
    KeyIn(s);
    var x :| x in s;
    if s - {x} != {} {
      HasFirst(s - {x});
      var m :| m in s - {x} && forall k :: k in s - {x} ==> k == m || Before(m, k);
      var least := if Before(x, m) then x else m;
      assert forall k :: k in s ==> k == x || k in s - {x};
      assert least in s && forall k :: k in s ==> k == least || Before(least, k);
    } else {
      assert forall k :: k in s ==> k == x || k in s - {x};
    }
  }

  function First(s: set<ListingKey>): (m: ListingKey)
    requires s != {}
    ensures m in s && forall k :: k in s ==> k == m || Before(m, k)
  {
    HasFirst(s);
    var m :| m in s && forall k :: k in s ==> k == m || Before(m, k);
    m
  }

  /** The iteration order of an ordered set. */
  function InOrder(s: set<ListingKey>): (r: seq<ListingKey>)
    ensures forall k :: k in r <==> k in s
    ensures forall i, j | 0 <= i < j < |r| :: Before(r[i], r[j])
    decreases s
  {
    if s == {} then [] else var m := First(s); [m] + InOrder(s - {m})
  }

  ghost predicate Increasing(keys: seq<ListingKey>) {
    forall i, j | 0 <= i < j < |keys| :: Before(keys[i], keys[j])
  }

  // ----- What a commit's events touch --------------------------------------

  /** A book event at this listing. */
  predicate Moves(p: Payload, k: ListingKey) {
    (p.OrderRested? || p.OrderCanceled? || p.TradeExecuted?) && p.listing == Some(k)
  }

  /** A book event at no stated listing, or a simulation event. */
  predicate MovesAny(p: Payload) {
    p.Simulation? || ((p.OrderRested? || p.OrderCanceled? || p.TradeExecuted?) && p.listing.None?)
  }

  predicate Mentions(p: Payload, k: ListingKey) {
    Moves(p, k) || (p.OrderReceived? && p.listing == Some(k))
  }

  predicate Touches(events: seq<Event>, k: ListingKey) {
    exists i | 0 <= i < |events| :: Moves(events[i].payload, k)
  }

  /** Listings the events move, as a set. */
  function Moved(events: seq<Event>): (r: set<ListingKey>)
    ensures forall k :: k in r <==> Touches(events, k)
  {
    if events == [] then {}
    else
      var p := events[|events| - 1].payload;
      var rest := Moved(events[..|events| - 1]);
      if (p.OrderRested? || p.OrderCanceled? || p.TradeExecuted?) && p.listing.Some?
      then rest + {p.listing.value} else rest
  }

  function Mentioned(events: seq<Event>): (r: set<ListingKey>)
    ensures forall k :: k in r <==> exists i | 0 <= i < |events| :: Mentions(events[i].payload, k)
  {
    if events == [] then {}
    else
      var p := events[|events| - 1].payload;
      var rest := Mentioned(events[..|events| - 1]);
      if (p.OrderReceived? || p.OrderRested? || p.OrderCanceled? || p.TradeExecuted?) && p.listing.Some?
      then rest + {p.listing.value} else rest
  }

  predicate Everywhere(events: seq<Event>) {
    exists i | 0 <= i < |events| :: MovesAny(events[i].payload)
  }

  /** The listings a projection reads again. */
  function Touched(events: seq<Event>, known: set<ListingKey>): set<ListingKey> {
    Moved(events) + if Everywhere(events) then known else {}
  }

  // ----- One listing's public update ---------------------------------------

  /** The trades executed at a listing, as public events. */
  function TradesAt(events: seq<Event>, k: ListingKey): seq<Trade> {
    if events == [] then []
    else
      var p := events[0].payload;
      (if p.TradeExecuted? && p.listing == Some(k) && p.instrument == k.instrument
       then [Trade(p.price, p.quantity, None, p.buyer, p.seller)] else [])
      + TradesAt(events[1..], k)
  }

  /** The resting orders the trades at a listing executed against. */
  function MakersAt(events: seq<Event>, k: ListingKey): seq<nat> {
    if events == [] then []
    else
      var p := events[0].payload;
      (if p.TradeExecuted? && p.listing == Some(k) then [p.maker] else []) + MakersAt(events[1..], k)
  }

  function ReferenceOf(orders: seq<DisplayedOrder>, orderId: nat): Option<nat> {
    if orders == [] then None
    else if orders[0].orderId == orderId then Some(orders[0].reference)
    else ReferenceOf(orders[1..], orderId)
  }

  /** Trades paired with makers in order; each names the reference its maker had in `orders`. */
  function Named(ts: seq<Trade>, makers: seq<nat>, orders: seq<DisplayedOrder>): seq<Trade> {
    if ts == [] || makers == [] then ts
    else [ts[0].(reference := ReferenceOf(orders, makers[0]))] + Named(ts[1..], makers[1..], orders)
  }

  function Cached<V>(cache: map<ListingKey, V>, k: ListingKey, otherwise: V): V {
    if k in cache then cache[k] else otherwise
  }

  function TradesOf(c: Caches, events: seq<Event>, k: ListingKey): seq<Trade> {
    if c.orders.None? then TradesAt(events, k)
    else Named(TradesAt(events, k), MakersAt(events, k), Cached(c.orders.value, k, []))
  }

  function UpdateAt(c: Caches, run: RunState, events: seq<Event>, k: ListingKey): ListingUpdate
    requires c.books.Some? && k in run
  {
    var now := run[k].depth;
    ListingUpdate(
      k, TradesOf(c, events, k), DiffLevels(Cached(c.books.value, k, EMPTY_DEPTH), now), BestBid(now), BestAsk(now),
      if c.orders.None? then [] else DiffOrders(Cached(c.orders.value, k, []), run[k].orders))
  }

  predicate SaysNothing(u: ListingUpdate) {
    u.trades == [] && u.levels == [] && u.orders == []
  }

  function UpdateIn(c: Caches, run: RunState, events: seq<Event>, k: ListingKey): seq<ListingUpdate>
    requires c.books.Some?
  {
    if k in run && !SaysNothing(UpdateAt(c, run, events, k)) then [UpdateAt(c, run, events, k)] else []
  }

  function Updates(c: Caches, run: RunState, events: seq<Event>, keys: seq<ListingKey>): seq<ListingUpdate>
    requires c.books.Some?
  {
    if keys == [] then []
    else Updates(c, run, events, keys[..|keys| - 1]) + UpdateIn(c, run, events, keys[|keys| - 1])
  }

  /** A cache after the listings in `touched` were read again. */
  function Refresh<V>(known: map<ListingKey, V>, now: map<ListingKey, V>, touched: set<ListingKey>)
    : map<ListingKey, V>
  {
    map k | k in known.Keys + (touched * now.Keys) :: if k in touched && k in now then now[k] else known[k]
  }

  lemma RefreshOne<V>(known: map<ListingKey, V>, now: map<ListingKey, V>, done: set<ListingKey>, k: ListingKey)
    ensures Refresh(known, now, done + {k})
         == if k in now then Refresh(known, now, done)[k := now[k]] else Refresh(known, now, done)
  {
  }

  /** Reading again every listing that changed makes the cache current. */
  lemma RefreshAll<V>(known: map<ListingKey, V>, now: map<ListingKey, V>, touched: set<ListingKey>)
    requires known.Keys == now.Keys
    requires forall k | k in now && k !in touched :: known[k] == now[k]
    ensures Refresh(known, now, touched) == now
  {
  }

  // ----- The steps of one command ------------------------------------------

  function BooksPrimed(c: Caches, run: RunState, ok: bool): Caches {
    if c.books.Some? || !ok then c else c.(books := Some(Depths(run)))
  }

  function OrdersPrimed(c: Caches, run: RunState, ok: bool): Caches {
    if !c.ordersEnabled || c.orders.Some? || !ok then c else c.(orders := Some(Views(run)))
  }

  function PrimeCalls(c: Caches, run: RunState, ok: bool): seq<TapeCall> {
    if c.books.Some? || !ok then [] else [Prime(Bests(run))]
  }

  /** Whether the post-commit projection succeeds: only with a base to measure against. */
  predicate Projects(c: Caches, ok: bool) {
    c.books.Some? && ok
  }

  function Projected(c: Caches, run: RunState, events: seq<Event>): Caches
    requires c.books.Some?
  {
    var touched := Touched(events, c.books.value.Keys);
    c.(books := Some(Refresh(c.books.value, Depths(run), touched)),
       orders := if c.orders.None? then None else Some(Refresh(c.orders.value, Views(run), touched)))
  }

  function Published(c: Caches, run: RunState, events: seq<Event>): seq<ListingUpdate>
    requires c.books.Some?
  {
    Updates(c, run, events, InOrder(Touched(events, c.books.value.Keys)))
  }

  /** The listings a failed projection names as gaps. */
  function Affected(c: Caches, run: RunState, events: seq<Event>, listingsRead: bool): set<ListingKey> {
    Mentioned(events)
    + (if c.books.Some? then c.books.value.Keys else {})
    + (if c.orders.Some? then c.orders.value.Keys else {})
    + (if listingsRead then run.Keys else {})
  }

  function QuoteOf(run: RunState, k: ListingKey): Quotes {
    if k in run then Best(run[k].depth) else NO_QUOTES
  }

  function Rebuilt(run: RunState, keys: seq<ListingKey>): seq<(ListingKey, Quotes)> {
    seq(|keys|, i requires 0 <= i < |keys| => (keys[i], QuoteOf(run, keys[i])))
  }

  /** Recovery drops both caches and primes them again from the committed run. */
  function Recovered(c: Caches, run: RunState, faults: Faults): Caches {
    OrdersPrimed(BooksPrimed(c.(books := None, orders := None), run, faults.reprimeBooks), run, faults.reprimeOrders)
  }

  datatype Outcome =
    | Refused
    | Duplicate
    | Done(events: seq<Event>, after: RunState)

  datatype Command = Command(outcome: Outcome, durableUs: nat, source: Endpoint, faults: Faults)

  /** The origin, what it published, the committed run before each batch, and its calls to the tape. */
  datatype State = State(caches: Caches, run: RunState, log: seq<Committed>, past: seq<RunState>, calls: seq<TapeCall>)

  datatype Step = EnableOrderFeeds | Execute(command: Command)

  function Start(run: RunState): State {
    State(Caches(None, None, false), run, [], [run], [])
  }

  /** The caches when the command executes: primed, best effort. */
  function Primed(c: Caches, run: RunState, faults: Faults): Caches {
    OrdersPrimed(BooksPrimed(c, run, faults.primeBooks), run, faults.primeOrders)
  }

  /** The batch a commit publishes. */
  function BatchOf(primed: Caches, ordinal: nat, cmd: Command): Committed
    requires cmd.outcome.Done?
  {
    var Done(events, after) := cmd.outcome;
    if Projects(primed, cmd.faults.project)
    then Committed(cmd.durableUs, cmd.source, events, ordinal, Published(primed, after, events), [])
    else Committed(cmd.durableUs, cmd.source, events, ordinal, [],
      InOrder(Affected(primed, after, events, cmd.faults.listings)))
  }

  function CachesAfter(primed: Caches, cmd: Command): Caches
    requires cmd.outcome.Done?
  {
    if Projects(primed, cmd.faults.project) then Projected(primed, cmd.outcome.after, cmd.outcome.events)
    else Recovered(primed, cmd.outcome.after, cmd.faults)
  }

  /** What the tape hears of a commit. */
  function CallsOf(primed: Caches, ordinal: nat, cmd: Command): seq<TapeCall>
    requires cmd.outcome.Done?
  {
    var b := BatchOf(primed, ordinal, cmd);
    (if Projects(primed, cmd.faults.project) then []
     else
       PrimeCalls(primed.(books := None), cmd.outcome.after, cmd.faults.reprimeBooks)
       + [if cmd.faults.rebuild then HearGap(ordinal, cmd.durableUs, Rebuilt(cmd.outcome.after, b.publicGaps))
         else TakeDown])
    + (if b.publicGaps == [] then [Hear(ordinal, cmd.durableUs, b.public)] else [])
  }

  /** A batch without events is not published. */
  function Logged(log: seq<Committed>, b: Committed): seq<Committed> {
    if b.events == [] then log else log + [b]
  }

  function Executed(s: State, cmd: Command): State {
    var primed := Primed(s.caches, s.run, cmd.faults);
    var t := s.(caches := primed, calls := s.calls + PrimeCalls(s.caches, s.run, cmd.faults.primeBooks));
    if !cmd.outcome.Done? then t
    else t.(caches := CachesAfter(primed, cmd),
            run := cmd.outcome.after,
            log := Logged(s.log, BatchOf(primed, |s.log|, cmd)),
            past := if cmd.outcome.events == [] then s.past else s.past + [cmd.outcome.after],
            calls := t.calls + CallsOf(primed, |s.log|, cmd))
  }

  function Next(s: State, step: Step): State {
    match step
    case EnableOrderFeeds => s.(caches := s.caches.(ordersEnabled := true))
    case Execute(cmd) => Executed(s, cmd)
  }

  function Steps(s: State, steps: seq<Step>): State
    decreases |steps|
  {
    if steps == [] then s else Steps(Next(s, steps[0]), steps[1..])
  }

  // ----- What a commit may do ----------------------------------------------

  ghost predicate ValidRun(run: RunState) {
    forall k | k in run :: Distinct(run[k].orders) && ValidDepth(run[k].depth)
  }

  /** A commit has events, and changes only listings they move, unless they say everything may move. */
  ghost predicate Commits(before: RunState, events: seq<Event>, after: RunState) {
    && events != []
    && before.Keys == after.Keys && ValidRun(after)
    && (forall k | k in before :: SameOrders(before[k].orders, after[k].orders))
    && (Everywhere(events) || forall k | k in before && !Touches(events, k) :: before[k] == after[k])
  }

  ghost predicate Lawful(s: State, step: Step) {
    step.Execute? && step.command.outcome.Done? ==>
      Commits(s.run, step.command.outcome.events, step.command.outcome.after)
  }

  ghost predicate AllLawful(s: State, steps: seq<Step>)
    decreases |steps|
  {
    steps != [] ==> Lawful(s, steps[0]) && AllLawful(Next(s, steps[0]), steps[1..])
  }

  // ----- The caches never lie ----------------------------------------------

  /** Each cache is absent or equal to the committed run. */
  ghost predicate Agree(c: Caches, run: RunState) {
    && (c.books.Some? ==> c.books.value == Depths(run))
    && (c.orders.Some? ==> c.orders.value == Views(run))
  }

  lemma ProjectedAgrees(c: Caches, before: RunState, events: seq<Event>, after: RunState)
    requires Agree(c, before) && Commits(before, events, after) && c.books.Some?
    ensures Agree(Projected(c, after, events), after)
  {
    var touched := Touched(events, c.books.value.Keys);
    RefreshAll(c.books.value, Depths(after), touched);
    if c.orders.Some? {
      RefreshAll(c.orders.value, Views(after), touched);
    }
  }

  lemma PrimedAgrees(c: Caches, run: RunState, faults: Faults)
    requires Agree(c, run)
    ensures Agree(Primed(c, run, faults), run)
  {
  }

  lemma CommitAgrees(primed: Caches, before: RunState, cmd: Command)
    requires cmd.outcome.Done? && Agree(primed, before) && Commits(before, cmd.outcome.events, cmd.outcome.after)
    ensures Agree(CachesAfter(primed, cmd), cmd.outcome.after)
  {
    if Projects(primed, cmd.faults.project) {
      ProjectedAgrees(primed, before, cmd.outcome.events, cmd.outcome.after);
    }
  }

  lemma NextAgrees(s: State, step: Step)
    requires Agree(s.caches, s.run) && Lawful(s, step)
    ensures Agree(Next(s, step).caches, Next(s, step).run)
  {
    if step.Execute? {
      PrimedAgrees(s.caches, s.run, step.command.faults);
      if step.command.outcome.Done? {
        CommitAgrees(Primed(s.caches, s.run, step.command.faults), s.run, step.command);
      }
    }
  }

  /** Over every run of commands and every pattern of failed reads. */
  lemma {:induction false} CachesNeverLie(s: State, steps: seq<Step>)
    requires Agree(s.caches, s.run) && AllLawful(s, steps)
    ensures Agree(Steps(s, steps).caches, Steps(s, steps).run)
    decreases |steps|
  {
    if steps != [] {
      NextAgrees(s, steps[0]);
      CachesNeverLie(Next(s, steps[0]), steps[1..]);
    }
  }

  // ----- What a batch tells ------------------------------------------------

  lemma {:induction false} UpdateForConcat(a: seq<ListingUpdate>, b: seq<ListingUpdate>, k: ListingKey)
    ensures UpdateFor(a + b, k) == if UpdateFor(a, k).Some? then UpdateFor(a, k) else UpdateFor(b, k)
  {
    if a == [] {
      assert a + b == b;
    } else {
      assert (a + b)[0] == a[0] && (a + b)[1..] == a[1..] + b;
      UpdateForConcat(a[1..], b, k);
    }
  }

  /** Each listing's update is its own, whatever other listings a commit moved. */
  lemma {:induction false} UpdateForKey(c: Caches, run: RunState, events: seq<Event>, keys: seq<ListingKey>,
      k: ListingKey)
    requires c.books.Some?
    ensures UpdateFor(Updates(c, run, events, keys), k)
         == if k in keys && k in run && !SaysNothing(UpdateAt(c, run, events, k))
            then Some(UpdateAt(c, run, events, k)) else None
  {
    if keys != [] {
      var front, last := keys[..|keys| - 1], keys[|keys| - 1];
      UpdateForKey(c, run, events, front, k);
      UpdateForConcat(Updates(c, run, events, front), UpdateIn(c, run, events, last), k);
      assert keys == front + [last];
      UpdateForOne(c, run, events, last, k);
    }
  }

  lemma UpdateForOne(c: Caches, run: RunState, events: seq<Event>, last: ListingKey, k: ListingKey)
    requires c.books.Some?
    ensures UpdateFor(UpdateIn(c, run, events, last), k)
         == if k == last && k in run && !SaysNothing(UpdateAt(c, run, events, k))
            then Some(UpdateAt(c, run, events, k)) else None
  {
    if last in run {
      var u := UpdateAt(c, run, events, last);
      assert UpdateFor([u], k) == if last == k then Some(u) else UpdateFor([], k);
    }
  }

  /** The projection succeeded: what the batch holds for one listing of the run. */
  lemma ProjectedUpdate(c: Caches, before: RunState, events: seq<Event>, after: RunState, k: ListingKey)
    requires Agree(c, before) && Commits(before, events, after) && c.books.Some? && k in before
    ensures var u := UpdateAt(c, after, events, k);
      && (UpdateFor(Published(c, after, events), k) == Some(u)
          || (UpdateFor(Published(c, after, events), k) == None && (SaysNothing(u) || before[k] == after[k])))
      && u.levels == DiffLevels(before[k].depth, after[k].depth)
      && u.orders == (if c.orders.Some? then DiffOrders(before[k].orders, after[k].orders) else [])
  {
    var touched := Touched(events, c.books.value.Keys);
    UpdateForKey(c, after, events, InOrder(touched), k);
  }

  lemma LevelsQuiet(f: DirectFeed, before: Shown, after: Shown)
    requires f.detail.ByLevel? && DiffLevels(before.depth, after.depth) == []
    ensures FeedRun.SameTruth(f, before, after)
  {
    DiffLevelsIsExact(before.depth, after.depth);
    forall k ensures Truth(f, before, k) == Truth(f, after, k) {
      if k.AtPrice? {
        var was, now := Visible(before.depth, k.side, k.price), Visible(after.depth, k.side, k.price);
        assert LevelChange(k.side, k.price, was, now) !in DiffLevels(before.depth, after.depth);
      }
    }
  }

  /** With no order change published, an order feed is told truly exactly of commits that change nothing it shows. */
  lemma NoOrdersTold(f: DirectFeed, before: Shown, after: Shown)
    requires f.detail.ByOrder? && SameOrders(before.orders, after.orders)
    ensures TellsOrders(f, [], before, after) <==> FeedRun.SameTruth(f, before, after)
  {
    var none: seq<OrderChange> := [];
    if TellsOrders(f, none, before, after) {
      forall c: OrderChange | Wants(f, c.side)
        ensures ChangeOf(Find(before.orders, c.reference), Find(after.orders, c.reference)) != Some(c)
      {
        assert c !in none;
      }
      forall k ensures Truth(f, before, k) == Truth(f, after, k) {
        if k.AtReference? {
          OrderTruth(f, before, after, k);
        }
      }
    }
    if FeedRun.SameTruth(f, before, after) {
      forall c: OrderChange | Wants(f, c.side)
        ensures ChangeOf(Find(before.orders, c.reference), Find(after.orders, c.reference)) != Some(c)
      {
        OrderTruth(f, before, after, AtReference(c.reference));
      }
    }
  }

  lemma DiffTellsOrders(f: DirectFeed, before: Shown, after: Shown)
    requires Distinct(before.orders) && Distinct(after.orders) && SameOrders(before.orders, after.orders)
    ensures TellsOrders(f, DiffOrders(before.orders, after.orders), before, after)
  {
    DiffOrdersIsExact(before.orders, after.orders);
  }

  /**
    The one pattern of failures that hides a listing: both caches are absent,
    priming failed, the projection therefore fails, and recovery can read no
    listing either, so only listings the events mention are named as gaps.
   */
  predicate Hidden(s: State, cmd: Command, k: ListingKey)
    requires cmd.outcome.Done?
  {
    && s.caches.books.None? && !cmd.faults.primeBooks
    && s.caches.orders.None? && !(s.caches.ordersEnabled && cmd.faults.primeOrders)
    && !cmd.faults.listings
    && k !in Mentioned(cmd.outcome.events)
  }

  /** The projection succeeds without a displayed-order base. */
  predicate OrdersBlind(s: State, cmd: Command) {
    && (s.caches.books.Some? || cmd.faults.primeBooks) && cmd.faults.project
    && s.caches.orders.None? && !(s.caches.ordersEnabled && cmd.faults.primeOrders)
  }

  /** A failed projection names every listing of the run as a gap, but for the hidden ones. */
  lemma FailureIsAGap(s: State, cmd: Command, k: ListingKey)
    requires Agree(s.caches, s.run) && k in s.run
    requires cmd.outcome.Done? && Commits(s.run, cmd.outcome.events, cmd.outcome.after)
    ensures var primed := Primed(s.caches, s.run, cmd.faults);
      var b := BatchOf(primed, |s.log|, cmd);
      !Projects(primed, cmd.faults.project) ==> b.public == [] && (k in b.publicGaps <==> !Hidden(s, cmd, k))
  {
    PrimedAgrees(s.caches, s.run, cmd.faults);
  }

  /** A level feed of the run is told the truth, or of a gap, exactly when its listing is not hidden. */
  lemma LevelFeedsAreTold(s: State, cmd: Command, f: DirectFeed)
    requires Agree(s.caches, s.run) && f.listing in s.run && f.detail.ByLevel?
    requires cmd.outcome.Done? && Commits(s.run, cmd.outcome.events, cmd.outcome.after)
    ensures var b := BatchOf(Primed(s.caches, s.run, cmd.faults), |s.log|, cmd);
      var before, after := s.run[f.listing], cmd.outcome.after[f.listing];
      FeedRun.Told(f, b, before, after) <==> !Hidden(s, cmd, f.listing) || FeedRun.SameTruth(f, before, after)
  {
    var primed := Primed(s.caches, s.run, cmd.faults);
    var before, after := s.run[f.listing], cmd.outcome.after[f.listing];
    PrimedAgrees(s.caches, s.run, cmd.faults);
    if Projects(primed, cmd.faults.project) {
      ProjectedUpdate(primed, s.run, cmd.outcome.events, cmd.outcome.after, f.listing);
      DiffLevelsIsExact(before.depth, after.depth);
      if DiffLevels(before.depth, after.depth) == [] {
        LevelsQuiet(f, before, after);
      }
    } else {
      FailureIsAGap(s, cmd, f.listing);
    }
  }

  lemma ProjectedOrders(c: Caches, before: RunState, events: seq<Event>, after: RunState, b: Committed, f: DirectFeed)
    requires Agree(c, before) && ValidRun(before) && Commits(before, events, after) && c.books.Some?
    requires f.listing in before && f.detail.ByOrder? && b.publicGaps == [] && b.public == Published(c, after, events)
    ensures FeedRun.Told(f, b, before[f.listing], after[f.listing])
      <==> c.orders.Some? || FeedRun.SameTruth(f, before[f.listing], after[f.listing])
  {
    var was, now := before[f.listing], after[f.listing];
    ProjectedUpdate(c, before, events, after, f.listing);
    DiffTellsOrders(f, was, now);
    NoOrdersTold(f, was, now);
  }

  /**
    An order-by-order feed is told the truth, or of a gap, if and only if its
    listing is not hidden and the projection had an order base, or the commit
    changed nothing the feed displays.
   */
  lemma OrderFeedsAreTold(s: State, cmd: Command, f: DirectFeed)
    requires Agree(s.caches, s.run) && ValidRun(s.run) && f.listing in s.run && f.detail.ByOrder?
    requires cmd.outcome.Done? && Commits(s.run, cmd.outcome.events, cmd.outcome.after)
    ensures var b := BatchOf(Primed(s.caches, s.run, cmd.faults), |s.log|, cmd);
      var before, after := s.run[f.listing], cmd.outcome.after[f.listing];
      FeedRun.Told(f, b, before, after) <==>
        ((!Hidden(s, cmd, f.listing) && !OrdersBlind(s, cmd)) || FeedRun.SameTruth(f, before, after))
  {
    var primed := Primed(s.caches, s.run, cmd.faults);
    PrimedAgrees(s.caches, s.run, cmd.faults);
    var b := BatchOf(primed, |s.log|, cmd);
    if Projects(primed, cmd.faults.project) {
      ProjectedOrders(primed, s.run, cmd.outcome.events, cmd.outcome.after, b, f);
    } else {
      FailureIsAGap(s, cmd, f.listing);
    }
  }

  /** Every published update measures the commit from its true base and quotes the best levels of the book it left. */
  lemma PublishedChangesAreTrue(s: State, cmd: Command, k: ListingKey)
    requires Agree(s.caches, s.run) && k in s.run
    requires cmd.outcome.Done? && Commits(s.run, cmd.outcome.events, cmd.outcome.after)
    ensures var u := UpdateFor(BatchOf(Primed(s.caches, s.run, cmd.faults), |s.log|, cmd).public, k);
      u.Some? ==>
        && IsLevelDiff(u.value.levels, s.run[k].depth, cmd.outcome.after[k].depth)
        && QuotesTop(Quotes(u.value.bestBid, u.value.bestAsk), cmd.outcome.after[k].depth)
  {
    var primed := Primed(s.caches, s.run, cmd.faults);
    PrimedAgrees(s.caches, s.run, cmd.faults);
    DiffLevelsIsExact(s.run[k].depth, cmd.outcome.after[k].depth);
    if Projects(primed, cmd.faults.project) {
      ProjectedUpdate(primed, s.run, cmd.outcome.events, cmd.outcome.after, k);
    }
    BestIsTop(cmd.outcome.after, k);
  }

  lemma BestIsTop(run: RunState, k: ListingKey)
    requires ValidRun(run) && k in run
    ensures QuotesTop(Best(run[k].depth), run[k].depth)
  {
    BestBidTops(run[k].depth);
    BestAskTops(run[k].depth);
  }

  // ----- Trades ------------------------------------------------------------

  /** Every trade at this listing is in its instrument. */
  ghost predicate InstrumentsAgree(events: seq<Event>, k: ListingKey) {
    forall i | 0 <= i < |events| ::
      events[i].payload.TradeExecuted? && events[i].payload.listing == Some(k) ==>
        events[i].payload.instrument == k.instrument
  }

  /** The trades at a listing, each with the reference its own resting order had. */
  function RestingTrades(events: seq<Event>, k: ListingKey, orders: seq<DisplayedOrder>): seq<Trade> {
    if events == [] then []
    else
      var p := events[0].payload;
      (if p.TradeExecuted? && p.listing == Some(k)
       then [Trade(p.price, p.quantity, ReferenceOf(orders, p.maker), p.buyer, p.seller)] else [])
      + RestingTrades(events[1..], k, orders)
  }

  /** The reference is that of the first displayed order with the maker's id; without one there is none. */
  lemma {:induction false} ReferenceIsTheFirst(orders: seq<DisplayedOrder>, id: nat)
    ensures ReferenceOf(orders, id).None? <==> forall i | 0 <= i < |orders| :: orders[i].orderId != id
    ensures forall i |
      0 <= i < |orders| && orders[i].orderId == id && (forall j | 0 <= j < i :: orders[j].orderId != id) ::
        ReferenceOf(orders, id) == Some(orders[i].reference)
  {
    if orders != [] {
      var rest := orders[1..];
      ReferenceIsTheFirst(rest, id);
      assert forall i | 0 < i < |orders| :: orders[i] == rest[i - 1];
      forall i | 0 <= i < |orders| && orders[i].orderId == id && (forall j | 0 <= j < i :: orders[j].orderId != id)
        ensures ReferenceOf(orders, id) == Some(orders[i].reference)
      {
        if i > 0 {
          assert rest[i - 1].orderId == id;
          assert forall j | 0 <= j < i - 1 :: rest[j] == orders[j + 1];
        }
      }
    }
  }

  /** Pairing the lists gives each trade its own maker's reference. */
  lemma {:induction false} TradesNameTheirRestingOrder(events: seq<Event>, k: ListingKey, orders: seq<DisplayedOrder>)
    requires InstrumentsAgree(events, k)
    ensures Named(TradesAt(events, k), MakersAt(events, k), orders) == RestingTrades(events, k, orders)
  {
    if events != [] {
      var rest := events[1..];
      assert forall i | 0 <= i < |rest| :: rest[i] == events[i + 1];
      TradesNameTheirRestingOrder(rest, k, orders);
      var p := events[0].payload;
      if p.TradeExecuted? && p.listing == Some(k) {
        assert TradesAt(events, k)[1..] == TradesAt(rest, k) && MakersAt(events, k)[1..] == MakersAt(rest, k);
      } else {
        assert TradesAt(events, k) == TradesAt(rest, k) && MakersAt(events, k) == MakersAt(rest, k);
      }
    }
  }

  /**
    Each trade executed at a listing reaches a feed with trades, once and in
    order, and names, where order views are kept and carried, the reference its
    resting order had before the commit.
   */
  lemma TradesReachTheFeed(s: State, cmd: Command, f: DirectFeed)
    requires Agree(s.caches, s.run) && f.listing in s.run && f.trades
    requires cmd.outcome.Done? && Commits(s.run, cmd.outcome.events, cmd.outcome.after)
    requires InstrumentsAgree(cmd.outcome.events, f.listing)
    ensures var primed := Primed(s.caches, s.run, cmd.faults);
      var b, events := BatchOf(primed, |s.log|, cmd), cmd.outcome.events;
      !FeedRun.IsGap(f, b) && !Hidden(s, cmd, f.listing) ==>
        TradesIn(FeedRun.EntriesIn(f, b)) ==
          AllCarried(f, if primed.orders.Some? then RestingTrades(events, f.listing, s.run[f.listing].orders)
                        else TradesAt(events, f.listing))
  {
    var primed := Primed(s.caches, s.run, cmd.faults);
    PrimedAgrees(s.caches, s.run, cmd.faults);
    if Projects(primed, cmd.faults.project) {
      TradesNameTheirRestingOrder(cmd.outcome.events, f.listing, s.run[f.listing].orders);
      CarriedTrades(primed, cmd.outcome.after, cmd.outcome.events, BatchOf(primed, |s.log|, cmd), f);
    } else {
      FailureIsAGap(s, cmd, f.listing);
    }
  }

  lemma CarriedTrades(c: Caches, run: RunState, events: seq<Event>, b: Committed, f: DirectFeed)
    requires c.books.Some? && f.listing in run && f.trades && b.publicGaps == []
        && b.public == Published(c, run, events)
    ensures TradesIn(FeedRun.EntriesIn(f, b)) == AllCarried(f, TradesOf(c, events, f.listing))
  {
    PublishedTrades(c, run, events, f.listing);
    var u := UpdateFor(b.public, f.listing);
    if u.Some? {
      EntriesCarryTheTrades(f, u.value);
    }
  }

  lemma PublishedTrades(c: Caches, run: RunState, events: seq<Event>, k: ListingKey)
    requires c.books.Some? && k in run
    ensures var u := UpdateFor(Published(c, run, events), k);
      TradesOf(c, events, k) == if u.Some? then u.value.trades else []
  {
    var touched := Touched(events, c.books.value.Keys);
    UpdateForKey(c, run, events, InOrder(touched), k);
    if !Touches(events, k) {
      UntouchedTrades(events, k);
    }
  }

  lemma {:induction false} UntouchedTrades(events: seq<Event>, k: ListingKey)
    requires !Touches(events, k)
    ensures TradesAt(events, k) == []
  {
    if events != [] {
      assert !Moves(events[0].payload, k);
      assert !Touches(events[1..], k) by {
        assert forall i | 0 <= i < |events| - 1 :: events[1..][i] == events[i + 1];
      }
      UntouchedTrades(events[1..], k);
    }
  }

  // ----- What every command keeps ------------------------------------------

  ghost predicate Inv(s: State) {
    && Agree(s.caches, s.run)
    && |s.past| == |s.log| + 1 && s.past[|s.log|] == s.run
    && (forall i | 0 <= i < |s.past| :: s.past[i].Keys == s.run.Keys && ValidRun(s.past[i]))
  }

  lemma NextInv(s: State, step: Step)
    requires Inv(s) && Lawful(s, step)
    ensures var t := Next(s, step); Inv(t) && t.run.Keys == s.run.Keys
  {
    NextAgrees(s, step);
  }

  // ----- When a feed is not told -------------------------------------------

  /**
    A projection that runs without an order base publishes no order change and
    no gap, whatever the commit did to the displayed orders.
   */
  lemma BlindProjectionDropsOrders(s: State, cmd: Command, k: ListingKey)
    requires Agree(s.caches, s.run) && k in s.run && OrdersBlind(s, cmd)
    requires cmd.outcome.Done? && Commits(s.run, cmd.outcome.events, cmd.outcome.after)
    ensures var b := BatchOf(Primed(s.caches, s.run, cmd.faults), |s.log|, cmd);
      b.publicGaps == [] && (UpdateFor(b.public, k).Some? ==> UpdateFor(b.public, k).value.orders == [])
  {
    PrimedAgrees(s.caches, s.run, cmd.faults);
    ProjectedUpdate(Primed(s.caches, s.run, cmd.faults), s.run, cmd.outcome.events, cmd.outcome.after, k);
  }

  /**
    So priming only the depth cache is not enough for order feeds: with them
    enabled and one failed order read, a newly displayed order is never told.
   */
  lemma OrderSilentlyMissed(k: ListingKey, o: DisplayedOrder, f: DirectFeed)
    requires f.listing == k && f.detail.ByOrder? && f.bids && f.offers
    ensures var before: RunState := map[k := Shown(EMPTY_DEPTH, [])];
      var after: RunState := map[k := Shown(EMPTY_DEPTH, [o])];
      var events := [Event(1, OrderRested(Some(k)))];
      var s := Next(Start(before), EnableOrderFeeds);
      var cmd := Command(Done(events, after), 0, Hub, Faults(true, false, true, true, true, true, true));
      && Lawful(s, Execute(cmd)) && OrdersBlind(s, cmd)
      && !FeedRun.Told(f, BatchOf(Primed(s.caches, s.run, cmd.faults), 0, cmd), before[k], after[k])
  {
    var before: RunState := map[k := Shown(EMPTY_DEPTH, [])];
    var after: RunState := map[k := Shown(EMPTY_DEPTH, [o])];
    var events := [Event(1, OrderRested(Some(k)))];
    var s := Next(Start(before), EnableOrderFeeds);
    var cmd := Command(Done(events, after), 0, Hub, Faults(true, false, true, true, true, true, true));
    assert Moves(events[0].payload, k);
    assert Touches(events, k);
    OrderFeedsAreTold(s, cmd, f);
    var key := AtReference(o.reference);
    assert Find([o], o.reference) == Some(o) && Find([], o.reference) == None;
    assert Truth(f, before[k], key) != Truth(f, after[k], key);
  }

  /** A hidden listing is real: with every read failing, a simulation event moves a listing nobody is told of. */
  lemma HiddenCommitIsSilent(k: ListingKey, f: DirectFeed)
    requires f.listing == k && f.detail.ByLevel? && f.bids
    ensures var before: RunState := map[k := Shown(EMPTY_DEPTH, [])];
      var after: RunState := map[k := Shown(Depth(map[100 := 7], map[]), [])];
      var s, cmd := Start(before), Command(Done([Event(1, Simulation)], after), 0, Hub, NO_READS);
      && Lawful(s, Execute(cmd)) && Hidden(s, cmd, k)
      && !FeedRun.Told(f, BatchOf(Primed(s.caches, s.run, cmd.faults), 0, cmd), before[k], after[k])
  {
    var before: RunState := map[k := Shown(EMPTY_DEPTH, [])];
    var after: RunState := map[k := Shown(Depth(map[100 := 7], map[]), [])];
    var s, events := Start(before), [Event(1, Simulation)];
    var cmd := Command(Done(events, after), 0, Hub, NO_READS);
    assert MovesAny(events[0].payload) && Everywhere(events);
    LevelFeedsAreTold(s, cmd, f);
    assert Visible(after[k].depth, Buy, 100) == 7 && Visible(before[k].depth, Buy, 100) == 0;
    assert Truth(f, before[k], AtPrice(Buy, 100)) != Truth(f, after[k], AtPrice(Buy, 100));
  }

  const NO_READS := Faults(false, false, false, false, false, false, false)

  // ----- The origin object -------------------------------------------------

  /** The listings a batch moves and whether it may move any listing. */
  method CollectTouched(events: seq<Event>) returns (touched: set<ListingKey>, everything: bool)
    ensures touched == Moved(events) && everything == Everywhere(events)
  {
    touched, everything := {}, false;
    for i := 0 to |events|
      invariant touched == Moved(events[..i])
      invariant everything == Everywhere(events[..i])
    {
      assert events[..i + 1][..i] == events[..i];
      EverywhereGrows(events, i);
      match events[i].payload {
        case OrderRested(listing) =>
          if listing.Some? { touched := touched + {listing.value}; } else { everything := true; }
        case OrderCanceled(listing) =>
          if listing.Some? { touched := touched + {listing.value}; } else { everything := true; }
        case TradeExecuted(listing, _, _, _, _, _, _) =>
          if listing.Some? { touched := touched + {listing.value}; } else { everything := true; }
        case Simulation => everything := true;
        case _ =>
      }
    }
    assert events[..|events|] == events;
  }

  lemma EverywhereGrows(events: seq<Event>, i: nat)
    requires i < |events|
    ensures Everywhere(events[..i + 1]) <==> Everywhere(events[..i]) || MovesAny(events[i].payload)
  {
    var shorter, longer := events[..i], events[..i + 1];
    assert forall j | 0 <= j < i :: shorter[j] == longer[j];
    assert longer[i] == events[i];
  }

  method CollectMentioned(events: seq<Event>) returns (affected: set<ListingKey>)
    ensures affected == Mentioned(events)
  {
    affected := {};
    for i := 0 to |events|
      invariant affected == Mentioned(events[..i])
    {
      assert events[..i + 1][..i] == events[..i];
      match events[i].payload {
        case OrderReceived(listing) => if listing.Some? { affected := affected + {listing.value}; }
        case OrderRested(listing) => if listing.Some? { affected := affected + {listing.value}; }
        case OrderCanceled(listing) => if listing.Some? { affected := affected + {listing.value}; }
        case TradeExecuted(listing, _, _, _, _, _, _) => if listing.Some? { affected := affected + {listing.value}; }
        case _ =>
      }
    }
    assert events[..|events|] == events;
  }

  /** One listing's update: the caches other listings left behind do not matter to it. */
  lemma UpdateAtLocal(c: Caches, d: Caches, run: RunState, events: seq<Event>, k: ListingKey)
    requires c.books.Some? && d.books.Some? && k in run && (c.orders.Some? <==> d.orders.Some?)
    requires (k in c.books.value <==> k in d.books.value)
        && (k in c.books.value ==> c.books.value[k] == d.books.value[k])
    requires c.orders.Some? ==>
      (k in c.orders.value <==> k in d.orders.value) && (k in c.orders.value ==> c.orders.value[k] == d.orders.value[k])
    ensures UpdateAt(c, run, events, k) == UpdateAt(d, run, events, k)
  {
  }

  function ReadAgain(keys: seq<ListingKey>, i: nat): set<ListingKey>
    requires i <= |keys|
  {
    set k | k in keys[..i]
  }

  /** The caches after the first `i` touched listings were projected in place. */
  function Partly(c: Caches, run: RunState, keys: seq<ListingKey>, i: nat): Caches
    requires c.books.Some? && i <= |keys|
  {
    c.(books := Some(Refresh(c.books.value, Depths(run), ReadAgain(keys, i))),
       orders := if c.orders.None? then None else Some(Refresh(c.orders.value, Views(run), ReadAgain(keys, i))))
  }

  lemma PartlyStep(c: Caches, run: RunState, keys: seq<ListingKey>, i: nat)
    requires c.books.Some? && i < |keys| && Increasing(keys)
    ensures ReadAgain(keys, i + 1) == ReadAgain(keys, i) + {keys[i]} && keys[i] !in ReadAgain(keys, i)
  {
    assert keys[..i + 1] == keys[..i] + [keys[i]];
  }

  /** Projecting in place measures each listing against its untouched base. */
  lemma PartlyUpdates(c: Caches, run: RunState, events: seq<Event>, keys: seq<ListingKey>, i: nat)
    requires c.books.Some? && i < |keys| && Increasing(keys) && keys[i] in run
    ensures UpdateAt(Partly(c, run, keys, i), run, events, keys[i]) == UpdateAt(c, run, events, keys[i])
  {
    PartlyStep(c, run, keys, i);
    UpdateAtLocal(Partly(c, run, keys, i), c, run, events, keys[i]);
  }

  /** A listing read again: its cached depth, and its cached orders if any are kept. */
  function Overwritten(d: Caches, k: ListingKey, now: Shown): Caches
    requires d.books.Some?
  {
    d.(books := Some(d.books.value[k := now.depth]),
       orders := if d.orders.None? then None else Some(d.orders.value[k := now.orders]))
  }

  lemma PartlyNext(c: Caches, run: RunState, keys: seq<ListingKey>, i: nat)
    requires c.books.Some? && i < |keys| && Increasing(keys)
    ensures var d := Partly(c, run, keys, i);
      Partly(c, run, keys, i + 1) == if keys[i] in run then Overwritten(d, keys[i], run[keys[i]]) else d
  {
    PartlyStep(c, run, keys, i);
    RefreshOne(c.books.value, Depths(run), ReadAgain(keys, i), keys[i]);
    if c.orders.Some? {
      RefreshOne(c.orders.value, Views(run), ReadAgain(keys, i), keys[i]);
    }
  }

  lemma PartlyNone(c: Caches, run: RunState, keys: seq<ListingKey>)
    requires c.books.Some?
    ensures Partly(c, run, keys, 0) == c
  {
    assert ReadAgain(keys, 0) == {};
    assert Refresh(c.books.value, Depths(run), {}) == c.books.value;
    if c.orders.Some? {
      assert Refresh(c.orders.value, Views(run), {}) == c.orders.value;
    }
  }

  lemma UpdatesNext(c: Caches, run: RunState, events: seq<Event>, keys: seq<ListingKey>, i: nat)
    requires c.books.Some? && i < |keys| && Increasing(keys)
    ensures Updates(c, run, events, keys[..i + 1])
         == Updates(c, run, events, keys[..i]) + UpdateIn(Partly(c, run, keys, i), run, events, keys[i])
  {
    assert keys[..i + 1][..i] == keys[..i];
    if keys[i] in run {
      PartlyUpdates(c, run, events, keys, i);
    }
  }

  /** The projection loop: updates in key order while the caches are overwritten in place. */
  method Project(c: Caches, run: RunState, events: seq<Event>, keys: seq<ListingKey>)
    returns (d: Caches, updates: seq<ListingUpdate>)
    requires c.books.Some? && Increasing(keys)
    ensures updates == Updates(c, run, events, keys) && d == Partly(c, run, keys, |keys|)
  {
    d, updates := c, [];
    PartlyNone(c, run, keys);
    for i := 0 to |keys|
      invariant d == Partly(c, run, keys, i)
      invariant updates == Updates(c, run, events, keys[..i])
    {
      var k := keys[i];
      PartlyNext(c, run, keys, i);
      UpdatesNext(c, run, events, keys, i);
      updates := updates + UpdateIn(d, run, events, k);
      if k in run {
        d := Overwritten(d, k, run[k]);
      }
    }
    assert keys[..|keys|] == keys;
  }

  /** Every touched listing, in key order. */
  method ProjectAll(c: Caches, run: RunState, events: seq<Event>) returns (d: Caches, updates: seq<ListingUpdate>)
    requires c.books.Some?
    ensures updates == Published(c, run, events) && d == Projected(c, run, events)
  {
    var touched, everything := CollectTouched(events);
    if everything {
      touched := touched + c.books.value.Keys;
    }
    assert touched == Touched(events, c.books.value.Keys);
    var keys := InOrder(touched);
    d, updates := Project(c, run, events, keys);
    assert ReadAgain(keys, |keys|) == touched by {
      assert keys[..|keys|] == keys;
    }
  }

  method CollectAffected(c: Caches, run: RunState, events: seq<Event>, listingsRead: bool)
    returns (affected: set<ListingKey>)
    ensures affected == Affected(c, run, events, listingsRead)
  {
    affected := CollectMentioned(events);
    if c.books.Some? {
      affected := affected + c.books.value.Keys;
    }
    if c.orders.Some? {
      affected := affected + c.orders.value.Keys;
    }
    if listingsRead {
      affected := affected + run.Keys;
    }
  }

  class PublishingOrigin {
    var books: Option<map<ListingKey, Depth>>
    var orders: Option<map<ListingKey, seq<DisplayedOrder>>>
    var ordersEnabled: bool
    var log: seq<Committed>

    function Value(): Caches
      reads this
    {
      Caches(books, orders, ordersEnabled)
    }

    constructor ()
      ensures Value() == Caches(None, None, false) && log == []
    {
      books, orders, ordersEnabled, log := None, None, false, [];
    }

    method EnableFeeds()
      modifies this`ordersEnabled
      ensures ordersEnabled
    {
      ordersEnabled := true;
    }

    method PrimeBooks(run: RunState, ok: bool) returns (calls: seq<TapeCall>)
      modifies this`books
      ensures Value() == BooksPrimed(old(Value()), run, ok)
      ensures calls == PrimeCalls(old(Value()), run, ok)
    {
      calls := [];
      if books.Some? || !ok {
        return;
      }
      calls := [Prime(Bests(run))];
      books := Some(Depths(run));
    }

    method PrimeOrders(run: RunState, ok: bool)
      modifies this`orders
      ensures Value() == OrdersPrimed(old(Value()), run, ok)
    {
      if !ordersEnabled || orders.Some? || !ok {
        return;
      }
      orders := Some(Views(run));
    }

    /** Fails without a base, and then changes nothing. */
    method PublicUpdates(run: RunState, events: seq<Event>, ok: bool) returns (r: Option<seq<ListingUpdate>>)
      modifies this`books, this`orders
      ensures r.Some? <==> Projects(old(Value()), ok)
      ensures r.Some? ==>
        r.value == Published(old(Value()), run, events) && Value() == Projected(old(Value()), run, events)
      ensures r.None? ==> Value() == old(Value())
    {
      if books.None? || !ok {
        return None;
      }
      var d, updates := ProjectAll(Value(), run, events);
      books, orders := d.books, d.orders;
      r := Some(updates);
    }

    /** Names the affected listings, rebuilds the caches and schedules the tape's gap. */
    method RecoverPublicProjection(run: RunState, events: seq<Event>, ordinal: nat, durableUs: nat, faults: Faults)
      returns (gaps: seq<ListingKey>, calls: seq<TapeCall>)
      modifies this`books, this`orders
      ensures gaps == InOrder(Affected(old(Value()), run, events, faults.listings))
      ensures Value() == Recovered(old(Value()), run, faults)
      ensures calls == PrimeCalls(old(Value()).(books := None), run, faults.reprimeBooks)
                       + [if faults.rebuild then HearGap(ordinal, durableUs, Rebuilt(run, gaps)) else TakeDown]
    {
      var affected := CollectAffected(Value(), run, events, faults.listings);
      gaps := InOrder(affected);
      books, orders := None, None;
      calls := PrimeBooks(run, faults.reprimeBooks);
      PrimeOrders(run, faults.reprimeOrders);
      calls := calls + [if faults.rebuild then HearGap(ordinal, durableUs, Rebuilt(run, gaps)) else TakeDown];
    }

    /** A durable commit's batch: its public updates, or the gaps of a failed projection. */
    method PublishCommit(cmd: Command) returns (calls: seq<TapeCall>)
      requires cmd.outcome.Done?
      modifies this
      ensures Value() == CachesAfter(old(Value()), cmd)
      ensures log == Logged(old(log), BatchOf(old(Value()), |old(log)|, cmd))
      ensures calls == CallsOf(old(Value()), |old(log)|, cmd)
    {
      var Done(events, after) := cmd.outcome;
      var public, gaps := [], [];
      calls := [];
      var projection := PublicUpdates(after, events, cmd.faults.project);
      if projection.Some? {
        public := projection.value;
      } else {
        gaps, calls := RecoverPublicProjection(after, events, |log|, cmd.durableUs, cmd.faults);
      }
      if gaps == [] {
        calls := calls + [Hear(|log|, cmd.durableUs, public)];
      }
      if events != [] {
        log := log + [Committed(cmd.durableUs, cmd.source, events, |log|, public, gaps)];
      }
    }

    /** One command: primes, commits, and publishes what it committed exactly once. */
    method ExecuteAdmitted(run: RunState, cmd: Command) returns (after: RunState, calls: seq<TapeCall>)
      modifies this
      ensures var s := Executed(State(old(Value()), run, old(log), [run], []), cmd);
        Value() == s.caches && after == s.run && log == s.log && calls == s.calls
    {
      calls := PrimeBooks(run, cmd.faults.primeBooks);
      PrimeOrders(run, cmd.faults.primeOrders);
      assert Value() == Primed(old(Value()), run, cmd.faults);
      assert [] + calls == calls;
      after := run;
      if cmd.outcome.Done? {
        after := cmd.outcome.after;
        var more := PublishCommit(cmd);
        calls := calls + more;
      }
    }
  }
}
