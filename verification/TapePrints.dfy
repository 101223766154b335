/**
  The trades on the consolidated tape: whatever the origin commits and however
  the tape interleaves its calls and releases, the tape prints exactly the trades
  its commits executed, each with its price and quantity.
 */
module TapePrints {
  import opened Words
  import opened Market
  import opened TimedQueue
  import opened Tape
  import Feed
  import TapeClient
  import TapeRun
  import TapeFeedRun
  import Origin
  import TapeOrigin

  // ----- What a commit executed --------------------------------------------

  /** The trades of its instrument a commit's events executed at a listing, in order. */
  function TradesExecuted(events: seq<Event>, k: ListingKey): seq<Print> {
    if events == [] then []
    else
      var p := events[0].payload;
      (if p.TradeExecuted? && p.listing == Some(k) && p.instrument == k.instrument
       then [Print(p.price, p.quantity)] else [])
      + TradesExecuted(events[1..], k)
  }

  /** Trades and prints agree one by one on price and quantity. */
  ghost predicate Priced(ts: seq<Trade>, ps: seq<Print>) {
    |ts| == |ps| && forall i | 0 <= i < |ts| :: ts[i].price == ps[i].price && ts[i].quantity == ps[i].quantity
  }

  lemma {:induction false} TradesArePriced(events: seq<Event>, k: ListingKey)
    ensures Priced(Origin.TradesAt(events, k), TradesExecuted(events, k))
  {
    if events != [] {
      TradesArePriced(events[1..], k);
    }
  }

  lemma {:induction false} NamingKeepsPrices(
      ts: seq<Trade>, makers: seq<nat>, orders: seq<DisplayedOrder>, ps: seq<Print>)
    requires Priced(ts, ps)
    ensures Priced(Origin.Named(ts, makers, orders), ps)
    decreases |ts|
  {
    if ts != [] && makers != [] {
      NamingKeepsPrices(ts[1..], makers[1..], orders, ps[1..]);
    }
  }

  /** A listing's update carries the trades executed at it. */
  lemma UpdateIsPriced(c: Origin.Caches, run: Origin.RunState, events: seq<Event>, k: ListingKey)
    requires c.books.Some? && k in run
    ensures Priced(Origin.UpdateAt(c, run, events, k).trades, TradesExecuted(events, k))
  {
    var ps := TradesExecuted(events, k);
    TradesArePriced(events, k);
    if c.orders.Some? {
      NamingKeepsPrices(
        Origin.TradesAt(events, k), Origin.MakersAt(events, k), Origin.Cached(c.orders.value, k, []), ps);
    }
  }

  // ----- What a call carries -----------------------------------------------

  /** A change's prints of a listing. */
  function ChangePrints(k: ListingKey): VenueChange -> seq<Print> {
    (c: VenueChange) => if c.listing == k && !c.gap then c.trades else []
  }

  /** The prints of a listing among changes on their way to the processor. */
  function PrintsOfChanges(cs: seq<VenueChange>, k: ListingKey): seq<Print> {
    FlatMap(ChangePrints(k), cs)
  }

  /** The change a public update becomes holds one print per trade, in order, and is no gap. */
  lemma ChangeIsPriced(public: seq<ListingUpdate>, i: nat, ps: seq<Print>)
    requires i < |public| && Priced(public[i].trades, ps)
    ensures |ChangesOf(public)| == |public|
    ensures var c := ChangesOf(public)[i]; c.listing == public[i].listing && !c.gap && c.trades == ps
  {
  }

  lemma OnePrint(us: seq<ListingUpdate>, u: ListingUpdate, k: ListingKey, ps: seq<Print>)
    requires u.listing == k ==> Priced(u.trades, ps)
    ensures PrintsOfChanges(ChangesOf(us + [u]), k)
         == PrintsOfChanges(ChangesOf(us), k) + if u.listing == k then ps else []
  {
    var all := us + [u];
    if u.listing == k {
      ChangeIsPriced(all, |us|, ps);
    }
    var c := ChangesOf(all)[|us|];
    assert ChangesOf(all) == ChangesOf(us) + [c];
    FlatMapNext(ChangePrints(k), ChangesOf(us), c);
  }

  lemma NextUpdatePrints(
      c: Origin.Caches, run: Origin.RunState, events: seq<Event>, us: seq<ListingUpdate>, last: ListingKey,
      k: ListingKey)
    requires c.books.Some?
    ensures PrintsOfChanges(ChangesOf(us + Origin.UpdateIn(c, run, events, last)), k)
         == PrintsOfChanges(ChangesOf(us), k) + if last == k && k in run then TradesExecuted(events, k) else []
  {
    if last in run {
      var u := Origin.UpdateAt(c, run, events, last);
      if last == k {
        UpdateIsPriced(c, run, events, k);
      }
      if Origin.SaysNothing(u) {
        assert us + [] == us;
      } else {
        OnePrint(us, u, k, TradesExecuted(events, k));
      }
    } else {
      assert us + [] == us;
    }
  }

  lemma LastKeyIsNew(keys: seq<ListingKey>)
    requires keys != [] && Origin.Increasing(keys)
    ensures var front, last := keys[..|keys| - 1], keys[|keys| - 1];
      Origin.Increasing(front) && last !in front && forall k :: k in keys <==> k in front || k == last
  {
    assert keys == keys[..|keys| - 1] + [keys[|keys| - 1]];
  }

  /** Of the updates a projection publishes, a listing's prints are the trades executed at it. */
  lemma {:induction false} UpdatesPrint(
      c: Origin.Caches, run: Origin.RunState, events: seq<Event>, keys: seq<ListingKey>, k: ListingKey)
    requires c.books.Some? && Origin.Increasing(keys)
    ensures PrintsOfChanges(ChangesOf(Origin.Updates(c, run, events, keys)), k)
         == if k in keys && k in run then TradesExecuted(events, k) else []
  {
    if keys != [] {
      var front, last := keys[..|keys| - 1], keys[|keys| - 1];
      LastKeyIsNew(keys);
      UpdatesPrint(c, run, events, front, k);
      NextUpdatePrints(c, run, events, Origin.Updates(c, run, events, front), last, k);
    }
  }

  lemma {:induction false} GapsPrintNothing(rebuilt: seq<(ListingKey, Quotes)>, k: ListingKey)
    ensures PrintsOfChanges(GapsOf(rebuilt), k) == []
  {
    if rebuilt != [] {
      var front := rebuilt[..|rebuilt| - 1];
      GapsPrintNothing(front, k);
      assert GapsOf(rebuilt)[..|front|] == GapsOf(front);
    }
  }

  // ----- What the committer's calls carry over a run -----------------------

  function CallPrints(k: ListingKey): TapeCall -> seq<Print> {
    (call: TapeCall) => PrintsOfChanges(TapeRun.ChangesIn(call), k)
  }

  function PrintsOfCalls(calls: seq<TapeCall>, k: ListingKey): seq<Print> {
    FlatMap(CallPrints(k), calls)
  }

  /** What a published batch executed at a listing, unless it is a gap for it. */
  function BatchTrades(k: ListingKey): Committed -> seq<Print> {
    (b: Committed) => if k in b.publicGaps then [] else TradesExecuted(b.events, k)
  }

  /** What all published batches executed at a listing, gaps left out, in commit order. */
  function LogTrades(log: seq<Committed>, k: ListingKey): seq<Print> {
    FlatMap(BatchTrades(k), log)
  }

  /** A commit that executed a trade at a listing touches and mentions it. */
  lemma {:induction false} TradesTouch(events: seq<Event>, k: ListingKey)
    ensures TradesExecuted(events, k) != [] ==>
      Origin.Touches(events, k) && exists i | 0 <= i < |events| :: Origin.Mentions(events[i].payload, k)
  {
    if events != [] && TradesExecuted(events, k) != [] {
      var p := events[0].payload;
      if p.TradeExecuted? && p.listing == Some(k) && p.instrument == k.instrument {
        assert Origin.Moves(events[0].payload, k) && Origin.Mentions(events[0].payload, k);
      } else {
        TradesTouch(events[1..], k);
        var i :| 0 <= i < |events[1..]| && Origin.Moves(events[1..][i].payload, k);
        assert Origin.Moves(events[i + 1].payload, k) && Origin.Mentions(events[i + 1].payload, k);
      }
    }
  }

  /** A projected commit's one call carries its trades at a listing. */
  lemma ProjectedPrints(primed: Origin.Caches, ordinal: nat, cmd: Origin.Command, k: ListingKey)
    requires cmd.outcome.Done? && k in cmd.outcome.after
    requires Origin.Projects(primed, cmd.faults.project)
    ensures PrintsOfCalls(Origin.CallsOf(primed, ordinal, cmd), k)
         == BatchTrades(k)(Origin.BatchOf(primed, ordinal, cmd))
  {
    var b, events := Origin.BatchOf(primed, ordinal, cmd), cmd.outcome.events;
    var hear := Hear(ordinal, cmd.durableUs, b.public);
    assert Origin.CallsOf(primed, ordinal, cmd) == [hear];
    FlatMapOne(CallPrints(k), hear);
    TradesTouch(events, k);
    var keys := Origin.InOrder(Origin.Touched(events, primed.books.value.Keys));
    UpdatesPrint(primed, cmd.outcome.after, events, keys, k);
  }

  /** A failed projection names every listing a trade executed at as a gap. */
  lemma FailedBatchTrades(primed: Origin.Caches, ordinal: nat, cmd: Origin.Command, k: ListingKey)
    requires cmd.outcome.Done? && !Origin.Projects(primed, cmd.faults.project)
    ensures BatchTrades(k)(Origin.BatchOf(primed, ordinal, cmd)) == []
  {
    var events := cmd.outcome.events;
    TradesTouch(events, k);
    if TradesExecuted(events, k) != [] {
      assert k in Origin.Mentioned(events);
      assert k in Origin.Affected(primed, cmd.outcome.after, events, cmd.faults.listings);
    }
  }

  predicate Silent(call: TapeCall) {
    call.Prime? || call.HearGap? || call.TakeDown? || (call.Hear? && call.public == [])
  }

  lemma SilentCall(call: TapeCall, k: ListingKey)
    requires Silent(call)
    ensures CallPrints(k)(call) == []
  {
    if call.HearGap? {
      GapsPrintNothing(call.rebuilt, k);
    }
  }

  lemma {:induction false} SilentCalls(calls: seq<TapeCall>, k: ListingKey)
    requires forall i | 0 <= i < |calls| :: Silent(calls[i])
    ensures PrintsOfCalls(calls, k) == []
  {
    if calls != [] {
      SilentCalls(calls[..|calls| - 1], k);
      SilentCall(calls[|calls| - 1], k);
    }
  }

  /** What recovery tells the tape prints nothing. */
  lemma FailedPrints(primed: Origin.Caches, ordinal: nat, cmd: Origin.Command, k: ListingKey)
    requires cmd.outcome.Done? && !Origin.Projects(primed, cmd.faults.project)
    ensures PrintsOfCalls(Origin.CallsOf(primed, ordinal, cmd), k) == []
  {
    SilentCalls(Origin.CallsOf(primed, ordinal, cmd), k);
  }

  /** The calls one commit makes carry its trades at a listing exactly unless its batch is a gap for it. */
  lemma CommitPrints(primed: Origin.Caches, ordinal: nat, cmd: Origin.Command, k: ListingKey)
    requires cmd.outcome.Done? && k in cmd.outcome.after
    ensures PrintsOfCalls(Origin.CallsOf(primed, ordinal, cmd), k)
         == BatchTrades(k)(Origin.BatchOf(primed, ordinal, cmd))
  {
    if Origin.Projects(primed, cmd.faults.project) {
      ProjectedPrints(primed, ordinal, cmd, k);
    } else {
      FailedPrints(primed, ordinal, cmd, k);
      FailedBatchTrades(primed, ordinal, cmd, k);
    }
  }

  ghost predicate PrintsLog(s: Origin.State, k: ListingKey) {
    k in s.run && PrintsOfCalls(s.calls, k) == LogTrades(s.log, k)
  }

  lemma PrintsGrow(
      calls: seq<TapeCall>, primes: seq<TapeCall>, more: seq<TapeCall>, log: seq<Committed>, b: Committed,
      k: ListingKey)
    requires PrintsOfCalls(calls, k) == LogTrades(log, k) && PrintsOfCalls(primes, k) == []
    requires PrintsOfCalls(more, k) == BatchTrades(k)(b)
    ensures PrintsOfCalls((calls + primes) + more, k) == LogTrades(log + [b], k)
  {
    FlatMapConcat(CallPrints(k), calls, primes);
    FlatMapConcat(CallPrints(k), calls + primes, more);
    FlatMapNext(BatchTrades(k), log, b);
  }

  lemma ExecutePrints(s: Origin.State, cmd: Origin.Command, k: ListingKey)
    requires PrintsLog(s, k) && Origin.Lawful(s, Origin.Execute(cmd)) && cmd.outcome.Done?
    ensures var t := Origin.Executed(s, cmd); PrintsLog(t, k)
  {
    var primes := Origin.PrimeCalls(s.caches, s.run, cmd.faults.primeBooks);
    var primed := Origin.Primed(s.caches, s.run, cmd.faults);
    var more, b := Origin.CallsOf(primed, |s.log|, cmd), Origin.BatchOf(primed, |s.log|, cmd);
    var t := Origin.Executed(s, cmd);
    assert t.calls == (s.calls + primes) + more && t.log == s.log + [b];
    PrimesPrintNothing(s.caches, s.run, cmd.faults.primeBooks, k);
    CommitPrints(primed, |s.log|, cmd, k);
    PrintsGrow(s.calls, primes, more, s.log, b, k);
  }

  lemma PrimesPrintNothing(c: Origin.Caches, run: Origin.RunState, ok: bool, k: ListingKey)
    ensures PrintsOfCalls(Origin.PrimeCalls(c, run, ok), k) == []
  {
    SilentCalls(Origin.PrimeCalls(c, run, ok), k);
  }

  lemma RefusedPrints(s: Origin.State, cmd: Origin.Command, k: ListingKey)
    requires PrintsLog(s, k) && !cmd.outcome.Done?
    ensures var t := Origin.Executed(s, cmd); PrintsLog(t, k)
  {
    var primes := Origin.PrimeCalls(s.caches, s.run, cmd.faults.primeBooks);
    PrimesPrintNothing(s.caches, s.run, cmd.faults.primeBooks, k);
    FlatMapConcat(CallPrints(k), s.calls, primes);
  }

  /** Over every run of commands the committer's calls carry exactly the trades its batches executed. */
  lemma {:induction false} CallsPrintTheLog(s: Origin.State, steps: seq<Origin.Step>, k: ListingKey)
    requires PrintsLog(s, k) && Origin.AllLawful(s, steps)
    ensures PrintsLog(Origin.Steps(s, steps), k)
    decreases |steps|
  {
    if steps != [] {
      var t := Origin.Next(s, steps[0]);
      if steps[0].Execute? && steps[0].command.outcome.Done? {
        ExecutePrints(s, steps[0].command, k);
      } else if steps[0].Execute? {
        RefusedPrints(s, steps[0].command, k);
      }
      CallsPrintTheLog(t, steps[1..], k);
    }
  }

  // ----- What the tape prints ----------------------------------------------

  function EntryPrints(k: ListingKey): ((ListingKey, Increment)) -> seq<Print> {
    (e: (ListingKey, Increment)) =>
      if e.0 == k && e.1.TradeEntry? then [Print(e.1.price, e.1.quantity)] else []
  }

  function RecordPrints(k: ListingKey): Record -> seq<Print> {
    (r: Record) => FlatMap(EntryPrints(k), r.entries)
  }

  /** The trades of a listing on the tape, read from the entries of its records. */
  function PrintsOf(records: seq<Record>, k: ListingKey): seq<Print> {
    FlatMap(RecordPrints(k), records)
  }

  lemma {:induction false} TradeEntriesPrint(j: ListingKey, ts: seq<Print>, k: ListingKey)
    ensures FlatMap(EntryPrints(k), TradeEntries(j, ts)) == if j == k then ts else []
  {
    if ts != [] {
      var front, last := ts[..|ts| - 1], ts[|ts| - 1];
      var e := (j, TradeEntry(last.price, last.quantity, None, None, None));
      TradeEntriesPrint(j, front, k);
      assert TradeEntries(j, ts) == TradeEntries(j, front) + [e];
      FlatMapNext(EntryPrints(k), TradeEntries(j, front), e);
    }
  }

  lemma QuotesPrintNothing(j: ListingKey, side: Side, was: Option<Level>, now: Option<Level>, k: ListingKey)
    ensures FlatMap(EntryPrints(k), QuoteEntry(j, side, was, now)) == []
  {
    if was != now {
      FlatMapOne(EntryPrints(k), QuoteEntry(j, side, was, now)[0]);
    }
  }

  lemma EntriesPrint(p: Processor, c: VenueChange, k: ListingKey)
    ensures FlatMap(EntryPrints(k), EntriesOf(p, c)) == if c.listing == k then c.trades else []
  {
    var was, f := QuotesAt(p, c.listing), EntryPrints(k);
    var ts, bids := TradeEntries(c.listing, c.trades), QuoteEntry(c.listing, Buy, was.bid, c.quotes.bid);
    FlatMapConcat(f, ts + bids, QuoteEntry(c.listing, Sell, was.ask, c.quotes.ask));
    FlatMapConcat(f, ts, bids);
    TradeEntriesPrint(c.listing, c.trades, k);
    QuotesPrintNothing(c.listing, Buy, was.bid, c.quotes.bid, k);
    QuotesPrintNothing(c.listing, Sell, was.ask, c.quotes.ask, k);
  }

  /** Applying a change publishes its trades, unless it is a gap. */
  lemma RecordPrintsTheChange(p: Processor, hubUs: nat, c: VenueChange, k: ListingKey)
    ensures PrintsOf(RecordOf(p, hubUs, c), k) == ChangePrints(k)(c)
  {
    EntriesPrint(p, c, k);
    if !c.gap && EntriesOf(p, c) != [] {
      FlatMapOne(RecordPrints(k), RecordOf(p, hubUs, c)[0]);
    }
  }

  lemma SaidPrints(p: Processor, e: Happening, k: ListingKey)
    ensures PrintsOf(Said(p, e), k) == if e.Applied? then ChangePrints(k)(e.change.value) else []
  {
    if e.Applied? {
      RecordPrintsTheChange(p, e.change.key.at, e.change.value, k);
    }
  }

  lemma AppliedPrints(applied: seq<TapeRun.Timed>, e: Happening, k: ListingKey)
    ensures PrintsOfChanges(Values(applied + if e.Applied? then [e.change] else []), k)
         == PrintsOfChanges(Values(applied), k) + if e.Applied? then ChangePrints(k)(e.change.value) else []
  {
    if e.Applied? {
      assert Values(applied + [e.change]) == Values(applied) + [e.change.value];
      FlatMapNext(ChangePrints(k), Values(applied), e.change.value);
    } else {
      assert applied + [] == applied;
    }
  }

  /** What a processor says prints the trades of the changes it applied. */
  lemma {:induction false} SaidAllPrints(p: Processor, es: seq<Happening>, k: ListingKey)
    ensures PrintsOf(SaidAll(p, es), k) == PrintsOfChanges(Values(TapeFeedRun.AppliedIn(es)), k)
  {
    if es != [] {
      var front, last := es[..|es| - 1], es[|es| - 1];
      SaidAllPrints(p, front, k);
      SaidPrints(HappenAll(p, front), last, k);
      FlatMapConcat(RecordPrints(k), SaidAll(p, front), Said(HappenAll(p, front), last));
      AppliedPrints(TapeFeedRun.AppliedIn(front), last, k);
    }
  }

  lemma TapePrintsTheApplied(cfg: Config, steps: seq<TapeRun.Step>, k: ListingKey)
    requires TapeRun.AllLawful(TapeRun.START, cfg, steps)
    ensures var u := TapeRun.Run(TapeRun.START, cfg, steps);
      PrintsOf(u.tape.sent, k) == PrintsOfChanges(Values(u.applied), k)
  {
    var p, es := TapeRun.START.tape.processor, TapeFeedRun.HappensOver(TapeRun.START, cfg, steps);
    TapeFeedRun.RunHappens(TapeRun.START, cfg, steps);
    SaidAllPrints(p, es, k);
    assert [] + SaidAll(p, es) == SaidAll(p, es);
    assert [] + TapeFeedRun.AppliedIn(es) == TapeFeedRun.AppliedIn(es);
  }

  // ----- When it prints ----------------------------------------------------

  /** The record of a change carries the change's instrument and its arrival at the hub. */
  ghost predicate RecordsOne(r: Record, x: TapeRun.Timed) {
    !x.value.gap && r.instrument == x.value.listing.instrument && r.hubUs == x.key.at
  }

  lemma {:induction false} SaidIsTimed(p: Processor, es: seq<Happening>, r: Record)
    requires r in SaidAll(p, es)
    ensures exists x :: x in TapeFeedRun.AppliedIn(es) && RecordsOne(r, x)
  {
    var front, last := es[..|es| - 1], es[|es| - 1];
    if r in Said(HappenAll(p, front), last) {
      assert RecordsOne(r, last.change) && last.change in TapeFeedRun.AppliedIn(es);
    } else {
      SaidIsTimed(p, front, r);
      var x :| x in TapeFeedRun.AppliedIn(front) && RecordsOne(r, x);
      assert x in TapeFeedRun.AppliedIn(es);
    }
  }

  /** Every record on the tape is of an applied change, published at the instant the change reached the hub. */
  lemma RecordsAreTimed(cfg: Config, steps: seq<TapeRun.Step>, r: Record)
    requires TapeRun.AllLawful(TapeRun.START, cfg, steps) && r in TapeRun.Run(TapeRun.START, cfg, steps).tape.sent
    ensures exists x :: x in TapeRun.Run(TapeRun.START, cfg, steps).applied && RecordsOne(r, x)
  {
    var p, es := TapeRun.START.tape.processor, TapeFeedRun.HappensOver(TapeRun.START, cfg, steps);
    TapeFeedRun.RunHappens(TapeRun.START, cfg, steps);
    assert [] + SaidAll(p, es) == SaidAll(p, es);
    assert [] + TapeFeedRun.AppliedIn(es) == TapeFeedRun.AppliedIn(es);
    SaidIsTimed(p, es, r);
  }

  // ----- Every change is true to its commit --------------------------------

  /** A change of the listing heard of commit `ord` holds the trades that commit executed, or is a gap. */
  ghost predicate TrueTo(log: seq<Committed>, k: ListingKey, ord: nat, c: VenueChange) {
    c.listing == k && !c.gap ==> ord < |log| && c.trades == TradesExecuted(log[ord].events, k)
  }

  ghost predicate CallIsTrue(log: seq<Committed>, k: ListingKey, call: TapeCall) {
    TapeRun.Carries(call) ==> forall c :: c in TapeRun.ChangesIn(call) ==> TrueTo(log, k, call.ordinal, c)
  }

  ghost predicate CallsAreTrue(log: seq<Committed>, k: ListingKey, calls: seq<TapeCall>) {
    forall call :: call in calls ==> CallIsTrue(log, k, call)
  }

  lemma CallsStayTrue(log: seq<Committed>, more: seq<Committed>, k: ListingKey, calls: seq<TapeCall>)
    requires CallsAreTrue(log, k, calls) && log <= more
    ensures CallsAreTrue(more, k, calls)
  {
    forall call | call in calls ensures CallIsTrue(more, k, call) {
      assert CallIsTrue(log, k, call);
      if TapeRun.Carries(call) {
        forall c | c in TapeRun.ChangesIn(call) ensures TrueTo(more, k, call.ordinal, c) {
          assert TrueTo(log, k, call.ordinal, c);
        }
      }
    }
  }

  /** Every update of a projection is its listing's own. */
  lemma {:induction false} UpdatesAreOwn(
      c: Origin.Caches, run: Origin.RunState, events: seq<Event>, keys: seq<ListingKey>, i: nat)
    requires c.books.Some? && i < |Origin.Updates(c, run, events, keys)|
    ensures var u := Origin.Updates(c, run, events, keys)[i];
      u.listing in run && u == Origin.UpdateAt(c, run, events, u.listing)
  {
    var front, last := keys[..|keys| - 1], keys[|keys| - 1];
    if i < |Origin.Updates(c, run, events, front)| {
      UpdatesAreOwn(c, run, events, front, i);
    } else {
      assert Origin.Updates(c, run, events, keys)[i] == Origin.UpdateIn(c, run, events, last)[0];
    }
  }

  lemma ProjectionIsTrue(
      c: Origin.Caches, run: Origin.RunState, events: seq<Event>, k: ListingKey, i: nat)
    requires c.books.Some? && i < |Origin.Published(c, run, events)|
    ensures var d := ChangesOf(Origin.Published(c, run, events))[i];
      d.listing == k ==> d.trades == TradesExecuted(events, k)
  {
    var keys := Origin.InOrder(Origin.Touched(events, c.books.value.Keys));
    UpdatesAreOwn(c, run, events, keys, i);
    var public := Origin.Published(c, run, events);
    if public[i].listing == k {
      UpdateIsPriced(c, run, events, k);
      ChangeIsPriced(public, i, TradesExecuted(events, k));
    }
  }

  lemma CommitIsTrue(primed: Origin.Caches, log: seq<Committed>, cmd: Origin.Command, k: ListingKey)
    requires cmd.outcome.Done?
    ensures var b := Origin.BatchOf(primed, |log|, cmd);
      CallsAreTrue(log + [b], k, Origin.CallsOf(primed, |log|, cmd))
  {
    var b := Origin.BatchOf(primed, |log|, cmd);
    forall call | call in Origin.CallsOf(primed, |log|, cmd) ensures CallIsTrue(log + [b], k, call) {
      if call.Hear? {
        HearIsTrue(primed, log, cmd, k, call);
      }
    }
  }

  lemma HearIsTrue(primed: Origin.Caches, log: seq<Committed>, cmd: Origin.Command, k: ListingKey, call: TapeCall)
    requires cmd.outcome.Done?
    requires call == Hear(|log|, cmd.durableUs, Origin.BatchOf(primed, |log|, cmd).public)
    ensures CallIsTrue(log + [Origin.BatchOf(primed, |log|, cmd)], k, call)
  {
    var more, events := log + [Origin.BatchOf(primed, |log|, cmd)], cmd.outcome.events;
    forall c | c in ChangesOf(call.public) ensures TrueTo(more, k, call.ordinal, c) {
      var i :| 0 <= i < |call.public| && ChangesOf(call.public)[i] == c;
      if Origin.Projects(primed, cmd.faults.project) {
        ProjectionIsTrue(primed, cmd.outcome.after, events, k, i);
      }
    }
  }

  ghost predicate Says(s: Origin.State, k: ListingKey) {
    CallsAreTrue(s.log, k, s.calls)
  }

  lemma PrimesAreTrue(c: Origin.Caches, run: Origin.RunState, ok: bool, log: seq<Committed>, k: ListingKey)
    ensures CallsAreTrue(log, k, Origin.PrimeCalls(c, run, ok))
  {
  }

  lemma TrueConcat(log: seq<Committed>, k: ListingKey, a: seq<TapeCall>, b: seq<TapeCall>)
    requires CallsAreTrue(log, k, a) && CallsAreTrue(log, k, b)
    ensures CallsAreTrue(log, k, a + b)
  {
  }

  lemma ExecuteSays(s: Origin.State, cmd: Origin.Command, k: ListingKey)
    requires Says(s, k) && Origin.Lawful(s, Origin.Execute(cmd)) && cmd.outcome.Done?
    ensures var t := Origin.Executed(s, cmd); Says(t, k)
  {
    var primes := Origin.PrimeCalls(s.caches, s.run, cmd.faults.primeBooks);
    var primed := Origin.Primed(s.caches, s.run, cmd.faults);
    var more, b := Origin.CallsOf(primed, |s.log|, cmd), Origin.BatchOf(primed, |s.log|, cmd);
    var t := Origin.Executed(s, cmd);
    assert t.calls == (s.calls + primes) + more && t.log == s.log + [b];
    CallsStayTrue(s.log, t.log, k, s.calls);
    PrimesAreTrue(s.caches, s.run, cmd.faults.primeBooks, t.log, k);
    CommitIsTrue(primed, s.log, cmd, k);
    TrueConcat(t.log, k, s.calls, primes);
    TrueConcat(t.log, k, s.calls + primes, more);
  }

  lemma RefusedSays(s: Origin.State, cmd: Origin.Command, k: ListingKey)
    requires Says(s, k) && !cmd.outcome.Done?
    ensures var t := Origin.Executed(s, cmd); Says(t, k)
  {
    var primes := Origin.PrimeCalls(s.caches, s.run, cmd.faults.primeBooks);
    PrimesAreTrue(s.caches, s.run, cmd.faults.primeBooks, s.log, k);
    TrueConcat(s.log, k, s.calls, primes);
  }

  /** Over every run of commands each change told to the tape holds the trades of its commit. */
  lemma {:induction false} CallsStateTheirCommits(s: Origin.State, steps: seq<Origin.Step>, k: ListingKey)
    requires Says(s, k) && Origin.AllLawful(s, steps)
    ensures Says(Origin.Steps(s, steps), k)
    decreases |steps|
  {
    if steps != [] {
      var t := Origin.Next(s, steps[0]);
      if steps[0].Execute? && steps[0].command.outcome.Done? {
        ExecuteSays(s, steps[0].command, k);
      } else if steps[0].Execute? {
        RefusedSays(s, steps[0].command, k);
      }
      CallsStateTheirCommits(t, steps[1..], k);
    }
  }

  // ----- Over every run of the tape ----------------------------------------

  ghost predicate AllTrue(log: seq<Committed>, k: ListingKey, items: seq<TapeRun.Timed>) {
    forall x :: x in items ==> TrueTo(log, k, x.key.ord, x.value)
  }

  lemma {:induction false} InsertAllTrue(
      log: seq<Committed>, k: ListingKey, q: seq<TapeRun.Timed>, items: seq<TapeRun.Timed>)
    requires AllTrue(log, k, q) && AllTrue(log, k, items)
    ensures AllTrue(log, k, TapeRun.InsertAll(q, items))
  {
    if items != [] {
      var front := items[..|items| - 1];
      InsertAllTrue(log, k, q, front);
      InsertMembers(TapeRun.InsertAll(q, front), items[|items| - 1]);
    }
  }

  lemma StepIsTrue(log: seq<Committed>, k: ListingKey, tr: TapeRun.Trace, cfg: Config, step: TapeRun.Step)
    requires TapeRun.Lawful(tr, step) && AllTrue(log, k, tr.tape.inFlight) && AllTrue(log, k, tr.applied)
    requires step.Call? ==> CallIsTrue(log, k, step.call)
    ensures var u := TapeRun.Next(tr, cfg, step); AllTrue(log, k, u.tape.inFlight) && AllTrue(log, k, u.applied)
  {
    if step.Call? && TapeRun.Carries(step.call) {
      var d := TapeRun.DepartureOf(step.call, step.delays);
      TapeRun.AllDepartOrDown(tr.tape, cfg, d, |d.changes|);
      var items := TapeRun.Items(cfg, d, |d.changes|);
      forall x | x in items ensures TrueTo(log, k, x.key.ord, x.value) {
        assert x.value in TapeRun.ChangesIn(step.call);
      }
      InsertAllTrue(log, k, tr.tape.inFlight, items);
    }
  }

  lemma {:induction false} RunIsTrue(
      log: seq<Committed>, k: ListingKey, tr: TapeRun.Trace, cfg: Config, steps: seq<TapeRun.Step>)
    requires TapeRun.AllLawful(tr, cfg, steps) && AllTrue(log, k, tr.tape.inFlight) && AllTrue(log, k, tr.applied)
    requires CallsAreTrue(log, k, TapeRun.Calls(steps))
    ensures var u := TapeRun.Run(tr, cfg, steps); AllTrue(log, k, u.applied)
    decreases |steps|
  {
    if steps != [] {
      var calls := TapeRun.Calls(steps);
      assert steps[0].Call? ==> steps[0].call == calls[0];
      assert forall call :: call in TapeRun.Calls(steps[1..]) ==> call in calls;
      StepIsTrue(log, k, tr, cfg, steps[0]);
      RunIsTrue(log, k, TapeRun.Next(tr, cfg, steps[0]), cfg, steps[1..]);
    }
  }

  /** What the commit of an applied change executed at the listing; a gap publishes nothing. */
  function CommitTrades(log: seq<Committed>, k: ListingKey): TapeRun.Timed -> seq<Print> {
    (x: TapeRun.Timed) =>
      if x.value.listing == k && !x.value.gap && x.key.ord < |log|
      then TradesExecuted(log[x.key.ord].events, k) else []
  }

  lemma {:induction false} TrueChangesPrint(log: seq<Committed>, k: ListingKey, items: seq<TapeRun.Timed>)
    requires AllTrue(log, k, items)
    ensures PrintsOfChanges(Values(items), k) == FlatMap(CommitTrades(log, k), items)
  {
    if items != [] {
      var front, last := items[..|items| - 1], items[|items| - 1];
      TrueChangesPrint(log, k, front);
      assert Values(items)[..|front|] == Values(front);
      assert TrueTo(log, k, last.key.ord, last.value);
    }
  }

  /**
    Over every run of the origin and the tape, the tape's trades of a listing
    are, applied change by applied change, those that change's commit executed.
   */
  lemma AppliedChangesPrintTheirCommits(
      run: Origin.RunState, commands: seq<Origin.Step>, cfg: Config, steps: seq<TapeRun.Step>, k: ListingKey)
    requires Origin.AllLawful(Origin.Start(run), commands)
    requires TapeOrigin.Delayed(steps) && TapeRun.Calls(steps) == Origin.Steps(Origin.Start(run), commands).calls
    ensures TapeRun.AllLawful(TapeRun.START, cfg, steps)
    ensures var o, u := Origin.Steps(Origin.Start(run), commands), TapeRun.Run(TapeRun.START, cfg, steps);
      AllTrue(o.log, k, u.applied) && PrintsOf(u.tape.sent, k) == FlatMap(CommitTrades(o.log, k), u.applied)
  {
    var o := Origin.Steps(Origin.Start(run), commands);
    TapeOrigin.StepsRise(Origin.Start(run), commands);
    TapeOrigin.CallsAreLawful(TapeRun.START, cfg, steps);
    CallsStateTheirCommits(Origin.Start(run), commands, k);
    RunIsTrue(o.log, k, TapeRun.START, cfg, steps);
    TapePrintsTheApplied(cfg, steps, k);
    TrueChangesPrint(o.log, k, TapeRun.Run(TapeRun.START, cfg, steps).applied);
  }

  // ----- Nothing lost, nothing twice ---------------------------------------

  lemma ItemsPrint(heard: seq<TapeRun.Timed>, cfg: Config, d: Departure, k: ListingKey)
    requires Wellformed(d)
    ensures PrintsOfChanges(Values(heard + TapeRun.Items(cfg, d, |d.changes|)), k)
         == PrintsOfChanges(Values(heard), k) + PrintsOfChanges(d.changes, k)
  {
    var items := TapeRun.Items(cfg, d, |d.changes|);
    assert Values(heard + items) == Values(heard) + d.changes;
    FlatMapConcat(ChangePrints(k), Values(heard), d.changes);
  }

  /** A step that leaves the tape up hears exactly what its call carries. */
  lemma StepHears(tr: TapeRun.Trace, cfg: Config, step: TapeRun.Step, k: ListingKey)
    requires TapeRun.Lawful(tr, step)
    ensures var u := TapeRun.Next(tr, cfg, step);
      !u.tape.failed ==>
        && !tr.tape.failed
        && PrintsOfChanges(Values(u.heard), k)
          == PrintsOfChanges(Values(tr.heard), k) + if step.Call? then CallPrints(k)(step.call) else []
  {
    if step.Call? && TapeRun.Carries(step.call) {
      var d := TapeRun.DepartureOf(step.call, step.delays);
      TapeRun.AllDepartOrDown(tr.tape, cfg, d, |d.changes|);
      ItemsPrint(tr.heard, cfg, d, k);
    }
  }

  lemma {:induction false} RunHears(tr: TapeRun.Trace, cfg: Config, steps: seq<TapeRun.Step>, k: ListingKey)
    requires TapeRun.AllLawful(tr, cfg, steps)
    ensures var u := TapeRun.Run(tr, cfg, steps);
      !u.tape.failed ==>
        && !tr.tape.failed
        && PrintsOfChanges(Values(u.heard), k)
          == PrintsOfChanges(Values(tr.heard), k) + PrintsOfCalls(TapeRun.Calls(steps), k)
    decreases |steps|
  {
    if steps != [] {
      var t, rest := TapeRun.Next(tr, cfg, steps[0]), TapeRun.Calls(steps[1..]);
      StepHears(tr, cfg, steps[0], k);
      RunHears(t, cfg, steps[1..], k);
      if steps[0].Call? {
        FlatMapConcat(CallPrints(k), [steps[0].call], rest);
        FlatMapOne(CallPrints(k), steps[0].call);
        Regroup(PrintsOfChanges(Values(tr.heard), k), CallPrints(k)(steps[0].call), PrintsOfCalls(rest, k));
      } else {
        assert [] + rest == rest;
      }
    }
  }

  lemma PrintsSplit(
      heard: seq<TapeRun.Timed>, applied: seq<TapeRun.Timed>, inFlight: seq<TapeRun.Timed>, k: ListingKey)
    requires multiset(heard) == multiset(applied) + multiset(inFlight)
    ensures multiset(PrintsOfChanges(Values(heard), k))
         == multiset(PrintsOfChanges(Values(applied), k)) + multiset(PrintsOfChanges(Values(inFlight), k))
  {
    ValuesPrint(heard, k);
    ValuesPrint(applied, k);
    ValuesPrint(inFlight, k);
    FlatMapPermuted(ItemPrints(k), heard, applied + inFlight);
    FlatMapConcat(ItemPrints(k), applied, inFlight);
  }

  function ItemPrints(k: ListingKey): TapeRun.Timed -> seq<Print> {
    (x: TapeRun.Timed) => ChangePrints(k)(x.value)
  }

  lemma {:induction false} ValuesPrint(items: seq<TapeRun.Timed>, k: ListingKey)
    ensures PrintsOfChanges(Values(items), k) == FlatMap(ItemPrints(k), items)
  {
    if items != [] {
      var front := items[..|items| - 1];
      ValuesPrint(front, k);
      assert Values(items)[..|front|] == Values(front);
    }
  }

  /**
    No trade is lost and none is printed twice, whatever the delays: while the
    tape is up, the trades its batches executed at a listing are those printed
    and those of changes still in flight.
   */
  lemma TradesArePrintedOnce(
      run: Origin.RunState, commands: seq<Origin.Step>, cfg: Config, steps: seq<TapeRun.Step>, k: ListingKey)
    requires k in run && Origin.AllLawful(Origin.Start(run), commands)
    requires TapeOrigin.Delayed(steps) && TapeRun.Calls(steps) == Origin.Steps(Origin.Start(run), commands).calls
    ensures TapeRun.AllLawful(TapeRun.START, cfg, steps)
    ensures var o, u := Origin.Steps(Origin.Start(run), commands), TapeRun.Run(TapeRun.START, cfg, steps);
      !u.tape.failed ==>
        multiset(LogTrades(o.log, k))
          == multiset(PrintsOf(u.tape.sent, k)) + multiset(PrintsOfChanges(Values(u.tape.inFlight), k))
  {
    HeardPrintTheLog(run, commands, cfg, steps, k);
    var u := TapeRun.Run(TapeRun.START, cfg, steps);
    if !u.tape.failed {
      TapeRun.HeardChangesAreAppliedOnce(TapeRun.START, cfg, steps);
      PrintsSplit(u.heard, u.applied, u.tape.inFlight, k);
      TapePrintsTheApplied(cfg, steps, k);
    }
  }

  lemma HeardPrintTheLog(
      run: Origin.RunState, commands: seq<Origin.Step>, cfg: Config, steps: seq<TapeRun.Step>, k: ListingKey)
    requires k in run && Origin.AllLawful(Origin.Start(run), commands)
    requires TapeOrigin.Delayed(steps) && TapeRun.Calls(steps) == Origin.Steps(Origin.Start(run), commands).calls
    ensures TapeRun.AllLawful(TapeRun.START, cfg, steps)
    ensures var o, u := Origin.Steps(Origin.Start(run), commands), TapeRun.Run(TapeRun.START, cfg, steps);
      !u.tape.failed ==> PrintsOfChanges(Values(u.heard), k) == LogTrades(o.log, k)
  {
    TapeOrigin.StepsRise(Origin.Start(run), commands);
    TapeOrigin.CallsAreLawful(TapeRun.START, cfg, steps);
    CallsPrintTheLog(Origin.Start(run), commands, k);
    RunHears(TapeRun.START, cfg, steps, k);
    assert Values(TapeRun.START.heard) == [];
    assert [] + PrintsOfCalls(TapeRun.Calls(steps), k) == PrintsOfCalls(TapeRun.Calls(steps), k);
  }

  lemma PrintsOfOne(cs: seq<VenueChange>, k: ListingKey)
    ensures PrintsOfChanges(cs, k) == PrintsOfChanges(Keep(cs, TapeRun.At(k)), k)
  {
    FlatMapKeep(ChangePrints(k), cs, TapeRun.At(k));
  }

  /** A quiet tape whose listing's changes arrived in order prints its trades in the order they executed. */
  lemma OnTimeTapePrintsInOrder(
      run: Origin.RunState, commands: seq<Origin.Step>, cfg: Config, steps: seq<TapeRun.Step>, k: ListingKey)
    requires k in run && Origin.AllLawful(Origin.Start(run), commands)
    requires TapeOrigin.Delayed(steps) && TapeRun.Calls(steps) == Origin.Steps(Origin.Start(run), commands).calls
    ensures TapeRun.AllLawful(TapeRun.START, cfg, steps)
    ensures var o, u := Origin.Steps(Origin.Start(run), commands), TapeRun.Run(TapeRun.START, cfg, steps);
      TapeOrigin.Quiet(u, k) && TapeRun.OnTime(u.heard, k) ==> PrintsOf(u.tape.sent, k) == LogTrades(o.log, k)
  {
    HeardPrintTheLog(run, commands, cfg, steps, k);
    var u := TapeRun.Run(TapeRun.START, cfg, steps);
    if TapeOrigin.Quiet(u, k) && TapeRun.OnTime(u.heard, k) {
      TapeRun.ListingsApplyInCommitOrder(TapeRun.START, cfg, steps, k);
      var applied, heard := Keep(Values(u.applied), TapeRun.At(k)), Keep(Values(u.heard), TapeRun.At(k));
      assert applied + [] == applied;
      PrintsOfOne(Values(u.applied), k);
      PrintsOfOne(Values(u.heard), k);
      TapePrintsTheApplied(cfg, steps, k);
    }
  }
}
