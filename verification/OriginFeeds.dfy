/**
  From commits to clients: the batches the publishing origin logs are the
  history a direct feed runs over.
 */
module OriginFeeds {
  import opened Words
  import opened Market
  import opened Book
  import opened Feed
  import opened Origin
  import FeedRun
  import opened TimedQueue

  // ----- Which commits a feed is told of -----------------------------------

  /** The command's reads let it tell this feed. */
  predicate Heard(s: State, cmd: Command, f: DirectFeed)
    requires cmd.outcome.Done?
  {
    !Hidden(s, cmd, f.listing) && (f.detail.ByOrder? ==> !OrdersBlind(s, cmd))
  }

  /** A command that logs a batch. */
  predicate Logs(step: Step) {
    step.Execute? && step.command.outcome.Done? && step.command.outcome.events != []
  }

  /** For each batch a run logs, whether it was heard. */
  function Flags(s: State, steps: seq<Step>, f: DirectFeed): seq<bool>
    decreases |steps|
  {
    if steps == [] then [] else FlagOf(s, steps[0], f) + Flags(Next(s, steps[0]), steps[1..], f)
  }

  function FlagOf(s: State, step: Step, f: DirectFeed): seq<bool> {
    if Logs(step) then [Heard(s, step.command, f)] else []
  }

  /** A batch that was not heard says nothing of the book: no gap, no level, no order. */
  lemma UnheardIsSilent(s: State, cmd: Command, f: DirectFeed)
    requires Agree(s.caches, s.run) && f.listing in s.run
    requires cmd.outcome.Done? && Commits(s.run, cmd.outcome.events, cmd.outcome.after) && !Heard(s, cmd, f)
    ensures var b := BatchOf(Primed(s.caches, s.run, cmd.faults), |s.log|, cmd);
      !FeedRun.IsGap(f, b) && FeedRun.NoBook(FeedRun.EntriesIn(f, b))
  {
    var primed := Primed(s.caches, s.run, cmd.faults);
    PrimedAgrees(s.caches, s.run, cmd.faults);
    if Projects(primed, cmd.faults.project) {
      BlindProjectionDropsOrders(s, cmd, f.listing);
      var u := UpdateFor(BatchOf(primed, |s.log|, cmd).public, f.listing);
      if u.Some? {
        OnlyTrades(f, u.value);
      }
    } else {
      FailureIsAGap(s, cmd, f.listing);
    }
  }

  lemma OnlyTrades(f: DirectFeed, u: ListingUpdate)
    requires f.detail.ByOrder? && u.orders == []
    ensures FeedRun.NoBook(Entries(f, u))
  {
    TradesTouchNothing(f, u.trades);
    assert OrderIncrements(f, u.orders) == [];
  }

  lemma HeardIsTold(s: State, cmd: Command, f: DirectFeed)
    requires Inv(s) && f.listing in s.run && cmd.outcome.Done? && Lawful(s, Execute(cmd)) && Heard(s, cmd, f)
    ensures var b := BatchOf(Primed(s.caches, s.run, cmd.faults), |s.log|, cmd);
      FeedRun.Told(f, b, s.run[f.listing], cmd.outcome.after[f.listing])
  {
    assert s.past[|s.log|] == s.run;
    if f.detail.ByLevel? {
      LevelFeedsAreTold(s, cmd, f);
    } else {
      OrderFeedsAreTold(s, cmd, f);
    }
  }

  // ----- The origin's log as a feed's history ------------------------------

  /** One feed's share of everything committed. */
  function HistoryOf(s: State, f: DirectFeed): FeedRun.History
    requires forall i | 0 <= i < |s.past| :: f.listing in s.past[i]
  {
    FeedRun.History(s.log,
                    seq(|s.past|, i requires 0 <= i < |s.past| => s.past[i][f.listing]),
                    seq(|s.log|, i requires 0 <= i < |s.log| => FeedRun.EntriesIn(f, s.log[i])))
  }

  /** What batch `i` says to the feed, by its flag. */
  ghost predicate SaysAt(f: DirectFeed, h: FeedRun.History, flags: seq<bool>, i: nat)
    requires FeedRun.Shaped(h) && |flags| == |h.log| && i < |h.log|
  {
    if flags[i] then FeedRun.Told(f, h.log[i], h.shown[i], h.shown[i + 1])
    else !FeedRun.IsGap(f, h.log[i]) && FeedRun.NoBook(h.entries[i])
  }

  ghost predicate Says(f: DirectFeed, h: FeedRun.History, flags: seq<bool>) {
    && FeedRun.Recorded(f, h) && |flags| == |h.log|
    && forall i | 0 <= i < |h.log| :: SaysAt(f, h, flags, i)
  }

  ghost predicate SaysTo(s: State, f: DirectFeed, flags: seq<bool>) {
    Inv(s) && f.listing in s.run && Says(f, HistoryOf(s, f), flags)
  }

  lemma HistoryGrows(s: State, t: State, f: DirectFeed, b: Committed, after: RunState)
    requires (forall i | 0 <= i < |s.past| :: f.listing in s.past[i]) && f.listing in after
    requires t.log == s.log + [b] && t.past == s.past + [after]
    ensures var g := HistoryOf(s, f);
      HistoryOf(t, f)
      == FeedRun.History(g.log + [b], g.shown + [after[f.listing]], g.entries + [FeedRun.EntriesIn(f, b)])
  {
  }

  lemma SaysMore(f: DirectFeed, g: FeedRun.History, flags: seq<bool>, b: Committed, after: Shown, flag: bool)
    requires Says(f, g, flags) && b.ordinal == |g.log| && Distinct(after.orders)
    requires flag ==> FeedRun.Told(f, b, g.shown[|g.log|], after)
    requires !flag ==> !FeedRun.IsGap(f, b) && FeedRun.NoBook(FeedRun.EntriesIn(f, b))
    ensures var h := FeedRun.History(g.log + [b], g.shown + [after], g.entries + [FeedRun.EntriesIn(f, b)]);
      Says(f, h, flags + [flag])
  {
    var h := FeedRun.History(g.log + [b], g.shown + [after], g.entries + [FeedRun.EntriesIn(f, b)]);
    forall i | 0 <= i < |h.log| ensures FeedRun.StandsAt(f, h, i) && SaysAt(f, h, flags + [flag], i) {
      if i < |g.log| {
        assert FeedRun.StandsAt(f, g, i) && SaysAt(f, g, flags, i);
      }
    }
  }

  lemma CommitSays(s: State, cmd: Command, f: DirectFeed, flags: seq<bool>)
    requires SaysTo(s, f, flags) && Logs(Execute(cmd)) && Lawful(s, Execute(cmd))
    ensures var t := Executed(s, cmd); SaysTo(t, f, flags + [Heard(s, cmd, f)])
  {
    NextInv(s, Execute(cmd));
    var b := BatchOf(Primed(s.caches, s.run, cmd.faults), |s.log|, cmd);
    if Heard(s, cmd, f) {
      HeardIsTold(s, cmd, f);
    } else {
      UnheardIsSilent(s, cmd, f);
    }
    HistoryGrows(s, Executed(s, cmd), f, b, cmd.outcome.after);
    SaysMore(f, HistoryOf(s, f), flags, b, cmd.outcome.after[f.listing], Heard(s, cmd, f));
  }

  lemma QuietStepSays(s: State, step: Step, f: DirectFeed, flags: seq<bool>)
    requires SaysTo(s, f, flags) && !Logs(step) && Lawful(s, step)
    ensures var t := Next(s, step); SaysTo(t, f, flags)
  {
    NextInv(s, step);
    assert HistoryOf(Next(s, step), f) == HistoryOf(s, f);
  }

  lemma NextSays(s: State, step: Step, f: DirectFeed, flags: seq<bool>)
    requires SaysTo(s, f, flags) && Lawful(s, step)
    ensures var t, more := Next(s, step), flags + FlagOf(s, step, f); SaysTo(t, f, more)
  {
    if Logs(step) {
      CommitSays(s, step.command, f, flags);
    } else {
      QuietStepSays(s, step, f, flags);
      assert flags + [] == flags;
    }
  }

  /** Every run's log says to the feed exactly what its flags say. */
  lemma {:induction false} RunSays(s: State, steps: seq<Step>, f: DirectFeed, flags: seq<bool>) returns (all: seq<bool>)
    requires SaysTo(s, f, flags) && AllLawful(s, steps)
    ensures all == flags + Flags(s, steps, f) && SaysTo(Steps(s, steps), f, all)
    decreases |steps|
  {
    if steps == [] {
      all := flags;
    } else {
      var flag, t := FlagOf(s, steps[0], f), Next(s, steps[0]);
      NextSays(s, steps[0], f, flags);
      all := RunSays(t, steps[1..], f, flags + flag);
      Regroup(flags, flag, Flags(t, steps[1..], f));
    }
  }

  // ----- What reaches the client -------------------------------------------

  /**
    Of the batches `from..to` those from `told` on were heard, and those before
    were not: commits made before the feed was there to be told.
   */
  predicate HeardFrom(flags: seq<bool>, from: nat, told: nat, to: nat) {
    forall i | from <= i < to && i < |flags| :: flags[i] <==> told <= i
  }

  lemma HeardIsTrue(f: DirectFeed, l: FeedRun.Place, flags: seq<bool>, to: nat)
    requires Says(f, l.h, flags) && to <= |l.h.log| && HeardFrom(flags, l.joined, l.told, to)
    ensures FeedRun.TrueTo(f, l, to)
  {
    forall i | l.joined <= i < to ensures FeedRun.TrueAt(f, l.h, l.told, i) {
      assert SaysAt(f, l.h, flags, i);
    }
  }

  ghost predicate FitsRun(o: State, f: DirectFeed) {
    (forall i | 0 <= i < |o.past| :: f.listing in o.past[i]) && FeedRun.Fits(f, HistoryOf(o, f))
  }

  /** What a client has received leaves the committed book of its batch. */
  ghost predicate HoldsCommitted(o: State, f: DirectFeed, flags: seq<bool>, told: nat, s: FeedRun.System)
    requires SaysTo(o, f, flags)
  {
    && s.snapshot.Some? && s.joined <= s.snapshot.value <= |o.log| && s.drained <= |o.log|
    && (forall r :: r in s.client.received && r.contiguous && s.snapshot.value <= r.batch + 1 ==>
          r.batch < |o.log| && (HeardFrom(flags, s.joined, told, r.batch + 1) ==>
            Shows(f, r.view, o.past[r.batch + 1][f.listing])))
    && (FeedRun.Gaps(f, HistoryOf(o, f), s.joined, s.drained) == 0 && s.snapshot.value <= s.drained
        && HeardFrom(flags, s.joined, told, s.drained) ==>
          Shows(f, s.client.view, o.past[s.drained][f.listing]))
  }

  /** The claim about one session whose feed was registered with `drained` batches drained. */
  ghost predicate Reaches(
    o: State, f: DirectFeed, flags: seq<bool>, published: nat, drained: nat, told: nat, session: seq<FeedRun.Step>)
    requires SaysTo(o, f, flags)
  {
    var s := FeedRun.Run(HistoryOf(o, f), FeedRun.Start(f, published, drained), session);
    s.feed.pending.None? ==> drained <= s.joined && HoldsCommitted(o, f, flags, told, s)
  }

  /**
    From commits to clients: whatever the origin commits and however its reads
    fail, wherever in the run the feed is registered, and however the session
    interleaves its snapshot and drains, a client whose reports are contiguous
    holds the committed book of its listing after every batch up to which the
    feed was told. Only the batches the feed processed count, and commits before
    the registration may have gone untold.
   */
  lemma CommittedBookReachesTheClient(
    run: RunState, steps: seq<Step>, f: DirectFeed, published: nat, drained: nat, told: nat, session: seq<FeedRun.Step>)
    requires ValidRun(run) && f.listing in run && AllLawful(Start(run), steps)
    requires FitsRun(Steps(Start(run), steps), f)
    requires drained <= published <= |Steps(Start(run), steps).log| && told <= published
    ensures SaysTo(Steps(Start(run), steps), f, Flags(Start(run), steps, f))
    ensures Reaches(Steps(Start(run), steps), f, Flags(Start(run), steps, f), published, drained, told, session)
  {
    StartSays(run, f);
    var flags := RunSays(Start(run), steps, f, []);
    assert flags == Flags(Start(run), steps, f);
    ClientOfHistory(Steps(Start(run), steps), f, flags, published, drained, told, session);
  }

  lemma StartSays(run: RunState, f: DirectFeed)
    requires ValidRun(run) && f.listing in run
    ensures SaysTo(Start(run), f, [])
  {
  }

  /** The direct-feed theorem, told in the committed run's own terms. */
  lemma ClientOfHistory(
    o: State, f: DirectFeed, flags: seq<bool>, published: nat, drained: nat, told: nat, session: seq<FeedRun.Step>)
    requires SaysTo(o, f, flags) && FeedRun.Fits(f, HistoryOf(o, f))
    requires drained <= published <= |o.log| && told <= published
    ensures Reaches(o, f, flags, published, drained, told, session)
  {
    var h := HistoryOf(o, f);
    FeedRun.ContiguousClientHoldsTheBook(f, h, published, drained, told, session);
    var s := FeedRun.Run(h, FeedRun.Start(f, published, drained), session);
    if s.feed.pending.None? {
      var l := FeedRun.Place(h, s.snapshot.value, s.joined, told);
      forall r | r in s.client.received && r.contiguous && s.snapshot.value <= r.batch + 1
        ensures r.batch < |o.log| && (HeardFrom(flags, s.joined, told, r.batch + 1) ==>
          Shows(f, r.view, o.past[r.batch + 1][f.listing]))
      {
        ReceiptShows(o, f, flags, l, s.client.received, r);
      }
      if HeardFrom(flags, s.joined, told, s.drained) {
        HeardIsTrue(f, l, flags, s.drained);
      }
      assert h.shown[s.drained] == o.past[s.drained][f.listing];
    }
  }

  lemma ReceiptIsGood(f: DirectFeed, l: FeedRun.Place, rs: seq<FeedRun.Receipt>, r: FeedRun.Receipt)
    requires FeedRun.Shaped(l.h) && FeedRun.AllGood(f, l, rs) && r in rs
    ensures FeedRun.Good(f, l, r)
  {
    var i :| 0 <= i < |rs| && rs[i] == r;
    assert FeedRun.GoodAt(f, l, rs, i);
  }

  lemma ReceiptShows(
    o: State, f: DirectFeed, flags: seq<bool>, l: FeedRun.Place, rs: seq<FeedRun.Receipt>, r: FeedRun.Receipt)
    requires SaysTo(o, f, flags) && l.h == HistoryOf(o, f) && FeedRun.AllGood(f, l, rs)
    requires r in rs && r.contiguous && l.before <= r.batch + 1
    ensures r.batch < |o.log|
    ensures HeardFrom(flags, l.joined, l.told, r.batch + 1) ==> Shows(f, r.view, o.past[r.batch + 1][f.listing])
  {
    ReceiptIsGood(f, l, rs, r);
    if HeardFrom(flags, l.joined, l.told, r.batch + 1) {
      HeardIsTrue(f, l, flags, r.batch + 1);
      assert Shows(f, r.view, l.h.shown[r.batch + 1]);
    }
  }

  // ----- An order feed enabled on request ----------------------------------

  const ALL_READS := Faults(true, true, true, true, true, true, true)

  predicate ReadsWell(step: Step) {
    step.Execute? ==> step.command.faults == ALL_READS
  }

  predicate AllReadWell(steps: seq<Step>) {
    forall i | 0 <= i < |steps| :: ReadsWell(steps[i])
  }

  predicate AllFlags(flags: seq<bool>, flag: bool) {
    forall i | 0 <= i < |flags| :: flags[i] == flag
  }

  lemma {:induction false} StepsConcat(s: State, a: seq<Step>, b: seq<Step>, f: DirectFeed)
    ensures Steps(s, a + b) == Steps(Steps(s, a), b)
    ensures Flags(s, a + b, f) == Flags(s, a, f) + Flags(Steps(s, a), b, f)
    decreases |a|
  {
    if a == [] {
      assert a + b == b;
    } else {
      assert (a + b)[0] == a[0] && (a + b)[1..] == a[1..] + b;
      StepsConcat(Next(s, a[0]), a[1..], b, f);
    }
  }

  /** Until order feeds are enabled, no commit is told to one, and none is a gap. */
  lemma {:induction false} UntoldUntilEnabled(s: State, steps: seq<Step>, f: DirectFeed)
    requires f.detail.ByOrder? && AllReadWell(steps) && EnableOrderFeeds !in steps
    requires !s.caches.ordersEnabled && s.caches.orders.None?
    ensures var t := Steps(s, steps);
      && AllFlags(Flags(s, steps, f), false) && |t.log| == |s.log| + |Flags(s, steps, f)|
      && !t.caches.ordersEnabled && t.caches.orders.None?
    decreases |steps|
  {
    if steps != [] {
      assert ReadsWell(steps[0]) && steps[0] in steps;
      assert forall i | 0 <= i < |steps[1..]| :: steps[1..][i] == steps[i + 1];
      UntoldUntilEnabled(Next(s, steps[0]), steps[1..], f);
    }
  }

  /** Once they are, every commit whose reads succeed is told. */
  lemma {:induction false} ToldOnceEnabled(s: State, steps: seq<Step>, f: DirectFeed)
    requires AllReadWell(steps) && s.caches.ordersEnabled
    ensures AllFlags(Flags(s, steps, f), true)
    decreases |steps|
  {
    if steps != [] {
      assert ReadsWell(steps[0]);
      assert forall i | 0 <= i < |steps[1..]| :: steps[1..][i] == steps[i + 1];
      ToldOnceEnabled(Next(s, steps[0]), steps[1..], f);
    }
  }

  /**
    The usual case: order feeds are enabled by a request, after any number of
    commits. With good reads the feed is told exactly from that point on, so the
    theorem above holds of it with `told` the batches logged by then.
   */
  lemma OrderFeedIsToldFromItsRequestOn(run: RunState, early: seq<Step>, late: seq<Step>, f: DirectFeed)
    requires f.detail.ByOrder? && AllReadWell(early) && AllReadWell(late) && EnableOrderFeeds !in early
    ensures var flags := Flags(Start(run), early + ([EnableOrderFeeds] + late), f);
      HeardFrom(flags, 0, |Steps(Start(run), early).log|, |flags|)
  {
    var s := Steps(Start(run), early);
    var enabled := Next(s, EnableOrderFeeds);
    UntoldUntilEnabled(Start(run), early, f);
    StepsConcat(Start(run), early, [EnableOrderFeeds] + late, f);
    assert ([EnableOrderFeeds] + late)[1..] == late;
    assert Flags(s, [EnableOrderFeeds] + late, f) == Flags(enabled, late, f);
    ToldOnceEnabled(enabled, late, f);
  }
}
