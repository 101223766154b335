/**
  The tape behind the publishing origin: with nothing in flight, the processor
  quotes the committed best bid and offer of every listing.
 */
module TapeOrigin {
  import opened Words
  import opened Market
  import opened Book
  import opened Feed
  import opened Tape
  import TimedQueue
  import Origin
  import TapeRun
  import opened TapeQuotes

  function After(calls: seq<TapeCall>, k: ListingKey): Option<Quotes> {
    AfterCalls(None, calls, k)
  }

  lemma {:induction false} AfterMore(e: Option<Quotes>, a: seq<TapeCall>, b: seq<TapeCall>, k: ListingKey)
    ensures AfterCalls(e, a + b, k) == AfterCalls(AfterCalls(e, a, k), b, k)
    decreases |a|
  {
    if a == [] {
      assert a + b == b;
    } else {
      assert (a + b)[0] == a[0] && (a + b)[1..] == a[1..] + b;
      AfterMore(AfterCall(e, a[0], k), a[1..], b, k);
    }
  }

  lemma AfterOne(e: Option<Quotes>, call: TapeCall, k: ListingKey)
    ensures AfterCalls(e, [call], k) == AfterCall(e, call, k)
  {
    assert [call][1..] == [];
  }

  // ----- What the calls of one command say ---------------------------------

  lemma SameLevels(a: map<int, nat>, b: map<int, nat>)
    requires forall price :: Book.At(a, price) == Book.At(b, price)
    requires (forall price | price in a :: a[price] > 0) && (forall price | price in b :: b[price] > 0)
    ensures a == b
  {
    forall price ensures (price in a <==> price in b) && (price in a && price in b ==> a[price] == b[price]) {
      assert Book.At(a, price) == Book.At(b, price);
    }
  }

  lemma SameDepth(a: Depth, b: Depth)
    requires ValidDepth(a) && ValidDepth(b) && DiffLevels(a, b) == []
    ensures a == b
  {
    DiffLevelsIsExact(a, b);
    forall side: Side ensures Levels(a, side) == Levels(b, side) {
      forall price ensures Book.At(Levels(a, side), price) == Book.At(Levels(b, side), price) {
        assert LevelChange(side, price, Visible(a, side, price), Visible(b, side, price)) !in DiffLevels(a, b);
      }
      SameLevels(Levels(a, side), Levels(b, side));
    }
    assert Levels(a, Buy) == Levels(b, Buy) && Levels(a, Sell) == Levels(b, Sell);
  }

  predicate Heard(c: Origin.Caches, run: Origin.RunState, events: seq<Event>, k: ListingKey)
    requires c.books.Some?
  {
    k in run && !Origin.SaysNothing(Origin.UpdateAt(c, run, events, k))
  }

  lemma LastOfUpdate(us: seq<ListingUpdate>, u: ListingUpdate, k: ListingKey, e: Option<Quotes>)
    ensures LastQuotes(ChangesOf(us + [u]), k, e)
         == if u.listing == k then Some(Quotes(u.bestBid, u.bestAsk)) else LastQuotes(ChangesOf(us), k, e)
  {
    assert ChangesOf(us + [u]) == ChangesOf(us) + [VenueChangeOf(u)];
    LastOfMore(ChangesOf(us), VenueChangeOf(u), k, e);
  }

  lemma UpdateQuotes(c: Origin.Caches, run: Origin.RunState, events: seq<Event>, k: ListingKey)
    requires c.books.Some? && k in run
    ensures var u := Origin.UpdateAt(c, run, events, k);
      u.listing == k && Quotes(u.bestBid, u.bestAsk) == Origin.Best(run[k].depth)
  {
  }

  lemma HeardQuote(
    c: Origin.Caches, run: Origin.RunState, events: seq<Event>, us: seq<ListingUpdate>, last: ListingKey, k: ListingKey,
    e: Option<Quotes>)
    requires c.books.Some?
    ensures LastQuotes(ChangesOf(us + Origin.UpdateIn(c, run, events, last)), k, e)
         == if k == last && Heard(c, run, events, k) then Some(Origin.Best(run[k].depth))
           else LastQuotes(ChangesOf(us), k, e)
  {
    if Heard(c, run, events, last) {
      UpdateQuotes(c, run, events, last);
      LastOfUpdate(us, Origin.UpdateAt(c, run, events, last), k, e);
    } else {
      assert us + [] == us;
    }
  }

  /** The published updates give a listing its new quotes, or leave it alone. */
  lemma {:induction false} HeardQuotes(c: Origin.Caches, run: Origin.RunState, events: seq<Event>,
      keys: seq<ListingKey>, k: ListingKey, e: Option<Quotes>)
    requires c.books.Some?
    ensures LastQuotes(ChangesOf(Origin.Updates(c, run, events, keys)), k, e)
         == if k in keys && Heard(c, run, events, k) then Some(Origin.Best(run[k].depth)) else e
  {
    if keys != [] {
      var front, last := keys[..|keys| - 1], keys[|keys| - 1];
      HeardQuotes(c, run, events, front, k, e);
      HeardQuote(c, run, events, Origin.Updates(c, run, events, front), last, k, e);
      assert keys == front + [last];
    }
  }

  lemma {:induction false} RebuiltQuotes(run: Origin.RunState, keys: seq<ListingKey>, k: ListingKey, e: Option<Quotes>)
    ensures LastQuotes(GapsOf(Origin.Rebuilt(run, keys)), k, e) == if k in keys then Some(Origin.QuoteOf(run, k)) else e
  {
    if keys != [] {
      var front, last := keys[..|keys| - 1], keys[|keys| - 1];
      RebuiltQuotes(run, front, k, e);
      assert keys == front + [last];
      var c := VenueChange(last, [], Origin.QuoteOf(run, last), true);
      assert GapsOf(Origin.Rebuilt(run, keys)) == GapsOf(Origin.Rebuilt(run, front)) + [c];
      LastOfMore(GapsOf(Origin.Rebuilt(run, front)), c, k, e);
    }
  }

  /** The calls so far settle on the committed quotes of `k`, once the depth cache was primed. */
  ghost predicate Settles(e: Option<Quotes>, c: Origin.Caches, run: Origin.RunState, k: ListingKey)
    requires k in run
  {
    (e.Some? ==> e.value == Origin.Best(run[k].depth)) && (c.books.Some? ==> e.Some?)
  }

  lemma PrimeSettles(e: Option<Quotes>, c: Origin.Caches, run: Origin.RunState, faults: Origin.Faults, k: ListingKey)
    requires k in run && Settles(e, c, run, k)
    ensures var calls := Origin.PrimeCalls(c, run, faults.primeBooks);
      Settles(AfterCalls(e, calls, k), Origin.Primed(c, run, faults), run, k)
  {
    if c.books.None? && faults.primeBooks {
      AfterOne(e, Prime(Origin.Bests(run)), k);
    }
  }

  lemma ProjectionSettles(e: Option<Quotes>, primed: Origin.Caches, before: Origin.RunState, ordinal: nat,
      cmd: Origin.Command, k: ListingKey)
    requires cmd.outcome.Done? && k in before && Origin.Agree(primed, before) && Origin.ValidRun(before)
    requires Origin.Commits(before, cmd.outcome.events, cmd.outcome.after) && Settles(e, primed, before, k)
    requires Origin.Projects(primed, cmd.faults.project)
    ensures AfterCalls(e, Origin.CallsOf(primed, ordinal, cmd), k) == Some(Origin.Best(cmd.outcome.after[k].depth))
  {
    var Done(events, after) := cmd.outcome;
    ProjectionCalls(e, primed, ordinal, cmd, k);
    HeardQuotes(primed, after, events, Origin.InOrder(Origin.Touched(events, primed.books.value.Keys)), k, e);
    UnheardIsUnchanged(primed, before, events, after, k);
  }

  lemma ProjectionCalls(e: Option<Quotes>, primed: Origin.Caches, ordinal: nat, cmd: Origin.Command, k: ListingKey)
    requires cmd.outcome.Done? && Origin.Projects(primed, cmd.faults.project)
    ensures AfterCalls(e, Origin.CallsOf(primed, ordinal, cmd), k)
         == LastQuotes(ChangesOf(Origin.Published(primed, cmd.outcome.after, cmd.outcome.events)), k, e)
  {
    var call := Hear(ordinal, cmd.durableUs, Origin.Published(primed, cmd.outcome.after, cmd.outcome.events));
    assert Origin.CallsOf(primed, ordinal, cmd) == [call];
    AfterOne(e, call, k);
  }

  /** A listing whose update says nothing, or that was not touched, still shows the same depth. */
  lemma UnheardIsUnchanged(c: Origin.Caches, before: Origin.RunState, events: seq<Event>, after: Origin.RunState,
      k: ListingKey)
    requires k in before && Origin.Agree(c, before) && c.books.Some? && Origin.ValidRun(before)
        && Origin.Commits(before, events, after)
    ensures k !in Origin.Touched(events, c.books.value.Keys) || !Heard(c, after, events, k)
        ==> before[k].depth == after[k].depth
  {
    if k in Origin.Touched(events, c.books.value.Keys) && !Heard(c, after, events, k) {
      assert c.books.value[k] == before[k].depth;
      SameDepth(before[k].depth, after[k].depth);
    }
  }

  lemma RecoverySettles(e: Option<Quotes>, s: Origin.State, cmd: Origin.Command, k: ListingKey)
    requires cmd.outcome.Done? && k in s.run && Origin.Agree(s.caches, s.run)
    requires Origin.Commits(s.run, cmd.outcome.events, cmd.outcome.after)
    requires !Origin.Projects(Origin.Primed(s.caches, s.run, cmd.faults), cmd.faults.project)
        && !Origin.Hidden(s, cmd, k)
    ensures var calls := Origin.CallsOf(Origin.Primed(s.caches, s.run, cmd.faults), |s.log|, cmd);
      TakeDown in calls || AfterCalls(e, calls, k) == Some(Origin.Best(cmd.outcome.after[k].depth))
  {
    var primed := Origin.Primed(s.caches, s.run, cmd.faults);
    var after := cmd.outcome.after;
    Origin.FailureIsAGap(s, cmd, k);
    var b := Origin.BatchOf(primed, |s.log|, cmd);
    var primes := Origin.PrimeCalls(primed.(books := None), after, cmd.faults.reprimeBooks);
    if cmd.faults.rebuild {
      var gap := HearGap(|s.log|, cmd.durableUs, Origin.Rebuilt(after, b.publicGaps));
      assert Origin.CallsOf(primed, |s.log|, cmd) == primes + [gap];
      AfterMore(e, primes, [gap], k);
      var f := AfterCalls(e, primes, k);
      AfterOne(f, gap, k);
      RebuiltQuotes(after, b.publicGaps, k, f);
    } else {
      assert (primes + [TakeDown])[|primes|] == TakeDown;
    }
  }

  // ----- Over every run of commands ----------------------------------------

  ghost predicate Named(s: Origin.State, step: Origin.Step, k: ListingKey) {
    step.Execute? && step.command.outcome.Done? ==> !Origin.Hidden(s, step.command, k)
  }

  ghost predicate AllNamed(s: Origin.State, steps: seq<Origin.Step>, k: ListingKey)
    decreases |steps|
  {
    steps != [] ==> Named(s, steps[0], k) && AllNamed(Origin.Next(s, steps[0]), steps[1..], k)
  }

  ghost predicate Quoted(s: Origin.State, k: ListingKey) {
    && Origin.Inv(s) && k in s.run
    && (TakeDown in s.calls || Settles(After(s.calls, k), s.caches, s.run, k))
  }

  lemma ExecuteQuoted(s: Origin.State, cmd: Origin.Command, k: ListingKey)
    requires Quoted(s, k) && Origin.Lawful(s, Origin.Execute(cmd)) && Named(s, Origin.Execute(cmd), k)
    requires cmd.outcome.Done?
    ensures var t := Origin.Executed(s, cmd); TakeDown in t.calls || Settles(After(t.calls, k), t.caches, t.run, k)
  {
    var primes := Origin.PrimeCalls(s.caches, s.run, cmd.faults.primeBooks);
    var primed := Origin.Primed(s.caches, s.run, cmd.faults);
    var more := Origin.CallsOf(primed, |s.log|, cmd);
    var t := Origin.Executed(s, cmd);
    assert t.calls == (s.calls + primes) + more;
    if TakeDown !in t.calls {
      AfterMore(None, s.calls, primes, k);
      AfterMore(None, s.calls + primes, more, k);
      PrimeSettles(After(s.calls, k), s.caches, s.run, cmd.faults, k);
      Origin.PrimedAgrees(s.caches, s.run, cmd.faults);
      assert s.past[|s.log|] == s.run;
      if Origin.Projects(primed, cmd.faults.project) {
        ProjectionSettles(After(s.calls + primes, k), primed, s.run, |s.log|, cmd, k);
      } else {
        RecoverySettles(After(s.calls + primes, k), s, cmd, k);
      }
    }
  }

  lemma NextQuoted(s: Origin.State, step: Origin.Step, k: ListingKey)
    requires Quoted(s, k) && Origin.Lawful(s, step) && Named(s, step, k)
    ensures Quoted(Origin.Next(s, step), k)
  {
    Origin.NextInv(s, step);
    if step.Execute? {
      var cmd := step.command;
      if cmd.outcome.Done? {
        ExecuteQuoted(s, cmd, k);
      } else {
        AfterMore(None, s.calls, Origin.PrimeCalls(s.caches, s.run, cmd.faults.primeBooks), k);
        if TakeDown !in s.calls {
          PrimeSettles(After(s.calls, k), s.caches, s.run, cmd.faults, k);
        }
      }
    }
  }

  lemma {:induction false} StepsQuoted(s: Origin.State, steps: seq<Origin.Step>, k: ListingKey)
    requires Quoted(s, k) && Origin.AllLawful(s, steps) && AllNamed(s, steps, k)
    ensures Quoted(Origin.Steps(s, steps), k)
    decreases |steps|
  {
    if steps != [] {
      NextQuoted(s, steps[0], k);
      StepsQuoted(Origin.Next(s, steps[0]), steps[1..], k);
    }
  }

  // ----- The committer's calls drive the tape ------------------------------

  /** The lowest ordinal the next call may carry. */
  function FloorAfter(calls: seq<TapeCall>, floor: nat): nat
    decreases |calls|
  {
    if calls == [] then floor else FloorAfter(calls[1..], FloorOne(calls[0], floor))
  }

  function FloorOne(call: TapeCall, floor: nat): nat {
    if TapeRun.Carries(call) && TapeRun.ChangesIn(call) != [] then call.ordinal + 1 else floor
  }

  predicate Allowed(call: TapeCall, floor: nat) {
    TapeRun.Carries(call) && TapeRun.ChangesIn(call) != [] ==> floor <= call.ordinal
  }

  /** Ordinals rise from call to call. */
  predicate CallsRise(calls: seq<TapeCall>, floor: nat)
    decreases |calls|
  {
    calls == [] || (Allowed(calls[0], floor) && CallsRise(calls[1..], FloorOne(calls[0], floor)))
  }

  lemma {:induction false} RiseMore(a: seq<TapeCall>, b: seq<TapeCall>, floor: nat)
    requires CallsRise(a, floor) && CallsRise(b, FloorAfter(a, floor))
    ensures CallsRise(a + b, floor) && FloorAfter(a + b, floor) == FloorAfter(b, FloorAfter(a, floor))
    decreases |a|
  {
    if a == [] {
      assert a + b == b;
    } else {
      assert (a + b)[0] == a[0] && (a + b)[1..] == a[1..] + b;
      RiseMore(a[1..], b, FloorOne(a[0], floor));
    }
  }

  lemma RiseOne(call: TapeCall, floor: nat)
    requires Allowed(call, floor)
    ensures CallsRise([call], floor) && FloorAfter([call], floor) == FloorOne(call, floor)
  {
    assert [call][1..] == [];
  }

  lemma PrimesRise(c: Origin.Caches, run: Origin.RunState, ok: bool, floor: nat)
    ensures var p := Origin.PrimeCalls(c, run, ok); CallsRise(p, floor) && FloorAfter(p, floor) == floor
  {
    RiseOne(Prime(Origin.Bests(run)), floor);
  }

  lemma CommitRises(primed: Origin.Caches, ordinal: nat, cmd: Origin.Command, floor: nat)
    requires cmd.outcome.Done? && floor <= ordinal
    ensures var calls := Origin.CallsOf(primed, ordinal, cmd);
        CallsRise(calls, floor) && FloorAfter(calls, floor) <= ordinal + 1
  {
    var b := Origin.BatchOf(primed, ordinal, cmd);
    var hear := Hear(ordinal, cmd.durableUs, b.public);
    if Origin.Projects(primed, cmd.faults.project) {
      assert Origin.CallsOf(primed, ordinal, cmd) == [hear];
      RiseOne(hear, floor);
    } else {
      var primes := Origin.PrimeCalls(primed.(books := None), cmd.outcome.after, cmd.faults.reprimeBooks);
      var gap := if cmd.faults.rebuild
        then HearGap(ordinal, cmd.durableUs, Origin.Rebuilt(cmd.outcome.after, b.publicGaps)) else TakeDown;
      PrimesRise(primed.(books := None), cmd.outcome.after, cmd.faults.reprimeBooks, floor);
      RiseOne(gap, floor);
      RiseMore(primes, [gap], floor);
      if b.publicGaps == [] {
        assert TapeRun.ChangesIn(hear) == [];
        RiseOne(hear, FloorAfter(primes + [gap], floor));
        RiseMore(primes + [gap], [hear], floor);
        assert Origin.CallsOf(primed, ordinal, cmd) == (primes + [gap]) + [hear];
      } else {
        assert Origin.CallsOf(primed, ordinal, cmd) == primes + [gap];
      }
    }
  }

  lemma NextRises(s: Origin.State, step: Origin.Step)
    requires Origin.Lawful(s, step)
    requires CallsRise(s.calls, 0) && FloorAfter(s.calls, 0) <= |s.log|
    ensures var t := Origin.Next(s, step); CallsRise(t.calls, 0) && FloorAfter(t.calls, 0) <= |t.log|
  {
    if step.Execute? {
      var cmd := step.command;
      var primes := Origin.PrimeCalls(s.caches, s.run, cmd.faults.primeBooks);
      PrimesRise(s.caches, s.run, cmd.faults.primeBooks, FloorAfter(s.calls, 0));
      RiseMore(s.calls, primes, 0);
      if cmd.outcome.Done? {
        var primed := Origin.Primed(s.caches, s.run, cmd.faults);
        CommitRises(primed, |s.log|, cmd, FloorAfter(s.calls + primes, 0));
        RiseMore(s.calls + primes, Origin.CallsOf(primed, |s.log|, cmd), 0);
      }
    }
  }

  lemma {:induction false} StepsRise(s: Origin.State, steps: seq<Origin.Step>)
    requires Origin.AllLawful(s, steps)
    requires CallsRise(s.calls, 0) && FloorAfter(s.calls, 0) <= |s.log|
    ensures CallsRise(Origin.Steps(s, steps).calls, 0)
    decreases |steps|
  {
    if steps != [] {
      NextRises(s, steps[0]);
      StepsRise(Origin.Next(s, steps[0]), steps[1..]);
    }
  }

  /** Every call has one delay per change it carries. */
  predicate Delayed(steps: seq<TapeRun.Step>) {
    forall i | 0 <= i < |steps| ::
      steps[i].Call? && TapeRun.Carries(steps[i].call) ==> |steps[i].delays| == |TapeRun.ChangesIn(steps[i].call)|
  }

  lemma {:induction false} CallsAreLawful(tr: TapeRun.Trace, cfg: Config, steps: seq<TapeRun.Step>)
    requires Delayed(steps) && CallsRise(TapeRun.Calls(steps), tr.floor)
    ensures TapeRun.AllLawful(tr, cfg, steps)
    decreases |steps|
  {
    if steps != [] {
      var calls := TapeRun.Calls(steps);
      if steps[0].Call? {
        assert calls[0] == steps[0].call && calls[1..] == TapeRun.Calls(steps[1..]);
      } else {
        assert calls == TapeRun.Calls(steps[1..]);
      }
      var u := TapeRun.Next(tr, cfg, steps[0]);
      assert u.floor == if steps[0].Call? then FloorOne(steps[0].call, tr.floor) else tr.floor;
      CallsAreLawful(u, cfg, steps[1..]);
    }
  }

  /** The tape is up and nothing of the listing is in flight. */
  predicate Quiet(u: TapeRun.Trace, k: ListingKey) {
    !u.tape.failed && TimedQueue.Select(u.tape.inFlight, TapeRun.At(k)) == []
  }

  function Held(p: Processor, k: ListingKey): Option<Quotes> {
    if k in p.quotes then Some(p.quotes[k]) else None
  }

  /** A quiet tape holds what the calls settle on exactly when the last change to depart was in time. */
  lemma QuietTapeHoldsTheCalls(cfg: Config, steps: seq<TapeRun.Step>, k: ListingKey)
    requires Delayed(steps) && CallsRise(TapeRun.Calls(steps), 0)
    ensures TapeRun.AllLawful(TapeRun.START, cfg, steps)
    ensures var u := TapeRun.Run(TapeRun.START, cfg, steps);
      Quiet(u, k) ==>
        && TakeDown !in TapeRun.Calls(steps)
        && (Held(u.tape.processor, k) == After(TapeRun.Calls(steps), k)
          <==> Settled(TapeRun.START, cfg, steps, k, true))
  {
    CallsAreLawful(TapeRun.START, cfg, steps);
    ProcessorSettlesIff(TapeRun.START, cfg, steps, k, None, true);
  }

  /**
    Over every run the committer's calls name listings in commit order and
    settle on the best bid and offer of the committed book, once it was read.
   */
  lemma CallsSettle(run: Origin.RunState, commands: seq<Origin.Step>, k: ListingKey)
    requires Origin.ValidRun(run) && k in run
    requires Origin.AllLawful(Origin.Start(run), commands) && AllNamed(Origin.Start(run), commands, k)
    ensures var o := Origin.Steps(Origin.Start(run), commands);
      && k in o.run && CallsRise(o.calls, 0)
      && (TakeDown !in o.calls ==>
            var e := After(o.calls, k);
            (e.Some? ==> QuotesTop(e.value, o.run[k].depth)) && (o.caches.books.Some? ==> e.Some?))
  {
    StepsRise(Origin.Start(run), commands);
    StepsQuoted(Origin.Start(run), commands, k);
    var o := Origin.Steps(Origin.Start(run), commands);
    Origin.BestIsTop(o.run, k);
  }

  /** What the processor holds of a listing is the best bid and offer of a book. */
  ghost predicate HoldsTop(p: Processor, k: ListingKey, d: Depth) {
    Held(p, k).Some? && QuotesTop(Held(p, k).value, d)
  }

  lemma HoldsTopIff(p: Processor, k: ListingKey, d: Depth, q: Quotes)
    requires QuotesTop(q, d)
    ensures HoldsTop(p, k, d) <==> Held(p, k) == Some(q)
  {
    if HoldsTop(p, k, d) {
      QuotesTopIsUnique(d, Held(p, k).value, q);
    }
  }

  /**
    A quiet tape quotes the committed market: whatever the origin committed and
    however its reads failed, short of hiding the listing, and however releases
    interleave with its calls, a tape that is up and has nothing of `k` in
    flight holds the best bid and offer of the committed book of `k` if and only
    if the last change of `k` to depart was in time.
   */
  lemma QuietTapeQuotesTheBook(
    run: Origin.RunState, commands: seq<Origin.Step>, cfg: Config, steps: seq<TapeRun.Step>, k: ListingKey)
    requires Origin.ValidRun(run) && k in run
    requires Origin.AllLawful(Origin.Start(run), commands) && AllNamed(Origin.Start(run), commands, k)
    requires Delayed(steps) && TapeRun.Calls(steps) == Origin.Steps(Origin.Start(run), commands).calls
    ensures TapeRun.AllLawful(TapeRun.START, cfg, steps)
    ensures var o, u := Origin.Steps(Origin.Start(run), commands), TapeRun.Run(TapeRun.START, cfg, steps);
      k in o.run && (Quiet(u, k) && o.caches.books.Some? ==>
        (HoldsTop(u.tape.processor, k, o.run[k].depth) <==> Settled(TapeRun.START, cfg, steps, k, true)))
  {
    CallsSettle(run, commands, k);
    QuietTapeHoldsTheCalls(cfg, steps, k);
    var o, u := Origin.Steps(Origin.Start(run), commands), TapeRun.Run(TapeRun.START, cfg, steps);
    if Quiet(u, k) && o.caches.books.Some? {
      HoldsTopIff(u.tape.processor, k, o.run[k].depth, After(o.calls, k).value);
    }
  }

  /** Constant delays are enough. */
  lemma OnTimeTapeQuotesTheBook(
    run: Origin.RunState, commands: seq<Origin.Step>, cfg: Config, steps: seq<TapeRun.Step>, k: ListingKey)
    requires Origin.ValidRun(run) && k in run
    requires Origin.AllLawful(Origin.Start(run), commands) && AllNamed(Origin.Start(run), commands, k)
    requires Delayed(steps) && TapeRun.Calls(steps) == Origin.Steps(Origin.Start(run), commands).calls
    ensures TapeRun.AllLawful(TapeRun.START, cfg, steps)
    ensures var o, u := Origin.Steps(Origin.Start(run), commands), TapeRun.Run(TapeRun.START, cfg, steps);
      k in o.run && (Quiet(u, k) && TapeRun.OnTime(u.heard, k) && o.caches.books.Some? ==>
        HoldsTop(u.tape.processor, k, o.run[k].depth))
  {
    QuietTapeQuotesTheBook(run, commands, cfg, steps, k);
    var u := TapeRun.Run(TapeRun.START, cfg, steps);
    if Quiet(u, k) && TapeRun.OnTime(u.heard, k) {
      OnTimeSettles(TapeRun.START, cfg, steps, k);
    }
  }
}
