/**
  A participant's private stream over successive sessions (bnp_host.rs, and the
  client's cursor of bunting-client): each session resumes the distributor after
  the highest sequence the client has seen, and together they hand it every
  report once exactly when no connection broke inside one event sequence.
 */
module PrivateResume {
  import opened Words
  import opened Market
  import opened TimedQueue
  import opened PrivateStream
  import D = Distributor
  import F = Fanout

  // ----- A session's stream, from what the distributor gave it -------------

  /** How a session maps a batch: its participant's reports, and the path's delay. */
  datatype Mapping = Mapping(reports: Committed -> seq<ServerMessage>, delay: Committed -> nat)

  function MapOne(m: Mapping, b: Committed): SessionBatch {
    SessionBatch(b.durableUs, m.delay(b), m.reports(b), D.LastSequence(b))
  }

  function Mapped(m: Mapping, batches: seq<Committed>): seq<SessionBatch> {
    seq(|batches|, i requires 0 <= i < |batches| => MapOne(m, batches[i]))
  }

  predicate IsReport(m: ServerMessage) {
    m.Report?
  }

  lemma {:induction false} ReplayedIs(m: Mapping, batches: seq<Committed>, cursor: nat)
    ensures Replayed(Mapped(m, batches), cursor) == Stamped(Reports(m.reports, batches), cursor)
  {
    if batches != [] {
      ReplayedIs(m, batches[1..], cursor);
      assert Mapped(m, batches)[1..] == Mapped(m, batches[1..]);
      KeepConcat(m.reports(batches[0]), Reports(m.reports, batches[1..]),
                 (x: ServerMessage) => x.Report? && x.sequence > cursor);
    }
  }

  lemma {:induction false} LiveIs(m: Mapping, batches: seq<Committed>)
    ensures Live(Mapped(m, batches)) == Reports(m.reports, batches)
  {
    if batches != [] {
      var front, last := batches[..|batches| - 1], batches[|batches| - 1];
      LiveIs(m, front);
      assert Mapped(m, batches)[..|front|] == Mapped(m, front);
      ReportsConcat(m.reports, front, [last]);
      assert Reports(m.reports, [last]) == m.reports(last) + Reports(m.reports, [last][1..]);
      assert front + [last] == batches;
    }
  }

  /** A batch that ends after the cursor is replayed last, and the mark names its end. */
  lemma ThroughLast(m: Mapping, before: seq<Committed>, cursor: nat)
    requires before != [] && D.EndsAfter(before[|before| - 1], cursor)
    ensures Some(Through(Mapped(m, D.EndingAfter(before, cursor)), cursor)) == D.LastSequence(before[|before| - 1])
  {
    var front, last := before[..|before| - 1], before[|before| - 1];
    assert before == front + [last];
    D.EndingAfterSnoc(front, last, cursor);
    var answer := D.EndingAfter(before, cursor);
    assert Mapped(m, answer)[|answer| - 1] == MapOne(m, last);
  }

  /** The end mark names the last sequence published when the session resumed. */
  lemma EndMarkIsTheEnd(m: Mapping, before: seq<Committed>, base: nat, cursor: nat)
    requires D.NonEmpty(before) && D.Chained(D.Events(before), base) && cursor <= base + |D.Events(before)|
    ensures Through(Mapped(m, D.EndingAfter(before, cursor)), cursor)
         == if before == [] then cursor else base + |D.Events(before)|
  {
    if before == [] {
      ThroughNone(m, D.EndingAfter(before, cursor), cursor);
    } else {
      D.WindowEnds(before, base);
      if cursor < base + |D.Events(before)| {
        ThroughLast(m, before, cursor);
      } else {
        D.NoneEndAfter(before, cursor, base);
        ThroughNone(m, D.EndingAfter(before, cursor), cursor);
      }
    }
  }

  lemma ThroughNone(m: Mapping, answer: seq<Committed>, cursor: nat)
    requires answer == []
    ensures Through(Mapped(m, answer), cursor) == cursor
  {
  }

  /** The private stream of a session that was answered: replay, end mark, live. */
  function SessionStream(m: Mapping, r: D.Resumption, taken: seq<Committed>): seq<ServerMessage>
    requires r.answer.Some?
  {
    Lead(Some(Resumed(Mapped(m, r.answer.value), r.cursor))) + Live(Mapped(m, taken))
  }

  ghost predicate AllReports(ms: seq<ServerMessage>) {
    forall i | 0 <= i < |ms| :: ms[i].Report?
  }

  lemma {:induction false} KeepReports(ms: seq<ServerMessage>)
    requires AllReports(ms)
    ensures Keep(ms, IsReport) == ms
  {
    if ms != [] {
      KeepReports(ms[1..]);
    }
  }

  lemma {:induction false} KeepHolds<T>(s: seq<T>, f: T -> bool)
    ensures forall i | 0 <= i < |Keep(s, f)| :: f(Keep(s, f)[i])
  {
    if s != [] {
      KeepHolds(s[1..], f);
    }
  }

  lemma KeepOne(ms: seq<ServerMessage>, m: ServerMessage)
    ensures Keep(ms + [m], IsReport) == if m.Report? then Keep(ms, IsReport) + [m] else Keep(ms, IsReport)
  {
    KeepConcat(ms, [m], IsReport);
    assert [m][1..] == [];
    assert Keep([m], IsReport) == if m.Report? then [m] else [];
  }

  lemma MarkIsNoReport(replay: seq<ServerMessage>, through: nat, live: seq<ServerMessage>, all: seq<ServerMessage>)
    requires AllReports(replay) && AllReports(live) && all == replay + [ReplayComplete(through)] + live
    ensures Keep(all, IsReport) == replay + live
  {
    KeepConcat(replay + [ReplayComplete(through)], live, IsReport);
    KeepOne(replay, ReplayComplete(through));
    KeepReports(replay);
    KeepReports(live);
  }

  /** Its reports: those replayed, then those of the batches drained. */
  lemma SessionReports(m: Mapping, r: D.Resumption, taken: seq<Committed>)
    requires r.answer.Some? && AllReports(Reports(m.reports, taken))
    ensures Keep(SessionStream(m, r, taken), IsReport)
         == Stamped(Reports(m.reports, r.answer.value), r.cursor) + Reports(m.reports, taken)
  {
    ReplayedIs(m, r.answer.value, r.cursor);
    LiveIs(m, taken);
    KeepHolds(Reports(m.reports, r.answer.value), (x: ServerMessage) => x.Report? && x.sequence > r.cursor);
    MarkIsNoReport(
      Stamped(Reports(m.reports, r.answer.value), r.cursor),
      Through(Mapped(m, r.answer.value), r.cursor),
      Reports(m.reports, taken),
      SessionStream(m, r, taken));
  }

  // ----- Reports in committed order ----------------------------------------

  ghost predicate Between(ms: seq<ServerMessage>, low: nat, high: nat) {
    forall i | 0 <= i < |ms| :: ms[i].Report? && low < ms[i].sequence <= high
  }

  lemma {:induction false} ReportsInOrder(reports: Committed -> seq<ServerMessage>, batches: seq<Committed>, base: nat)
    requires Maps(reports, batches) && D.Chained(D.Events(batches), base)
    ensures InSequence(Reports(reports, batches))
    ensures Between(Reports(reports, batches), base, base + |D.Events(batches)|)
  {
    if batches != [] {
      var first, rest := batches[0], batches[1..];
      D.ChainedSplit(first.events, D.Events(rest), base);
      MapsSlice(reports, batches, 1, |batches|);
      assert batches[1..|batches|] == rest;
      ReportsInOrder(reports, rest, base + |first.events|);
      var ms := reports(first);
      assert MapsAt(reports, batches, 0);
      assert first.events[0].sequence == base + 1;
      assert first.events[|first.events| - 1].sequence == base + |first.events|;
      assert Between(ms, base, base + |first.events|);
    }
  }

  // ----- The client's cursor -----------------------------------------------

  /** The highest sequence the client has seen. */
  function CursorAfter(read: seq<ServerMessage>, cursor: nat): nat {
    if read == [] then cursor
    else
      var before, last := CursorAfter(read[..|read| - 1], cursor), read[|read| - 1];
      if last.Report? then Max(before, last.sequence) else before
  }

  lemma {:induction false} CursorOfReports(read: seq<ServerMessage>, cursor: nat)
    ensures CursorAfter(read, cursor) == CursorAfter(Keep(read, IsReport), cursor)
  {
    if read != [] {
      var front, last := read[..|read| - 1], read[|read| - 1];
      assert read == front + [last];
      KeepOne(front, last);
      CursorOfReports(front, cursor);
    }
  }

  /** Of reports in order it is the last one's sequence. */
  lemma {:induction false} CursorIsLast(read: seq<ServerMessage>, cursor: nat)
    requires InSequence(read) && forall i | 0 <= i < |read| :: read[i].sequence > cursor
    ensures CursorAfter(read, cursor) == if read == [] then cursor else read[|read| - 1].sequence
  {
    if read != [] {
      CursorIsLast(read[..|read| - 1], cursor);
    }
  }

  // ----- Handing over ------------------------------------------------------

  /** The connection broke between two event sequences. */
  ghost predicate CleanCut(stream: seq<ServerMessage>, n: nat) {
    0 < n < |stream| ==> stream[n - 1].Report? && stream[n].Report? && stream[n - 1].sequence < stream[n].sequence
  }

  lemma {:induction false} StampedSuffix(ms: seq<ServerMessage>, cursor: nat) returns (n: nat)
    requires InSequence(ms)
    ensures n <= |ms| && Stamped(ms, cursor) == ms[n..]
    ensures forall j | 0 <= j < n :: ms[j].sequence <= cursor
    ensures forall j | n <= j < |ms| :: ms[j].sequence > cursor
  {
    if ms == [] {
      n := 0;
    } else if ms[0].sequence > cursor {
      StampedAll(ms, cursor);
      n := 0;
    } else {
      var m := StampedSuffix(ms[1..], cursor);
      n := m + 1;
      assert Stamped(ms, cursor) == [] + Stamped(ms[1..], cursor);
      assert ms[n..] == ms[1..][m..];
      assert forall j | 0 < j < |ms| :: ms[j] == ms[1..][j - 1];
    }
  }

  /**
    Hand-over by cursor: the first session wrote `n` reports of its stream and
    the next one resumes after the client's cursor. Together they give exactly
    the stream if and only if the first was not cut inside one event sequence;
    otherwise they fall short.
   */
  lemma HandOver(all: seq<ServerMessage>, cursor: nat, n: nat)
    requires InSequence(all) && n <= |Stamped(all, cursor)|
    ensures var stream := Stamped(all, cursor);
      var next := Stamped(all, CursorAfter(stream[..n], cursor));
      && InSequence(stream)
      && (stream[..n] + next == stream <==> CleanCut(stream, n))
      && (CleanCut(stream, n) || n + |next| < |stream|)
  {
    var at := StampedSuffix(all, cursor);
    var stream := Stamped(all, cursor);
    CursorIsLast(stream[..n], cursor);
    var next := CursorAfter(stream[..n], cursor);
    var resumed := StampedSuffix(all, next);
    if n > 0 {
      assert stream[n - 1] == all[at + n - 1];
      assert at + n <= resumed;
      if n < |stream| {
        assert stream[n] == all[at + n];
        assert CleanCut(stream, n) <==> resumed == at + n;
      }
      assert |Stamped(all, next)| == |all| - resumed;
    }
    assert stream == stream[..n] + stream[n..];
    assert stream[n..] == all[at + n..];
  }

  // ----- The distributor's runs --------------------------------------------

  ghost predicate Reaches(d: D.Dist, base: nat, capacity: nat, limit: nat, steps: seq<D.Step>) {
    d == D.Run(D.NewDist(base, capacity, limit), steps)
  }

  /** A distributor some run of its process has led to. */
  ghost predicate Reachable(d: D.Dist) {
    exists base, capacity, limit, steps :: Reaches(d, base, capacity, limit, steps)
  }

  lemma ReachableIsSound(d: D.Dist)
    requires Reachable(d) && D.End(d) < U64_MAX
    ensures D.Inv(d) && F.Inv(d.fan)
  {
    var base, capacity, limit, steps :| Reaches(d, base, capacity, limit, steps);
    D.NewIsSound(base, capacity, limit);
    D.RunIsSound(D.NewDist(base, capacity, limit), steps);
  }

  lemma {:induction false} RunConcat(d: D.Dist, a: seq<D.Step>, b: seq<D.Step>)
    ensures D.Run(d, a + b) == D.Run(D.Run(d, a), b)
    decreases |a|
  {
    if a == [] {
      assert a + b == b;
    } else {
      assert (a + b)[1..] == a[1..] + b;
      RunConcat(D.Next(d, a[0]), a[1..], b);
    }
  }

  lemma ReachableOn(d: D.Dist, more: seq<D.Step>)
    requires Reachable(d)
    ensures Reachable(D.Run(d, more))
  {
    var base, capacity, limit, steps :| Reaches(d, base, capacity, limit, steps);
    RunConcat(D.NewDist(base, capacity, limit), steps, more);
    assert Reaches(D.Run(d, more), base, capacity, limit, steps + more);
  }

  /** What a resumption was answered and where it joined never change. */
  lemma {:induction false} ResumedStays(d: D.Dist, steps: seq<D.Step>, id: nat)
    requires id < d.fan.nextId && id in d.resumed && id in d.fan.since
    ensures var e := D.Run(d, steps);
      && id in e.resumed && e.resumed[id] == d.resumed[id]
      && id in e.fan.since && e.fan.since[id] == d.fan.since[id]
    decreases |steps|
  {
    if steps != [] {
      ResumedStays(D.Next(d, steps[0]), steps[1..], id);
    }
  }

  lemma {:induction false} SentGrows(d: D.Dist, steps: seq<D.Step>)
    ensures d.fan.sent <= D.Run(d, steps).fan.sent
    decreases |steps|
  {
    if steps != [] {
      SentGrows(D.Next(d, steps[0]), steps[1..]);
    }
  }

  // ----- One session in the whole stream -----------------------------------

  lemma TakenReports(reports: Committed -> seq<ServerMessage>, sent: seq<Committed>, a: nat, b: nat, base: nat)
    requires a <= b <= |sent| && Maps(reports, sent) && D.Chained(D.Events(sent), base)
    ensures InSequence(Reports(reports, sent[a..b]))
    ensures Between(Reports(reports, sent[a..b]), base + |D.Events(sent[..a])|, base + |D.Events(sent[..b])|)
    ensures AllReports(Reports(reports, sent[a..b]))
  {
    ChainedSlice(sent, a, b, base);
    MapsSlice(reports, sent, a, b);
    ReportsInOrder(reports, sent[a..b], base + |D.Events(sent[..a])|);
  }

  /** What a session was given: of everything `sent`, it joined after `since` batches and drained up to batch `upTo`. */
  function GivenStream(m: Mapping, sent: seq<Committed>, since: nat, upTo: nat, cursor: nat): seq<ServerMessage>
    requires since <= upTo <= |sent|
  {
    SessionStream(m, D.Resumption(cursor, Some(D.EndingAfter(sent[..since], cursor))), sent[since..upTo])
  }

  lemma SameSlices(part: seq<Committed>, whole: seq<Committed>, a: nat, b: nat)
    requires part <= whole && a <= b <= |part|
    ensures part[..a] == whole[..a] && part[a..b] == whole[a..b]
  {
  }

  lemma StampedBetween(ms: seq<ServerMessage>, cursor: nat, low: nat, high: nat)
    requires InSequence(ms) && Between(ms, low, high)
    ensures InSequence(Stamped(ms, cursor)) && Between(Stamped(ms, cursor), low, high)
  {
    var n := StampedSuffix(ms, cursor);
  }

  /** A batch ends between two event sequences, so what a session had drained can be cut anywhere the whole can. */
  lemma CutOfTheWhole(
      reports: Committed -> seq<ServerMessage>, sent: seq<Committed>, k: nat, base: nat, cursor: nat, n: nat)
    requires Maps(reports, sent) && D.Chained(D.Events(sent), base) && k <= |sent|
    requires n <= |Stamped(Reports(reports, sent[..k]), cursor)|
    ensures var part, all := Stamped(Reports(reports, sent[..k]), cursor), Stamped(Reports(reports, sent), cursor);
      && part <= all && (CleanCut(part, n) <==> CleanCut(all, n))
      && InSequence(part) && Between(part, base, base + |D.Events(sent[..k])|)
  {
    var first, rest := Reports(reports, sent[0..k]), Reports(reports, sent[k..|sent|]);
    assert sent[0..k] == sent[..k] && sent[..0] == [] && sent == sent[0..k] + sent[k..|sent|];
    TakenReports(reports, sent, 0, k, base);
    TakenReports(reports, sent, k, |sent|, base);
    var end := base + |D.Events(sent[..k])|;
    StampedBetween(first, cursor, base, end);
    StampedBetween(rest, cursor, end, base + |D.Events(sent[..|sent|])|);
    ReportsConcat(reports, sent[0..k], sent[k..|sent|]);
    KeepConcat(first, rest, (x: ServerMessage) => x.Report? && x.sequence > cursor);
    assert Stamped(Reports(reports, sent), cursor) == Stamped(first, cursor) + Stamped(rest, cursor);
  }

  lemma EndWithin(sent: seq<Committed>, k: nat)
    requires k <= |sent|
    ensures |D.Events(sent[..k])| <= |D.Events(sent)|
  {
    assert sent == sent[..k] + sent[k..];
    D.EventsConcat(sent[..k], sent[k..]);
  }

  /** Reading `n` reports of a part of the stream, then resuming. */
  lemma PartHandsOver(all: seq<ServerMessage>, cursor: nat, part: seq<ServerMessage>, n: nat)
    requires InSequence(all) && n <= |part| && part <= Stamped(all, cursor)
    requires CleanCut(part, n) <==> CleanCut(Stamped(all, cursor), n)
    ensures var next := CursorAfter(part[..n], cursor);
      && (part[..n] + Stamped(all, next) == Stamped(all, cursor) <==> CleanCut(part, n))
      && (CleanCut(part, n) || n + |Stamped(all, next)| < |Stamped(all, cursor)|)
  {
    assert part[..n] == Stamped(all, cursor)[..n];
    HandOver(all, cursor, n);
  }

  /** The session's reports are those after the cursor, up to the last batch it drained. */
  lemma GivenReports(m: Mapping, sent: seq<Committed>, since: nat, upTo: nat, base: nat, cursor: nat)
    requires D.Chained(D.Events(sent), base) && Maps(m.reports, sent) && since <= upTo <= |sent|
    requires cursor <= base + |D.Events(sent[..since])|
    ensures Keep(GivenStream(m, sent, since, upTo, cursor), IsReport)
         == Stamped(Reports(m.reports, sent[..upTo]), cursor)
  {
    StreamOf(m.reports, sent, since, upTo, base, cursor);
    TakenReports(m.reports, sent, since, upTo, base);
    SessionReports(m, D.Resumption(cursor, Some(D.EndingAfter(sent[..since], cursor))), sent[since..upTo]);
  }

  lemma KeepPrefix<T>(s: seq<T>, n: nat, f: T -> bool)
    requires n <= |s|
    ensures Keep(s[..n], f) <= Keep(s, f)
  {
    KeepOfParts(s[..n], s[n..], s, f);
  }

  lemma KeepOfParts<T>(a: seq<T>, b: seq<T>, all: seq<T>, f: T -> bool)
    requires all == a + b
    ensures Keep(a, f) <= Keep(all, f)
  {
    KeepConcat(a, b, f);
  }

  lemma WholeInOrder(reports: Committed -> seq<ServerMessage>, sent: seq<Committed>, base: nat)
    requires Maps(reports, sent) && D.Chained(D.Events(sent), base)
    ensures InSequence(Reports(reports, sent))
  {
    ReportsInOrder(reports, sent, base);
  }

  lemma {:induction false} NextWithin(reports: seq<ServerMessage>, n: nat, cursor: nat, end: nat)
    requires n <= |reports| && InSequence(reports) && (forall i | 0 <= i < |reports| :: reports[i].sequence <= end)
    ensures CursorAfter(reports[..n], cursor) <= Max(cursor, end)
    decreases n
  {
    if n > 0 {
      NextWithin(reports, n - 1, cursor, end);
      assert reports[..n][..n - 1] == reports[..n - 1];
    }
  }

  /** The client read `n` reports of what was published up to a batch; the next session resumes after its cursor. */
  lemma ReadHandsOver(
      reports: Committed -> seq<ServerMessage>, final: seq<Committed>, upTo: nat, base: nat, cursor: nat,
      part: seq<ServerMessage>, n: nat)
    requires D.Chained(D.Events(final), base) && Maps(reports, final) && upTo <= |final| && n <= |part|
    requires part == Stamped(Reports(reports, final[..upTo]), cursor)
    ensures var all, next := Reports(reports, final), CursorAfter(part[..n], cursor);
      && (part[..n] + Stamped(all, next) == Stamped(all, cursor) <==> CleanCut(part, n))
      && (CleanCut(part, n) || n + |Stamped(all, next)| < |Stamped(all, cursor)|)
      && next <= Max(cursor, base + |D.Events(final[..upTo])|)
  {
    CutOfTheWhole(reports, final, upTo, base, cursor, n);
    WholeInOrder(reports, final, base);
    PartHandsOver(Reports(reports, final), cursor, part, n);
    NextWithin(part, n, cursor, base + |D.Events(final[..upTo])|);
  }

  // ----- Successive sessions of one distributor ----------------------------

  /**
    One session: it resumes after `cursor` while `inFlight` events are
    committed but unpublished, `steps` happen until the next one, and the client
    has read `read` messages of its private stream when the connection breaks.
   */
  datatype Sitting = Sitting(
    before: D.Dist, cursor: nat, inFlight: Option<nat>, steps: seq<D.Step>, after: D.Dist,
    stream: seq<ServerMessage>, read: nat)

  function StepsOf(s: Sitting): seq<D.Step> {
    [D.SubscribeResuming(s.cursor, s.inFlight)] + s.steps
  }

  /** The session runs with the distributor, is not answered with a gap, and streams what it was given. */
  ghost predicate SitsAt(m: Mapping, ss: seq<Sitting>, i: nat)
    requires i < |ss|
  {
    var s, id := ss[i], ss[i].before.fan.nextId;
    && s.after == D.Run(s.before, StepsOf(s))
    && id in s.after.resumed && s.after.resumed[id].answer.Some? && id in s.after.fan.taken
    && s.stream == SessionStream(m, s.after.resumed[id], s.after.fan.taken[id])
  }

  /** The client's cursor when the next session resumes. */
  function NextCursor(s: Sitting): nat
    requires s.read <= |s.stream|
  {
    CursorAfter(s.stream[..s.read], s.cursor)
  }

  /** The reports it read. */
  function ReadIn(s: Sitting): seq<ServerMessage>
    requires s.read <= |s.stream|
  {
    Keep(s.stream[..s.read], IsReport)
  }

  ghost predicate FollowsAt(ss: seq<Sitting>, i: nat)
    requires i + 1 < |ss|
  {
    ss[i].read <= |ss[i].stream| && ss[i + 1].before == ss[i].after && ss[i + 1].cursor == NextCursor(ss[i])
  }

  /** Sessions of one client, one after the other. */
  ghost predicate Sessions(m: Mapping, ss: seq<Sitting>) {
    && (forall i | 0 <= i < |ss| :: SitsAt(m, ss, i))
    && (forall i | 0 <= i < |ss| - 1 :: FollowsAt(ss, i))
    && (forall i | 0 <= i < |ss| :: WithinAt(ss, i))
  }

  predicate WithinAt(ss: seq<Sitting>, i: nat)
    requires i < |ss|
  {
    ss[i].read <= |ss[i].stream|
  }

  /** The connection did not break inside one event sequence of the session's own stream. */
  ghost predicate CleanAt(ss: seq<Sitting>, i: nat)
    requires i < |ss|
  {
    WithinAt(ss, i) && CleanCut(Keep(ss[i].stream, IsReport), |ReadIn(ss[i])|)
  }

  /** The reports read from session `i` on. */
  ghost function ReadFrom(m: Mapping, ss: seq<Sitting>, i: nat): seq<ServerMessage>
    requires Sessions(m, ss) && i <= |ss|
    decreases |ss| - i
  {
    if i == |ss| then []
    else
      assert WithinAt(ss, i);
      ReadIn(ss[i]) + ReadFrom(m, ss, i + 1)
  }

  /** The distributor only grows. */
  lemma SitGrows(m: Mapping, ss: seq<Sitting>, i: nat)
    requires Sessions(m, ss) && i < |ss|
    ensures ss[i].before.fan.sent <= ss[i].after.fan.sent && ss[i].before.base == ss[i].after.base
    ensures D.End(ss[i].before) <= D.End(ss[i].after)
    ensures Reachable(ss[i].before) ==> Reachable(ss[i].after)
  {
    assert SitsAt(m, ss, i);
    var s := ss[i];
    SentGrows(s.before, StepsOf(s));
    D.EndGrows(s.before, StepsOf(s));
    D.RunBase(s.before, StepsOf(s));
    if Reachable(s.before) {
      ReachableOn(s.before, StepsOf(s));
    }
  }

  lemma {:induction false} SitsGrow(m: Mapping, ss: seq<Sitting>, i: nat, last: D.Dist)
    requires Sessions(m, ss) && i < |ss| && last == ss[|ss| - 1].after
    ensures ss[i].after.fan.sent <= last.fan.sent && ss[i].after.base == last.base
    ensures D.End(ss[i].after) <= D.End(last)
    decreases |ss| - i
  {
    if i + 1 < |ss| {
      assert FollowsAt(ss, i);
      SitGrows(m, ss, i + 1);
      SitsGrow(m, ss, i + 1, last);
    }
  }

  lemma {:induction false} SitsReach(m: Mapping, ss: seq<Sitting>, i: nat)
    requires Sessions(m, ss) && i < |ss| && Reachable(ss[0].before)
    ensures Reachable(ss[i].before) && Reachable(ss[i].after)
    decreases i
  {
    if i > 0 {
      SitsReach(m, ss, i - 1);
      assert FollowsAt(ss, i - 1);
    }
    SitGrows(m, ss, i);
  }

  /** What the distributor gave the session: the answer it replays, and the batches it drained. */
  lemma SitTaken(m: Mapping, ss: seq<Sitting>, i: nat) returns (taken: seq<Committed>)
    requires Sessions(m, ss) && i < |ss| && Reachable(ss[i].after) && D.End(ss[i].after) < U64_MAX
    ensures var since, sent := |ss[i].before.fan.sent|, ss[i].after.fan.sent;
      && since + |taken| <= |sent| && taken == sent[since..since + |taken|]
      && ss[i].stream
         == SessionStream(m, D.Resumption(ss[i].cursor, Some(D.EndingAfter(sent[..since], ss[i].cursor))), taken)
  {
    assert SitsAt(m, ss, i);
    var s, id := ss[i], ss[i].before.fan.nextId;
    var first := D.SubscribedResuming(s.before, s.cursor, s.inFlight);
    assert StepsOf(s)[0] == D.SubscribeResuming(s.cursor, s.inFlight) && StepsOf(s)[1..] == s.steps;
    assert s.after == D.Run(first, s.steps);
    ResumedStays(first, s.steps, id);
    ReachableIsSound(s.after);
    D.AnsweredFacts(s.after, id);
    taken := s.after.fan.taken[id];
  }

  /** A session's reports, in everything published in the end. */
  lemma SitReports(m: Mapping, ss: seq<Sitting>, i: nat, final: seq<Committed>, base: nat) returns (upTo: nat)
    requires Sessions(m, ss) && i < |ss| && Reachable(ss[i].before) && D.End(ss[i].after) < U64_MAX
    requires Maps(m.reports, final) && D.Chained(D.Events(final), base) && ss[i].after.fan.sent <= final
    requires base == ss[i].before.base && ss[i].cursor <= D.End(ss[i].before)
    ensures upTo <= |ss[i].after.fan.sent|
    ensures Keep(ss[i].stream, IsReport) == Stamped(Reports(m.reports, final[..upTo]), ss[i].cursor)
  {
    SitGrows(m, ss, i);
    var taken := SitTaken(m, ss, i);
    var since, sent := |ss[i].before.fan.sent|, ss[i].after.fan.sent;
    upTo := since + |taken|;
    SameSlices(sent, final, since, upTo);
    assert sent[..since] == ss[i].before.fan.sent;
    GivenReports(m, final, since, upTo, base, ss[i].cursor);
  }

  /** Of the first `j` messages of a stream, the reports and the cursor they leave. */
  lemma ReadIs(stream: seq<ServerMessage>, j: nat, cursor: nat) returns (n: nat)
    requires j <= |stream|
    ensures n == |Keep(stream[..j], IsReport)| && n <= |Keep(stream, IsReport)|
    ensures Keep(stream[..j], IsReport) == Keep(stream, IsReport)[..n]
    ensures CursorAfter(stream[..j], cursor) == CursorAfter(Keep(stream, IsReport)[..n], cursor)
  {
    KeepPrefix(stream, j, IsReport);
    CursorOfReports(stream[..j], cursor);
    n := |Keep(stream[..j], IsReport)|;
  }

  lemma SitEnd(m: Mapping, ss: seq<Sitting>, i: nat, final: seq<Committed>, upTo: nat)
    requires Sessions(m, ss) && i < |ss| && ss[i].after.fan.sent <= final && upTo <= |ss[i].after.fan.sent|
    ensures ss[i].before.base + |D.Events(final[..upTo])| <= D.End(ss[i].after)
    ensures D.End(ss[i].before) <= D.End(ss[i].after)
  {
    SitGrows(m, ss, i);
    assert final[..upTo] == ss[i].after.fan.sent[..upTo];
    EndWithin(ss[i].after.fan.sent, upTo);
  }

  /** One session and its successors, against everything published in the end. */
  lemma SitHandsOver(m: Mapping, ss: seq<Sitting>, i: nat, final: seq<Committed>, base: nat)
    requires Sessions(m, ss) && i < |ss| && Reachable(ss[i].before) && D.End(ss[i].after) < U64_MAX
    requires Maps(m.reports, final) && D.Chained(D.Events(final), base) && ss[i].after.fan.sent <= final
    requires base == ss[i].before.base && ss[i].cursor <= D.End(ss[i].before)
    ensures WithinAt(ss, i)
    ensures var all, read, next := Reports(m.reports, final), ReadIn(ss[i]), NextCursor(ss[i]);
      && (read + Stamped(all, next) == Stamped(all, ss[i].cursor) <==> CleanAt(ss, i))
      && (CleanAt(ss, i) || |read| + |Stamped(all, next)| < |Stamped(all, ss[i].cursor)|)
      && next <= D.End(ss[i].after)
  {
    assert WithinAt(ss, i);
    var n := ReadIs(ss[i].stream, ss[i].read, ss[i].cursor);
    var upTo := SitReports(m, ss, i, final, base);
    ReadHandsOver(m.reports, final, upTo, base, ss[i].cursor, Keep(ss[i].stream, IsReport), n);
    SitEnd(m, ss, i, final, upTo);
  }

  /** A first session, those after it, and what is left: exact together exactly when each is. */
  lemma Chain(
      read: seq<ServerMessage>, next: seq<ServerMessage>, all: seq<ServerMessage>, clean: bool,
      more: seq<ServerMessage>, last: seq<ServerMessage>, cleanAfter: bool)
    requires (read + next == all <==> clean) && (clean || |read| + |next| < |all|)
    requires (more + last == next <==> cleanAfter) && |more| + |last| <= |next|
    ensures (read + more) + last == all <==> clean && cleanAfter
    ensures |read + more| + |last| <= |all|
  {
    assert (read + more) + last == read + (more + last);
    if (read + more) + last == all {
      assert clean;
      assert next == all[|read|..] && more + last == all[|read|..];
    }
  }

  ghost predicate CleanFrom(ss: seq<Sitting>, i: nat) {
    forall j | i <= j < |ss| :: CleanAt(ss, j)
  }

  lemma {:induction false} AllInOrder(m: Mapping, ss: seq<Sitting>, i: nat, final: D.Dist, last: nat)
    requires Sessions(m, ss) && i < |ss| && Reachable(ss[0].before) && final == ss[|ss| - 1].after
    requires WithinAt(ss, |ss| - 1) && last == NextCursor(ss[|ss| - 1])
    requires ss[i].cursor <= D.End(ss[i].before) && D.End(final) < U64_MAX
    requires Maps(m.reports, final.fan.sent) && D.Chained(D.Events(final.fan.sent), final.base)
    ensures var all, read := Reports(m.reports, final.fan.sent), ReadFrom(m, ss, i);
      && (read + Stamped(all, last) == Stamped(all, ss[i].cursor) <==> CleanFrom(ss, i))
      && |read| + |Stamped(all, last)| <= |Stamped(all, ss[i].cursor)|
    decreases |ss| - i
  {
    var all := Reports(m.reports, final.fan.sent);
    SitsReach(m, ss, i);
    SitsGrow(m, ss, i, final);
    SitGrows(m, ss, i);
    SitHandsOver(m, ss, i, final.fan.sent, final.base);
    var read, next := ReadIn(ss[i]), NextCursor(ss[i]);
    if i + 1 == |ss| {
      assert ReadFrom(m, ss, i + 1) == [] && ReadFrom(m, ss, i) == read;
      assert CleanFrom(ss, i) <==> CleanAt(ss, i);
    } else {
      assert FollowsAt(ss, i);
      AllInOrder(m, ss, i + 1, final, last);
      CleanNext(ss, i);
      Chain(read, Stamped(all, next), Stamped(all, ss[i].cursor), CleanAt(ss, i),
            ReadFrom(m, ss, i + 1), Stamped(all, last), CleanFrom(ss, i + 1));
    }
  }

  lemma CleanNext(ss: seq<Sitting>, i: nat)
    requires i < |ss|
    ensures CleanFrom(ss, i) <==> CleanAt(ss, i) && CleanFrom(ss, i + 1)
  {
  }

  /**
    Any number of sessions of one client with one distributor, each resuming
    after the highest sequence the client has seen and none answered with a
    gap. Whatever is published, retained and dropped meanwhile, the reports the
    client has read and those a further session would give it are the
    participant's reports after the first cursor, each once and in committed
    order, if and only if no connection broke inside one event sequence.
   */
  lemma SessionsConcatenate(
      m: Mapping, base: nat, capacity: nat, limit: nat, steps: seq<D.Step>, ss: seq<Sitting>)
    requires ss != [] && Sessions(m, ss) && ss[0].before == D.Run(D.NewDist(base, capacity, limit), steps)
    requires ss[0].cursor <= D.End(ss[0].before) && D.End(ss[|ss| - 1].after) < U64_MAX
    requires Maps(m.reports, ss[|ss| - 1].after.fan.sent)
    ensures WithinAt(ss, |ss| - 1)
    ensures var all, last := Reports(m.reports, ss[|ss| - 1].after.fan.sent), NextCursor(ss[|ss| - 1]);
      ReadFrom(m, ss, 0) + Stamped(all, last) == Stamped(all, ss[0].cursor)
      <==> forall j | 0 <= j < |ss| :: CleanAt(ss, j)
  {
    var n := |ss| - 1;
    assert WithinAt(ss, n);
    assert Reaches(ss[0].before, base, capacity, limit, steps);
    SitsReach(m, ss, n);
    PublishedChained(ss[n].after);
    AllInOrder(m, ss, 0, ss[n].after, NextCursor(ss[n]));
    assert CleanFrom(ss, 0) <==> forall j | 0 <= j < |ss| :: CleanAt(ss, j);
  }

  lemma PublishedChained(d: D.Dist)
    requires Reachable(d) && D.End(d) < U64_MAX
    ensures D.Chained(D.Events(d.fan.sent), d.base)
  {
    ReachableIsSound(d);
  }

  /** Cut inside one event sequence, the rest of that sequence is lost. */
  lemma CutInsideASequenceLosesReports()
    ensures var all := [Report(5, 0), Report(5, 1), Report(6, 2)];
      && InSequence(all) && Stamped(all, 4) == all && CursorAfter(all[..1], 4) == 5
      && all[..1] + Stamped(all, 5) == [Report(5, 0), Report(6, 2)]
  {
    var all := [Report(5, 0), Report(5, 1), Report(6, 2)];
    StampedAll(all, 4);
    StampedAfterFive(all);
    assert all[..1] == [Report(5, 0)];
    CursorIsLast(all[..1], 4);
  }

  lemma StampedAfterFive(all: seq<ServerMessage>)
    requires all == [Report(5, 0), Report(5, 1), Report(6, 2)]
    ensures Stamped(all, 5) == [Report(6, 2)]
  {
    StampedNone(all[..2], 5);
    StampedAll(all[2..], 5);
    assert all == all[..2] + all[2..];
    KeepConcat(all[..2], all[2..], (m: ServerMessage) => m.Report? && m.sequence > 5);
  }
}
