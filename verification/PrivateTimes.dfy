/**
  When a BNP session's private reports leave (bnp_host.rs): a report waits for
  its own batch to travel to the team and for every batch before it, and for
  nothing else.
 */
module PrivateTimes {
  import opened Words
  import opened TimedQueue
  import opened PrivateStream

  /** The instant a batch's reports reach the team, on a 64-bit clock. */
  function Travelled(b: SessionBatch): nat {
    if b.durableUs + b.delay <= U64_MAX then b.durableUs + b.delay else U64_MAX
  }

  /** `t` is the latest of these batches' instants; without any it is the start of time. */
  ghost predicate Latest(t: nat, bs: seq<SessionBatch>) {
    && (forall b :: b in bs ==> Travelled(b) <= t)
    && (t == 0 || exists b :: b in bs && Travelled(b) == t)
  }

  predicate HasReports(b: SessionBatch) {
    b.reports != []
  }

  /** The batches a live report waits for: everything replayed, and the live batches with reports. */
  function WaitedFor(r: Option<Resumed>, drained: seq<SessionBatch>): seq<SessionBatch> {
    (if r.None? then [] else r.value.batches) + Keep(drained, HasReports)
  }

  lemma LatestOfMore(t: nat, bs: seq<SessionBatch>, b: SessionBatch)
    requires Latest(t, bs)
    ensures Latest(Max(t, Arrival(b)), bs + [b])
  {
    var u, all := Max(t, Arrival(b)), bs + [b];
    if u == t && t != 0 {
      var x :| x in bs && Travelled(x) == t;
      assert x in all;
    } else if u != 0 {
      assert all[|bs|] == b && b in all && Travelled(b) == u;
    }
  }

  lemma {:induction false} ReplayFloorIsLatest(batches: seq<SessionBatch>)
    ensures Latest(ReplayFloor(batches), batches)
  {
    if batches != [] {
      var front, last := batches[..|batches| - 1], batches[|batches| - 1];
      ReplayFloorIsLatest(front);
      LatestOfMore(ReplayFloor(front), front, last);
      assert front + [last] == batches;
    }
  }

  lemma WaitedForNext(r: Option<Resumed>, front: seq<SessionBatch>, last: SessionBatch)
    ensures WaitedFor(r, front + [last]) == WaitedFor(r, front) + if last.reports == [] then [] else [last]
  {
    KeepConcat(front, [last], HasReports);
    assert [last][1..] == [];
    assert Keep([last], HasReports) == if last.reports == [] then [] else [last];
  }

  lemma {:induction false} LiveFloorIsLatest(r: Option<Resumed>, drained: seq<SessionBatch>)
    ensures Latest(LiveFloor(LeadFloor(r), drained), WaitedFor(r, drained))
  {
    if drained == [] {
      if r.Some? {
        ReplayFloorIsLatest(r.value.batches);
      }
      assert WaitedFor(r, []) == if r.None? then [] else r.value.batches;
    } else {
      var front, last := drained[..|drained| - 1], drained[|drained| - 1];
      LiveFloorIsLatest(r, front);
      assert front + [last] == drained;
      WaitedForNext(r, front, last);
      if last.reports != [] {
        LatestOfMore(LiveFloor(LeadFloor(r), front), WaitedFor(r, front), last);
      } else {
        assert WaitedFor(r, drained) == WaitedFor(r, front);
      }
    }
  }

  // ----- Where a batch's reports stand in the stream -----------------------

  lemma LiveNext(floor: nat, front: seq<SessionBatch>, batch: SessionBatch)
    ensures Live(front + [batch]) == Live(front) + batch.reports
    ensures LiveTimes(floor, front + [batch])
         == LiveTimes(floor, front) + Repeated(|batch.reports|, LiveFloor(floor, front + [batch]))
  {
    assert (front + [batch])[..|front|] == front;
  }

  lemma {:induction false} LivePrefix(floor: nat, a: seq<SessionBatch>, b: seq<SessionBatch>, all: seq<SessionBatch>)
    requires all == a + b
    ensures Live(a) <= Live(all) && LiveTimes(floor, a) <= LiveTimes(floor, all)
    decreases |b|
  {
    if b == [] {
      assert all == a;
    } else {
      var front, last := b[..|b| - 1], b[|b| - 1];
      LivePrefix(floor, a, front, a + front);
      assert all == (a + front) + [last];
      LiveNext(floor, a + front, last);
    }
  }

  lemma {:induction false} LiveLengths(floor: nat, batches: seq<SessionBatch>)
    ensures |LiveTimes(floor, batches)| == |Live(batches)|
  {
    if batches != [] {
      LiveLengths(floor, batches[..|batches| - 1]);
    }
  }

  lemma ReplayNext(front: seq<SessionBatch>, batch: SessionBatch, cursor: nat)
    ensures Replayed(front + [batch], cursor) == Replayed(front, cursor) + Stamped(batch.reports, cursor)
    ensures ReplayTimes(front + [batch], cursor)
         == ReplayTimes(front, cursor) + Repeated(|Stamped(batch.reports, cursor)|, ReplayFloor(front + [batch]))
  {
    ReplayedSnoc(front, batch, cursor);
    assert (front + [batch])[..|front|] == front;
  }

  lemma {:induction false} ReplayPrefix(
      a: seq<SessionBatch>, b: seq<SessionBatch>, cursor: nat, all: seq<SessionBatch>)
    requires all == a + b
    ensures Replayed(a, cursor) <= Replayed(all, cursor) && ReplayTimes(a, cursor) <= ReplayTimes(all, cursor)
    decreases |b|
  {
    if b == [] {
      assert all == a;
    } else {
      var front, last := b[..|b| - 1], b[|b| - 1];
      ReplayPrefix(a, front, cursor, a + front);
      assert all == (a + front) + [last];
      ReplayNext(a + front, last, cursor);
    }
  }

  lemma {:induction false} ReplayLengths(batches: seq<SessionBatch>, cursor: nat)
    ensures |ReplayTimes(batches, cursor)| == |Replayed(batches, cursor)|
  {
    if batches != [] {
      var front, last := batches[..|batches| - 1], batches[|batches| - 1];
      ReplayLengths(front, cursor);
      ReplayNext(front, last, cursor);
      assert batches == front + [last];
    }
  }

  lemma LeadLengths(r: Option<Resumed>)
    ensures |LeadTimes(r)| == |Lead(r)|
  {
    if r.Some? {
      ReplayLengths(r.value.batches, r.value.cursor);
    }
  }

  /** A part of the stream and the send time its messages share. */
  ghost predicate Stands(
      stream: seq<ServerMessage>, times: seq<nat>, at: nat, part: seq<ServerMessage>, sendAt: nat)
  {
    && at + |part| <= |stream| == |times|
    && stream[at..at + |part|] == part && times[at..at + |part|] == Repeated(|part|, sendAt)
  }

  lemma SliceOfPrefix<T>(a: seq<T>, b: seq<T>, all: seq<T>)
    requires a + b <= all
    ensures all[|a|..|a| + |b|] == b
  {
    assert all[..|a + b|] == a + b;
    assert all[|a|..|a| + |b|] == all[..|a + b|][|a|..];
  }

  lemma SliceOfConcat<T>(a: seq<T>, b: seq<T>, at: nat, n: nat)
    requires at + n <= |b|
    ensures (a + b)[|a| + at..|a| + at + n] == b[at..at + n]
  {
  }

  lemma SliceOfFirst<T>(a: seq<T>, b: seq<T>, at: nat, n: nat)
    requires at + n <= |a|
    ensures (a + b)[at..at + n] == a[at..at + n]
  {
  }

  /** Extending both lists, in step, by one part. */
  lemma PartStands(
      a: seq<ServerMessage>, ta: seq<nat>, part: seq<ServerMessage>, sendAt: nat,
      stream: seq<ServerMessage>, times: seq<nat>)
    requires |a| == |ta| && |stream| == |times| && a + part <= stream && ta + Repeated(|part|, sendAt) <= times
    ensures Stands(stream, times, |a|, part, sendAt)
  {
    SliceOfPrefix(a, part, stream);
    SliceOfPrefix(ta, Repeated(|part|, sendAt), times);
  }

  lemma LiveStands(floor: nat, front: seq<SessionBatch>, batch: SessionBatch, rest: seq<SessionBatch>)
    ensures var drained := front + [batch] + rest;
      var live, times, at := Live(drained), LiveTimes(floor, drained), |Live(front)|;
      Stands(live, times, at, batch.reports, LiveFloor(floor, front + [batch]))
  {
    var drained, sendAt := front + [batch] + rest, LiveFloor(floor, front + [batch]);
    LiveNext(floor, front, batch);
    LivePrefix(floor, front + [batch], rest, drained);
    LiveLengths(floor, drained);
    LiveLengths(floor, front);
    PartStands(
      Live(front), LiveTimes(floor, front), batch.reports, sendAt, Live(drained), LiveTimes(floor, drained));
  }

  lemma ReplayStands(front: seq<SessionBatch>, batch: SessionBatch, rest: seq<SessionBatch>, cursor: nat)
    ensures var batches := front + [batch] + rest;
      var replay, times, at := Replayed(batches, cursor), ReplayTimes(batches, cursor), |Replayed(front, cursor)|;
      Stands(replay, times, at, Stamped(batch.reports, cursor), ReplayFloor(front + [batch]))
  {
    var batches, part := front + [batch] + rest, Stamped(batch.reports, cursor);
    ReplayNext(front, batch, cursor);
    ReplayPrefix(front + [batch], rest, cursor, batches);
    ReplayLengths(front, cursor);
    ReplayLengths(batches, cursor);
    PartStands(
      Replayed(front, cursor), ReplayTimes(front, cursor), part, ReplayFloor(front + [batch]),
      Replayed(batches, cursor), ReplayTimes(batches, cursor));
  }

  lemma StandsAfter(
      lead: seq<ServerMessage>, times: seq<nat>, stream: seq<ServerMessage>, more: seq<nat>, at: nat,
      part: seq<ServerMessage>, sendAt: nat)
    requires |lead| == |times| && Stands(stream, more, at, part, sendAt)
    ensures var all, allTimes, place := lead + stream, times + more, |lead| + at;
      Stands(all, allTimes, place, part, sendAt)
  {
    SliceOfConcat(lead, stream, at, |part|);
    SliceOfConcat(times, more, at, |part|);
  }

  lemma StandsBefore(
      stream: seq<ServerMessage>, times: seq<nat>, rest: seq<ServerMessage>, more: seq<nat>, at: nat,
      part: seq<ServerMessage>, sendAt: nat)
    requires |rest| == |more| && Stands(stream, times, at, part, sendAt)
    ensures var all, allTimes := stream + rest, times + more; Stands(all, allTimes, at, part, sendAt)
  {
    SliceOfFirst(stream, rest, at, |part|);
    SliceOfFirst(times, more, at, |part|);
  }

  // ----- When they leave ---------------------------------------------------

  ghost predicate AllTravelled(bs: seq<SessionBatch>, now: nat) {
    forall b :: b in bs ==> Travelled(b) <= now
  }

  lemma DueIffAllTravelled(t: nat, bs: seq<SessionBatch>, now: nat)
    requires Latest(t, bs)
    ensures t <= now <==> AllTravelled(bs, now)
  {
  }

  /**
    `part` stands at `at` in the stream, and a write turn at `now`, which took
    the messages from `before` up to `after`, took what was left of it if all of
    `waited` have travelled to the team by then, and otherwise nothing of it.
   */
  ghost predicate LeavesWhenDue(
      stream: seq<ServerMessage>, at: nat, part: seq<ServerMessage>, waited: seq<SessionBatch>,
      before: nat, after: nat, now: nat)
  {
    && at + |part| <= |stream| && stream[at..at + |part|] == part
    && (part != [] && before < at + |part| ==>
          if AllTravelled(waited, now) then at + |part| <= after else after <= Max(at, before))
  }

  lemma StandsLeaves(
      stream: seq<ServerMessage>, times: seq<nat>, at: nat, part: seq<ServerMessage>, sendAt: nat,
      waited: seq<SessionBatch>, before: nat, after: nat, now: nat)
    requires Stands(stream, times, at, part, sendAt) && Latest(sendAt, waited) && TakesDue(times, before, after, now)
    ensures LeavesWhenDue(stream, at, part, waited, before, after, now)
  {
    DueIffAllTravelled(sendAt, waited, now);
    if part != [] && before < at + |part| {
      var first, last, end := Max(at, before), at + |part| - 1, at + |part|;
      assert times[first] == times[at..end][first - at] && times[last] == times[at..end][last - at];
    }
  }

  /**
    The reports of a live batch wait for it, for every live batch with reports
    before it and for every replayed batch, and for nothing else.
   */
  lemma LiveReportsLeaveWhenDue(
      r: Option<Resumed>, front: seq<SessionBatch>, batch: SessionBatch, rest: seq<SessionBatch>,
      before: nat, after: nat, now: nat)
    requires TakesDue(SendTimes(r, front + [batch] + rest), before, after, now)
    ensures var stream, at := Lead(r) + Live(front + [batch] + rest), |Lead(r)| + |Live(front)|;
      LeavesWhenDue(stream, at, batch.reports, WaitedFor(r, front + [batch]), before, after, now)
  {
    var drained, floor := front + [batch] + rest, LeadFloor(r);
    var lead, leadTimes, live, liveTimes := Lead(r), LeadTimes(r), Live(drained), LiveTimes(floor, drained);
    var at, sendAt, waited := |Live(front)|, LiveFloor(floor, front + [batch]), WaitedFor(r, front + [batch]);
    LeadLengths(r);
    LiveStands(floor, front, batch, rest);
    LiveFloorIsLatest(r, front + [batch]);
    StandsAfter(lead, leadTimes, live, liveTimes, at, batch.reports, sendAt);
    StandsLeaves(lead + live, leadTimes + liveTimes, |lead| + at, batch.reports, sendAt, waited, before, after, now);
  }

  /** The replayed reports of a batch wait for it and the replayed batches before it. */
  lemma ReplayedReportsLeaveWhenDue(
      front: seq<SessionBatch>, batch: SessionBatch, rest: seq<SessionBatch>, cursor: nat,
      drained: seq<SessionBatch>, before: nat, after: nat, now: nat)
    requires TakesDue(SendTimes(Some(Resumed(front + [batch] + rest, cursor)), drained), before, after, now)
    ensures var stream := Lead(Some(Resumed(front + [batch] + rest, cursor))) + Live(drained);
      var at, part := |Replayed(front, cursor)|, Stamped(batch.reports, cursor);
      LeavesWhenDue(stream, at, part, front + [batch], before, after, now)
  {
    var q := Resumed(front + [batch] + rest, cursor);
    var at, part, sendAt := |Replayed(front, cursor)|, Stamped(batch.reports, cursor), ReplayFloor(front + [batch]);
    var replay, times, floor := Replayed(q.batches, cursor), ReplayTimes(q.batches, cursor), ReplayFloor(q.batches);
    var live, liveTimes := Live(drained), LiveTimes(floor, drained);
    ReplayStands(front, batch, rest, cursor);
    StandsBefore(replay, times, [ReplayComplete(Through(q.batches, cursor))], [floor], at, part, sendAt);
    LiveLengths(floor, drained);
    var lead, leadTimes := Lead(Some(q)), LeadTimes(Some(q));
    StandsBefore(lead, leadTimes, live, liveTimes, at, part, sendAt);
    ReplayFloorIsLatest(front + [batch]);
    StandsLeaves(lead + live, leadTimes + liveTimes, at, part, sendAt, front + [batch], before, after, now);
  }

  /** The end mark waits for every replayed batch. */
  lemma EndMarkLeavesWhenDue(q: Resumed, drained: seq<SessionBatch>, before: nat, after: nat, now: nat)
    requires TakesDue(SendTimes(Some(q), drained), before, after, now)
    ensures var stream, at := Lead(Some(q)) + Live(drained), |Replayed(q.batches, q.cursor)|;
      LeavesWhenDue(stream, at, [ReplayComplete(Through(q.batches, q.cursor))], q.batches, before, after, now)
  {
    var mark, floor := [ReplayComplete(Through(q.batches, q.cursor))], ReplayFloor(q.batches);
    var replay, times := Replayed(q.batches, q.cursor), ReplayTimes(q.batches, q.cursor);
    var lead, leadTimes, live, liveTimes := Lead(Some(q)), LeadTimes(Some(q)), Live(drained), LiveTimes(floor, drained);
    ReplayLengths(q.batches, q.cursor);
    LiveLengths(floor, drained);
    StandsAfter(replay, times, mark, [floor], 0, mark, floor);
    StandsBefore(lead, leadTimes, live, liveTimes, |replay|, mark, floor);
    ReplayFloorIsLatest(q.batches);
    StandsLeaves(lead + live, leadTimes + liveTimes, |replay|, mark, floor, q.batches, before, after, now);
  }
}
