/**
  One session's consolidated feed (public_feed.rs, TapeFeed) over every run:
  everything that happens to the processor, the snapshot taken in between, the
  session's drains and the snapshot's reply, in any interleaving, with the
  client that reads the feed.
 */
module TapeFeed {
  import opened Words
  import opened Market
  import opened TimedQueue
  import opened Tape
  import opened TapeClient
  import DirectFeed = Feed

  /** What happens to the processor, the record each event publishes, and the processor before, between and after. */
  datatype History = History(events: seq<Happening>, records: seq<seq<Record>>, states: seq<Processor>)

  predicate Shaped(h: History) {
    |h.states| == |h.events| + 1 && |h.records| == |h.events|
  }

  /** Event `n` happens to the state before it. */
  predicate Applies(h: History, n: nat)
    requires Shaped(h) && n < |h.events|
  {
    h.states[n + 1] == Happen(h.states[n], h.events[n]) && h.records[n] == Said(h.states[n], h.events[n])
  }

  predicate Runs(h: History) {
    Shaped(h) && forall n | 0 <= n < |h.events| :: Applies(h, n)
  }

  function At(h: History, n: nat): Processor
    requires n < |h.states|
  {
    h.states[n]
  }

  /** The report numbers of the instrument are counted without saturating. */
  ghost predicate Counts(h: History, i: nat) {
    Runs(h) && 1 <= NextAt(h.states[0], i) && NextAt(h.states[|h.events|], i) < U64_MAX
  }

  /** A change of the instrument. */
  predicate Of(e: Happening, i: nat) {
    e.Applied? && e.change.value.listing.instrument == i
  }

  predicate GapOf(e: Happening, i: nat) {
    Of(e, i) && e.change.value.gap
  }

  function Takes(p: Processor, e: Happening, i: nat): nat {
    if Of(e, i) then Taken(p, e.change.value) else 0
  }

  /** The record event `n` publishes for the instrument, if any. */
  function RecordsOf(h: History, i: nat, n: nat): seq<Record>
    requires n < |h.events| && n < |h.records|
  {
    if Of(h.events[n], i) then h.records[n] else []
  }

  function Gaps(h: History, i: nat, from: nat, to: nat): nat
    requires to <= |h.events|
  {
    if to <= from then 0 else Gaps(h, i, from, to - 1) + (if GapOf(h.events[to - 1], i) then 1 else 0)
  }

  lemma {:induction false} GapsAdd(h: History, i: nat, a: nat, b: nat, c: nat)
    requires a <= b <= c <= |h.events|
    ensures Gaps(h, i, a, c) == Gaps(h, i, a, b) + Gaps(h, i, b, c)
  {
    if b < c {
      GapsAdd(h, i, a, b, c - 1);
    }
  }

  // ----- Report numbers ----------------------------------------------------

  lemma {:induction false} NumbersBelow(h: History, i: nat, n: nat)
    requires Counts(h, i) && n <= |h.events|
    ensures NextAt(At(h, n), i) < U64_MAX
    decreases |h.events| - n
  {
    if n < |h.events| {
      NumbersBelow(h, i, n + 1);
      assert Applies(h, n);
      AdvanceGrows(At(h, n), h.events[n], i);
    }
  }

  /** Numbers never come back from the end of the range. */
  lemma AdvanceGrows(p: Processor, e: Happening, i: nat)
    requires NextAt(Happen(p, e), i) < U64_MAX
    ensures NextAt(p, i) < U64_MAX && NextAt(Happen(p, e), i) == NextAt(p, i) + Takes(p, e, i)
  {
  }

  lemma {:induction false} NumbersAbove(h: History, i: nat, n: nat)
    requires Counts(h, i) && n <= |h.events|
    ensures 1 <= NextAt(At(h, n), i)
  {
    if n > 0 {
      NumbersAbove(h, i, n - 1);
      NumbersBelow(h, i, n);
      assert Applies(h, n - 1);
      AdvanceGrows(At(h, n - 1), h.events[n - 1], i);
    }
  }

  /** An event takes exactly its numbers. */
  lemma NumbersTaken(h: History, i: nat, n: nat)
    requires Counts(h, i) && n < |h.events|
    ensures NextAt(At(h, n + 1), i) == NextAt(At(h, n), i) + Takes(At(h, n), h.events[n], i)
  {
    NumbersBelow(h, i, n + 1);
    assert Applies(h, n);
    AdvanceGrows(At(h, n), h.events[n], i);
  }

  lemma {:induction false} NumbersRise(h: History, i: nat, m: nat, n: nat)
    requires Counts(h, i) && m <= n <= |h.events|
    ensures NextAt(At(h, m), i) <= NextAt(At(h, n), i)
  {
    if m < n {
      NumbersRise(h, i, m, n - 1);
      NumbersTaken(h, i, n - 1);
    }
  }

  // ----- What a client can know --------------------------------------------

  /**
    A side the client does not know: a prime since the snapshot gave it to a
    listing the processor did not know, without a record or a number, and no
    record has moved it since.
   */
  predicate Missed(h: History, p: nat, at: nat, k: ListingKey, side: Side)
    requires Shaped(h) && at <= |h.events|
  {
    at > p &&
    var before := At(h, at - 1);
    match h.events[at - 1]
    case Primed(quotes) =>
      || Missed(h, p, at - 1, k, side)
      || (k !in before.quotes && k in quotes && SideOf(quotes[k], side).Some?)
    case Applied(it) =>
      && Missed(h, p, at - 1, k, side)
      && !(it.value.listing == k && SideOf(QuotesAt(before, k), side) != SideOf(it.value.quotes, side))
  }

  /** The client's quotes are the processor's, but for the sides it missed, which it does not hold. */
  ghost predicate Matches(v: View, h: History, p: nat, at: nat, k: ListingKey, side: Side)
    requires Shaped(h) && at <= |h.events|
  {
    var truth := SideOf(QuotesAt(At(h, at), k), side);
    if Missed(h, p, at, k, side) then SideOf(Look(v, k), side).None? && truth.Some?
    else SideOf(Look(v, k), side) == truth
  }

  ghost predicate HoldsQuotes(v: View, h: History, i: nat, p: nat, at: nat)
    requires Shaped(h) && at <= |h.events|
  {
    forall k: ListingKey, side: Side | k.instrument == i :: Matches(v, h, p, at, k, side)
  }

  ghost predicate NothingMissed(h: History, i: nat, p: nat, at: nat)
    requires Shaped(h) && at <= |h.events|
  {
    forall k: ListingKey, side: Side | k.instrument == i :: !Missed(h, p, at, k, side)
  }

  /** So the client quotes the instrument as the processor does if and only if it missed no side. */
  lemma ShowsIffNothingMissed(v: View, h: History, i: nat, p: nat, at: nat)
    requires Shaped(h) && at <= |h.events| && HoldsQuotes(v, h, i, p, at)
    ensures Shows(v, At(h, at), i) <==> NothingMissed(h, i, p, at)
  {
    if NothingMissed(h, i, p, at) {
      forall k: ListingKey | k.instrument == i ensures Look(v, k) == QuotesAt(At(h, at), k) {
        assert Matches(v, h, p, at, k, Buy) && Matches(v, h, p, at, k, Sell);
        assert !Missed(h, p, at, k, Buy) && !Missed(h, p, at, k, Sell);
      }
    }
    if Shows(v, At(h, at), i) {
      forall k: ListingKey, side: Side | k.instrument == i ensures !Missed(h, p, at, k, side) {
        assert Matches(v, h, p, at, k, side);
      }
    }
  }

  /** A prime that gives quotes to a listing the processor did not know. */
  predicate Reveals(p: Processor, e: Happening, k: ListingKey) {
    e.Primed? && k !in p.quotes && k in e.quotes && e.quotes[k] != NO_QUOTES
  }

  /** Without such a prime since the snapshot nothing is missed; once all listings are known there can be none. */
  lemma {:induction false} NothingRevealedNothingMissed(h: History, p: nat, at: nat, k: ListingKey, side: Side)
    requires Shaped(h) && at <= |h.events|
    requires forall n | p <= n < at :: !Reveals(At(h, n), h.events[n], k)
    ensures !Missed(h, p, at, k, side)
  {
    if at > p {
      NothingRevealedNothingMissed(h, p, at - 1, k, side);
      assert !Reveals(At(h, at - 1), h.events[at - 1], k);
    }
  }

  lemma ChangeMatches(v: View, h: History, p: nat, at: nat, k: ListingKey, side: Side)
    requires Runs(h) && p <= at < |h.events| && h.events[at].Applied? && Matches(v, h, p, at, k, side)
    ensures Matches(ApplyEntries(v, EntriesOf(At(h, at), h.events[at].change.value)), h, p, at + 1, k, side)
  {
    assert Applies(h, at);
    RecordApplies(v, At(h, at), h.events[at].change.value, k, side);
  }

  lemma OtherMatches(v: View, h: History, p: nat, at: nat, k: ListingKey, side: Side)
    requires Runs(h) && p <= at < |h.events| && Matches(v, h, p, at, k, side) && !Of(h.events[at], k.instrument)
    ensures Matches(v, h, p, at + 1, k, side)
  {
    assert Applies(h, at);
  }

  lemma HoldsAfterChange(v: View, h: History, i: nat, p: nat, at: nat)
    requires Runs(h) && p <= at < |h.events| && h.events[at].Applied? && HoldsQuotes(v, h, i, p, at)
    ensures HoldsQuotes(ApplyEntries(v, EntriesOf(At(h, at), h.events[at].change.value)), h, i, p, at + 1)
  {
    var w, next := ApplyEntries(v, EntriesOf(At(h, at), h.events[at].change.value)), at + 1;
    forall k: ListingKey, side: Side | k.instrument == i ensures Matches(w, h, p, next, k, side) {
      assert Matches(v, h, p, at, k, side);
      ChangeMatches(v, h, p, at, k, side);
    }
  }

  lemma HoldsAfterOther(v: View, h: History, i: nat, p: nat, at: nat)
    requires Runs(h) && p <= at < |h.events| && !Of(h.events[at], i) && HoldsQuotes(v, h, i, p, at)
    ensures HoldsQuotes(v, h, i, p, at + 1)
  {
    var next := at + 1;
    forall k: ListingKey, side: Side | k.instrument == i ensures Matches(v, h, p, next, k, side) {
      assert Matches(v, h, p, at, k, side);
      OtherMatches(v, h, p, at, k, side);
    }
  }

  // ----- The client --------------------------------------------------------

  /** One record as the client received it: the change it came from, the numbers it skipped. */
  datatype Receipt = Receipt(since: nat, change: nat, record: Record, skipped: int, contiguous: bool, view: View)

  datatype Client = Client(view: View, next: nat, contiguous: bool, since: nat, received: seq<Receipt>)

  /** A record on its way through the session, with the change it came from. */
  datatype Sent = Sent(change: nat, record: Record)

  function Receive(c: Client, m: Sent): Client {
    var view := ApplyEntries(c.view, m.record.entries);
    var contiguous := c.contiguous && m.record.firstReport == c.next;
    Client(view, m.record.firstReport + |m.record.entries|, contiguous, m.change + 1,
           c.received + [Receipt(c.since, m.change, m.record, m.record.firstReport - c.next, contiguous, view)])
  }

  function ReceiveOne(c: Client, m: Option<Sent>): Client {
    if m.Some? then Receive(c, m.value) else c
  }

  function ReceiveAll(c: Client, ms: seq<Sent>): Client {
    Fold(Receive, c, ms)
  }

  /** The session's feed: buffering until the reply, then only records after the snapshot's last report. */
  datatype Feed = Feed(instrument: nat, pending: Option<seq<Sent>>, after: nat)

  function SentBy(h: History, i: nat, n: nat): Option<Sent>
    requires n < |h.events| && n < |h.records|
  {
    if RecordsOf(h, i, n) == [] then None else Some(Sent(n, RecordsOf(h, i, n)[0]))
  }

  function Listed(m: Option<Sent>): seq<Sent> {
    if m.Some? then [m.value] else []
  }

  /** The instrument's records among changes `from..to`. */
  function SentIn(h: History, i: nat, from: nat, to: nat): seq<Sent>
    requires to <= |h.events| && to <= |h.records|
  {
    if to <= from then [] else SentIn(h, i, from, to - 1) + Listed(SentBy(h, i, to - 1))
  }

  /** A record already in the snapshot is not sent again. */
  function Passes(m: Option<Sent>, after: nat): Option<Sent> {
    if m.Some? && m.value.record.firstReport <= after then None else m
  }

  function Following(ms: seq<Sent>, after: nat): seq<Sent> {
    Fold(KeepPassing(after), [], ms)
  }

  function KeepPassing(after: nat): (seq<Sent>, Sent) -> seq<Sent> {
    (kept: seq<Sent>, m: Sent) => kept + Listed(Passes(Some(m), after))
  }

  // ----- What every record keeps -------------------------------------------

  /** The claims about one received record. */
  ghost predicate Good(h: History, i: nat, p: nat, r: Receipt)
    requires Shaped(h)
  {
    && p <= r.since <= r.change < |h.events|
    && RecordsOf(h, i, r.change) == [r.record]
    && r.skipped == Gaps(h, i, r.since, r.change)
    && (r.contiguous <==> Gaps(h, i, p, r.change) == 0)
    && (r.contiguous ==> HoldsQuotes(r.view, h, i, p, r.change + 1))
  }

  ghost predicate AllGood(h: History, i: nat, p: nat, rs: seq<Receipt>)
    requires Shaped(h)
  {
    forall j | 0 <= j < |rs| :: GoodAt(h, i, p, rs, j)
  }

  ghost predicate GoodAt(h: History, i: nat, p: nat, rs: seq<Receipt>, j: nat)
    requires Shaped(h) && j < |rs|
  {
    Good(h, i, p, rs[j])
  }

  function Received(rs: seq<Receipt>): seq<Sent> {
    seq(|rs|, j requires 0 <= j < |rs| => Sent(rs[j].change, rs[j].record))
  }

  ghost predicate Numbered(h: History, i: nat, p: nat, c: Client, at: nat)
    requires Shaped(h) && at <= |h.events|
  {
    && p <= c.since <= at
    && c.next + Gaps(h, i, c.since, at) == NextAt(At(h, at), i)
    && (c.contiguous <==> Gaps(h, i, p, c.since) == 0)
  }

  ghost predicate Seen(h: History, i: nat, p: nat, c: Client, at: nat)
    requires Shaped(h) && at <= |h.events|
  {
    Received(c.received) == SentIn(h, i, p, at) && AllGood(h, i, p, c.received)
  }

  /** Client `c` has read everything up to change `at`, from a snapshot at change `p`. */
  ghost predicate Sync(h: History, i: nat, p: nat, c: Client, at: nat)
    requires Shaped(h)
  {
    && p <= at <= |h.events|
    && Numbered(h, i, p, c, at) && Seen(h, i, p, c, at)
    && (Gaps(h, i, p, at) == 0 ==> HoldsQuotes(c.view, h, i, p, at))
  }

  lemma QuietStep(h: History, i: nat, p: nat, c: Client, at: nat)
    requires Counts(h, i) && Sync(h, i, p, c, at) && at < |h.events| && SentBy(h, i, at).None?
    ensures Sync(h, i, p, c, at + 1)
  {
    NumbersTaken(h, i, at);
    assert Applies(h, at);
    if Gaps(h, i, p, at + 1) == 0 {
      if Of(h.events[at], i) {
        HoldsAfterChange(c.view, h, i, p, at);
      } else {
        HoldsAfterOther(c.view, h, i, p, at);
      }
    }
  }

  lemma NumberedAfterRecord(h: History, i: nat, p: nat, c: Client, d: Client, at: nat)
    requires Shaped(h) && at < |h.events| && Numbered(h, i, p, c, at) && !GapOf(h.events[at], i)
    requires d.next == NextAt(At(h, at + 1), i) && d.since == at + 1
    requires d.contiguous <==> c.contiguous && NextAt(At(h, at), i) == c.next
    ensures Numbered(h, i, p, d, at + 1)
    ensures d.contiguous <==> Gaps(h, i, p, at) == 0
  {
    GapsAdd(h, i, p, c.since, at);
    assert Gaps(h, i, p, at + 1) == Gaps(h, i, p, at);
  }

  lemma SeenAfterRecord(h: History, i: nat, p: nat, c: Client, d: Client, at: nat, r: Receipt)
    requires Shaped(h) && p <= at < |h.events| && Seen(h, i, p, c, at) && SentBy(h, i, at) == Some(Sent(at, r.record))
    requires d.received == c.received + [r] && r.change == at && Good(h, i, p, r)
    ensures Seen(h, i, p, d, at + 1)
  {
    assert Received(d.received) == Received(c.received) + [Sent(at, r.record)];
    forall j | 0 <= j < |d.received| ensures GoodAt(h, i, p, d.received, j) {
      if j < |c.received| {
        assert GoodAt(h, i, p, c.received, j);
      }
    }
  }

  lemma RecordStep(h: History, i: nat, p: nat, c: Client, at: nat)
    requires Counts(h, i) && Sync(h, i, p, c, at) && at < |h.events| && SentBy(h, i, at).Some?
    ensures Sync(h, i, p, Receive(c, SentBy(h, i, at).value), at + 1)
  {
    var d := Receive(c, SentBy(h, i, at).value);
    NumbersTaken(h, i, at);
    assert Applies(h, at);
    NumberedAfterRecord(h, i, p, c, d, at);
    if Gaps(h, i, p, at) == 0 {
      HoldsAfterChange(c.view, h, i, p, at);
    }
    SeenAfterRecord(h, i, p, c, d, at, d.received[|c.received|]);
  }

  /** Every change, whatever it publishes, keeps the client in step with the processor. */
  lemma ReadKeeps(h: History, i: nat, p: nat, c: Client, at: nat)
    requires Counts(h, i) && Sync(h, i, p, c, at) && at < |h.events|
    ensures var d := ReceiveOne(c, SentBy(h, i, at)); Sync(h, i, p, d, at + 1)
  {
    if SentBy(h, i, at).None? {
      QuietStep(h, i, p, c, at);
    } else {
      RecordStep(h, i, p, c, at);
    }
  }

  // ----- Buffering and filtering -------------------------------------------

  /** The snapshot's last report. */
  function Last(h: History, i: nat, p: nat): nat
    requires p < |h.states|
  {
    SnapshotOf(At(h, p), i).0
  }

  /** Exactly the records of changes the snapshot does not hold follow its last report. */
  lemma PassesAfterSnapshot(h: History, i: nat, p: nat, n: nat)
    requires Counts(h, i) && p <= |h.events| && n < |h.events|
    ensures Passes(SentBy(h, i, n), Last(h, i, p)) == if p <= n then SentBy(h, i, n) else None
  {
    assert Applies(h, n);
    NumbersTaken(h, i, n);
    NumbersAbove(h, i, p);
    if p <= n {
      NumbersRise(h, i, p, n);
    } else {
      NumbersRise(h, i, n + 1, p);
    }
  }

  /** `last` tells the records before change `p` from those after it. */
  predicate Divides(h: History, i: nat, p: nat, last: nat, n: nat)
    requires Shaped(h) && n < |h.events|
  {
    Passes(SentBy(h, i, n), last) == if p <= n then SentBy(h, i, n) else None
  }

  lemma {:induction false} PassedDivides(h: History, i: nat, p: nat, last: nat, a: nat, b: nat)
    requires Shaped(h) && a <= p && b <= |h.events| && forall n | a <= n < b :: Divides(h, i, p, last, n)
    ensures FoldTo(KeepPassing(last), [], h, i, a, b) == SentIn(h, i, p, b)
  {
    if a < b {
      PassedDivides(h, i, p, last, a, b - 1);
      assert Divides(h, i, p, last, b - 1);
    }
  }

  lemma FollowingRange(h: History, i: nat, p: nat, a: nat, b: nat)
    requires Counts(h, i) && p <= |h.events| && a <= p && b <= |h.events|
    ensures Following(SentIn(h, i, a, b), Last(h, i, p)) == SentIn(h, i, p, b)
  {
    forall n | a <= n < b ensures Divides(h, i, p, Last(h, i, p), n) {
      PassesAfterSnapshot(h, i, p, n);
    }
    FoldToIsFold(KeepPassing(Last(h, i, p)), [], h, i, a, b);
    PassedDivides(h, i, p, Last(h, i, p), a, b);
  }

  lemma FoldMore<B>(f: (B, Sent) -> B, b: B, ms: seq<Sent>, m: Option<Sent>, all: seq<Sent>)
    requires all == ms + Listed(m)
    ensures Fold(f, b, all) == if m.Some? then f(Fold(f, b, ms), m.value) else Fold(f, b, ms)
  {
    if m.Some? {
      assert all[..|all| - 1] == ms;
    } else {
      assert all == ms;
    }
  }

  /** Folding change by change is folding the records sent. */
  function FoldTo<B>(f: (B, Sent) -> B, b: B, h: History, i: nat, p: nat, at: nat): B
    requires Shaped(h) && at <= |h.events|
  {
    if at <= p then b
    else
      var before, m := FoldTo(f, b, h, i, p, at - 1), SentBy(h, i, at - 1);
      if m.Some? then f(before, m.value) else before
  }

  lemma {:induction false} FoldToIsFold<B>(f: (B, Sent) -> B, b: B, h: History, i: nat, p: nat, at: nat)
    requires Shaped(h) && at <= |h.events|
    ensures FoldTo(f, b, h, i, p, at) == Fold(f, b, SentIn(h, i, p, at))
  {
    if p < at {
      FoldToIsFold(f, b, h, i, p, at - 1);
      FoldMore(f, b, SentIn(h, i, p, at - 1), SentBy(h, i, at - 1), SentIn(h, i, p, at));
    }
  }

  /** The client after each record from the snapshot on. */
  function ReadTo(h: History, i: nat, p: nat, c: Client, at: nat): Client
    requires Shaped(h) && at <= |h.events|
  {
    FoldTo(Receive, c, h, i, p, at)
  }

  lemma {:induction false} ReadRange(h: History, i: nat, p: nat, c: Client, at: nat)
    requires Counts(h, i) && Sync(h, i, p, c, p) && p <= at <= |h.events|
    ensures var d := ReadTo(h, i, p, c, at); Sync(h, i, p, d, at)
  {
    if p < at {
      ReadRange(h, i, p, c, at - 1);
      ReadKeeps(h, i, p, ReadTo(h, i, p, c, at - 1), at - 1);
    }
  }

  // ----- The system --------------------------------------------------------

  datatype System = System(
    applied: nat,              // changes the processor has applied
    drained: nat,              // changes whose records the session has drained
    subscribedAt: nat,         // changes drained when the feed was registered
    feed: Feed,
    snapshot: Option<nat>,     // changes applied when the snapshot was taken
    client: Client,
    closed: bool)              // the session disconnected

  datatype Step = Apply | TakeSnapshot | Drain | Reply

  function Start(i: nat, applied: nat, drained: nat): System {
    System(applied, drained, drained, Feed(i, Some([]), 0), None, Client(map[], 1, true, 0, []), false)
  }

  function DrainNext(h: History, s: System): System
    requires s.drained < |h.events| && s.drained < |h.records|
  {
    var m := SentBy(h, s.feed.instrument, s.drained);
    var t := s.(drained := s.drained + 1);
    match s.feed.pending
    case Some(buffer) =>
      if m.Some? && |buffer| >= DirectFeed.MAX_BUFFERED_BATCHES then t.(closed := true)
      else t.(feed := s.feed.(pending := Some(buffer + Listed(m))))
    case None => t.(client := ReceiveOne(s.client, Passes(m, s.feed.after)))
  }

  function SnapshotClient(h: History, i: nat, p: nat): Client
    requires p < |h.states|
  {
    Client(SnapshotOf(At(h, p), i).1, Last(h, i, p) + 1, true, p, [])
  }

  /** The reply: the client reads the snapshot, then the buffered records after its last report. */
  function Join(h: History, s: System): System
    requires s.snapshot.Some? && s.snapshot.value < |h.states| && s.feed.pending.Some?
  {
    var p, i := s.snapshot.value, s.feed.instrument;
    s.(feed := Feed(i, None, Last(h, i, p)),
       client := ReceiveAll(SnapshotClient(h, i, p), Following(s.feed.pending.value, Last(h, i, p))))
  }

  function Next(h: History, s: System, step: Step): System
    requires Shaped(h)
  {
    if s.closed then s
    else match step
      case Apply => if s.applied < |h.events| then s.(applied := s.applied + 1) else s
      case TakeSnapshot => if s.snapshot.None? then s.(snapshot := Some(s.applied)) else s
      case Drain => if s.drained < s.applied && s.drained < |h.events| then DrainNext(h, s) else s
      case Reply => if s.snapshot.Some? && s.snapshot.value <= |h.events| && s.feed.pending.Some? then Join(h, s) else s
  }

  function Run(h: History, s: System, steps: seq<Step>): System
    requires Shaped(h)
    decreases |steps|
  {
    if steps == [] then s else Run(h, Next(h, s, steps[0]), steps[1..])
  }

  ghost predicate Inv(h: History, i: nat, s: System)
    requires Shaped(h)
  {
    && s.feed.instrument == i
    && s.subscribedAt <= s.drained <= s.applied <= |h.events|
    && (s.snapshot.Some? ==> s.subscribedAt <= s.snapshot.value <= s.applied)
    && (s.feed.pending.Some? && !s.closed ==> s.feed.pending.value == SentIn(h, i, s.subscribedAt, s.drained))
    && (s.feed.pending.None? ==>
          && s.snapshot.Some? && s.feed.after == Last(h, i, s.snapshot.value)
          && Sync(h, i, s.snapshot.value, s.client, Reached(s.snapshot.value, s.drained)))
  }

  /** The changes a client has read: those of its snapshot, and every later one drained. */
  function Reached(p: nat, drained: nat): nat {
    if drained < p then p else drained
  }

  /** A client that has just read the snapshot. */
  lemma JoinedAtSnapshot(h: History, i: nat, p: nat)
    requires Counts(h, i) && p <= |h.events|
    ensures var c := SnapshotClient(h, i, p); Sync(h, i, p, c, p)
  {
    NumbersAbove(h, i, p);
    var c := SnapshotClient(h, i, p);
    forall k: ListingKey, side: Side | k.instrument == i ensures Matches(c.view, h, p, p, k, side) {
    }
  }

  lemma JoinedClient(h: History, i: nat, p: nat, c: Client, from: nat, drained: nat)
    requires Counts(h, i) && from <= p <= |h.events| && from <= drained <= |h.events| && c == SnapshotClient(h, i, p)
    ensures var d := ReceiveAll(c, Following(SentIn(h, i, from, drained), Last(h, i, p)));
        Sync(h, i, p, d, Reached(p, drained))
  {
    JoinedAtSnapshot(h, i, p);
    FollowingRange(h, i, p, from, drained);
    if p <= drained {
      ReadRange(h, i, p, c, drained);
      FoldToIsFold(Receive, c, h, i, p, drained);
    } else {
      assert ReceiveAll(c, []) == c;
    }
  }

  lemma JoinKeeps(h: History, i: nat, s: System)
    requires Counts(h, i) && Inv(h, i, s) && !s.closed && s.snapshot.Some? && s.feed.pending.Some?
    ensures var t := Join(h, s); Inv(h, i, t)
  {
    var p := s.snapshot.value;
    JoinedClient(h, i, p, SnapshotClient(h, i, p), s.subscribedAt, s.drained);
  }

  lemma DrainedClient(h: History, i: nat, p: nat, c: Client, drained: nat)
    requires Counts(h, i) && p <= |h.events| && drained < |h.events| && Sync(h, i, p, c, Reached(p, drained))
    ensures var d := ReceiveOne(c, Passes(SentBy(h, i, drained), Last(h, i, p)));
        Sync(h, i, p, d, Reached(p, drained + 1))
  {
    PassesAfterSnapshot(h, i, p, drained);
    if p <= drained {
      ReadKeeps(h, i, p, c, drained);
    }
  }

  lemma DrainWaiting(h: History, i: nat, s: System)
    requires Shaped(h) && Inv(h, i, s) && !s.closed && s.drained < s.applied && s.feed.pending.Some?
    ensures var t := DrainNext(h, s); Inv(h, i, t)
  {
  }

  lemma DrainActive(h: History, i: nat, s: System)
    requires Counts(h, i) && Inv(h, i, s) && !s.closed && s.drained < s.applied && s.feed.pending.None?
    ensures var t := DrainNext(h, s); Inv(h, i, t)
  {
    var p := s.snapshot.value;
    var c := ReceiveOne(s.client, Passes(SentBy(h, i, s.drained), Last(h, i, p)));
    DrainedClient(h, i, p, s.client, s.drained);
    AdvancedClient(h, i, s, s.(drained := s.drained + 1, client := c));
  }

  lemma AdvancedClient(h: History, i: nat, s: System, t: System)
    requires Shaped(h) && Inv(h, i, s) && s.feed.pending.None? && t == s.(drained := t.drained, client := t.client)
    requires s.drained <= t.drained <= s.applied
        && Sync(h, i, s.snapshot.value, t.client, Reached(s.snapshot.value, t.drained))
    ensures Inv(h, i, t)
  {
  }

  lemma NextKeeps(h: History, i: nat, s: System, step: Step)
    requires Counts(h, i) && Inv(h, i, s)
    ensures var t := Next(h, s, step); Inv(h, i, t)
  {
    if !s.closed && step.Drain? && s.drained < s.applied {
      if s.feed.pending.Some? {
        DrainWaiting(h, i, s);
      } else {
        DrainActive(h, i, s);
      }
    } else if !s.closed && step.Reply? && s.snapshot.Some? && s.feed.pending.Some? {
      JoinKeeps(h, i, s);
    }
  }

  lemma {:induction false} RunKeeps(h: History, i: nat, s: System, steps: seq<Step>)
    requires Counts(h, i) && Inv(h, i, s)
    ensures Inv(h, i, Run(h, s, steps))
    decreases |steps|
  {
    if steps != [] {
      NextKeeps(h, i, s, steps[0]);
      RunKeeps(h, i, Next(h, s, steps[0]), steps[1..]);
    }
  }

  /**
    The consolidated-feed theorem. On every run, whatever the order of drains
    and reply, the client has received exactly the instrument's records of the
    changes after its snapshot: none the snapshot already holds, none lost. Each
    skips one number for every gap since the record before it, is contiguous
    exactly while there was no gap, and then leaves the processor's own quotes
    but for the sides a prime gave it unsaid; so it leaves exactly the
    processor's quotes if and only if no such side is still unsaid.
   */
  lemma ContiguousClientHoldsTheQuotes(h: History, i: nat, applied: nat, drained: nat, steps: seq<Step>)
    requires Counts(h, i) && drained <= applied <= |h.events|
    ensures var s := Run(h, Start(i, applied, drained), steps);
      s.feed.pending.None? ==>
        && s.snapshot.Some? && s.snapshot.value <= |h.events|
        && s.drained <= |h.events|
        && var p, at := s.snapshot.value, Reached(s.snapshot.value, s.drained);
        && Received(s.client.received) == SentIn(h, i, p, at)
        && AllGood(h, i, p, s.client.received)
        && (forall r :: r in s.client.received && r.contiguous ==>
              r.change < |h.events|
                && (Shows(r.view, At(h, r.change + 1), i) <==> NothingMissed(h, i, p, r.change + 1)))
        && (Gaps(h, i, p, at) == 0 ==> (Shows(s.client.view, At(h, at), i) <==> NothingMissed(h, i, p, at)))
  {
    RunKeeps(h, i, Start(i, applied, drained), steps);
    var s := Run(h, Start(i, applied, drained), steps);
    if s.feed.pending.None? {
      var p, at := s.snapshot.value, Reached(s.snapshot.value, s.drained);
      forall r | r in s.client.received && r.contiguous
        ensures r.change < |h.events|
            && (Shows(r.view, At(h, r.change + 1), i) <==> NothingMissed(h, i, p, r.change + 1))
      {
        ReceiptIsGood(h, i, p, s.client.received, r);
        ShowsIffNothingMissed(r.view, h, i, p, r.change + 1);
      }
      if Gaps(h, i, p, at) == 0 {
        ShowsIffNothingMissed(s.client.view, h, i, p, at);
      }
    }
  }

  lemma ReceiptIsGood(h: History, i: nat, p: nat, rs: seq<Receipt>, r: Receipt)
    requires Shaped(h) && AllGood(h, i, p, rs) && r in rs
    ensures Good(h, i, p, r)
  {
    var j :| 0 <= j < |rs| && rs[j] == r;
    assert GoodAt(h, i, p, rs, j);
  }

  // ----- The history of a processor ----------------------------------------

  function OfInstrument(rs: seq<Record>, i: nat): seq<Record> {
    if rs == [] then []
    else OfInstrument(rs[..|rs| - 1], i) + if rs[|rs| - 1].instrument == i then [rs[|rs| - 1]] else []
  }

  function RecordsSent(ms: seq<Sent>): seq<Record> {
    seq(|ms|, j requires 0 <= j < |ms| => ms[j].record)
  }

  /** The history of a processor to which `events` happen. */
  function HistoryOf(start: Processor, events: seq<Happening>): (h: History)
    ensures Shaped(h) && h.events == events
  {
    var states := seq(|events| + 1, n requires 0 <= n <= |events| => HappenAll(start, events[..n]));
    History(events, seq(|events|, n requires 0 <= n < |events| => Said(states[n], events[n])), states)
  }

  lemma HistoryRuns(start: Processor, events: seq<Happening>)
    ensures Runs(HistoryOf(start, events))
  {
    var h := HistoryOf(start, events);
    forall n | 0 <= n < |events| ensures Applies(h, n) {
      assert events[..n + 1][..n] == events[..n];
    }
  }

  /** What the processor publishes for an instrument is what the history sends. */
  lemma {:induction false} HistoryIsPublished(start: Processor, events: seq<Happening>, i: nat, n: nat)
    requires n <= |events|
    ensures OfInstrument(SaidAll(start, events[..n]), i) == RecordsSent(SentIn(HistoryOf(start, events), i, 0, n))
  {
    if n > 0 {
      HistoryIsPublished(start, events, i, n - 1);
      PublishedNext(start, events, i, n - 1);
      var h := HistoryOf(start, events);
      RecordsSentMore(SentIn(h, i, 0, n - 1), Listed(SentBy(h, i, n - 1)));
    }
  }

  lemma RecordsSentMore(a: seq<Sent>, b: seq<Sent>)
    ensures RecordsSent(a + b) == RecordsSent(a) + RecordsSent(b)
  {
  }

  lemma PublishedNext(start: Processor, events: seq<Happening>, i: nat, n: nat)
    requires n < |events|
    ensures OfInstrument(SaidAll(start, events[..n + 1]), i)
         == OfInstrument(SaidAll(start, events[..n]), i) + RecordsSent(Listed(SentBy(HistoryOf(start, events), i, n)))
  {
    var h := HistoryOf(start, events);
    assert events[..n + 1][..n] == events[..n];
    OfInstrumentMore(SaidAll(start, events[..n]), h.records[n], i);
    assert RecordsSent(Listed(SentBy(h, i, n))) == RecordsOf(h, i, n);
  }

  lemma OfInstrumentMore(rs: seq<Record>, r: seq<Record>, i: nat)
    requires |r| <= 1
    ensures OfInstrument(rs + r, i) == OfInstrument(rs, i) + if r != [] && r[0].instrument == i then r else []
  {
    if r == [] {
      assert rs + r == rs;
    } else {
      assert (rs + r)[..|rs|] == rs && r == [r[0]];
    }
  }
}
