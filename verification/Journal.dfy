/**
  The append-only native journal (commit_journal.rs): framing, scanning and the
  repair of a crash tail, over the bytes of the file.

  Serialization and SHA-256 are parameters: a codec whose decoding undoes its
  encoding, and any digest of 32 bytes. The visitor of a scan is a function of
  the entries it has visited and the next one.
 */
module Journal {
  import opened Words

  newtype Byte = x: int | 0 <= x < 256

  type Bytes = seq<Byte>

  const MAGIC: Bytes := [66, 85, 78, 84, 87, 65, 76, 51] // BUNTWAL3
  const HEADER_SIZE: nat := 48
  const MAX_RECORD_BYTES: nat := 256 * 1024 * 1024

  datatype Codec<!E> = Codec(encode: E -> Bytes, decode: Bytes -> Option<E>, digest: Bytes -> Bytes)

  ghost predicate Lawful<E(!new)>(c: Codec<E>) {
    && (forall e: E :: c.decode(c.encode(e)) == Some(e))
    && (forall b: Bytes :: |c.digest(b)| == 32)
  }

  /** `visit`: whether the visitor accepts an entry after those already visited. */
  type Visitor<!E> = (seq<E>, E) -> bool

  // ----- Little-endian lengths ---------------------------------------------

  function LittleEndian(n: nat, width: nat): (r: Bytes)
    ensures |r| == width
  {
    if width == 0 then [] else [(n % 256) as Byte] + LittleEndian(n / 256, width - 1)
  }

  function FromLittleEndian(b: Bytes): nat {
    if b == [] then 0 else b[0] as nat + 256 * FromLittleEndian(b[1..])
  }

  function Power256(n: nat): nat {
    if n == 0 then 1 else 256 * Power256(n - 1)
  }

  lemma {:induction false} LittleEndianRoundTrip(n: nat, width: nat)
    requires n < Power256(width)
    ensures FromLittleEndian(LittleEndian(n, width)) == n
  {
    if width > 0 {
      LittleEndianRoundTrip(n / 256, width - 1);
      assert LittleEndian(n, width)[1..] == LittleEndian(n / 256, width - 1);
    }
  }

  lemma RecordLengthFits(n: nat)
    requires n <= MAX_RECORD_BYTES
    ensures n < Power256(8)
  {
    assert Power256(4) == 256 * (256 * (256 * (256 * 1)));
    assert Power256(8) == 256 * (256 * (256 * (256 * Power256(4))));
  }

  // ----- Frames ------------------------------------------------------------

  function Frame<E>(c: Codec<E>, payload: Bytes): Bytes {
    MAGIC + LittleEndian(|payload|, 8) + c.digest(payload) + payload
  }

  function FrameLength(bytes: Bytes): nat
    requires |bytes| >= HEADER_SIZE
  {
    FromLittleEndian(bytes[8..16])
  }

  datatype Head<E> =
    | Torn                              // an incomplete final frame
    | Bad                               // a complete or recognisable frame that is invalid
    | Record(entry: E, length: nat)     // one complete frame and its total length

  /** What a scan finds at the front of the unread, non-empty bytes. */
  function ReadFrame<E>(c: Codec<E>, bytes: Bytes): Head<E> {
    if |bytes| < HEADER_SIZE then Torn
    else if bytes[..8] != MAGIC then Bad
    else
      var length := FrameLength(bytes);
      if length == 0 || length > MAX_RECORD_BYTES then Bad
      else if length > |bytes| - HEADER_SIZE then Torn
      else
        var payload := bytes[HEADER_SIZE..HEADER_SIZE + length];
        if c.digest(payload) != bytes[16..HEADER_SIZE] then Bad
        else match c.decode(payload)
          case None => Bad
          case Some(entry) => Record(entry, HEADER_SIZE + length)
  }

  /** The result of a scan: the entries visited and how far it read, if it succeeded. */
  datatype Scanned<E> = Scanned(entries: seq<E>, good: nat, ok: bool)

  /** The simple form of the scan: frame by frame from the front. */
  function Scan<E>(c: Codec<E>, visit: Visitor<E>, visited: seq<E>, bytes: Bytes): (r: Scanned<E>)
    ensures r.good <= |bytes|
    decreases |bytes|
  {
    if bytes == [] then Scanned(visited, 0, true)
    else match ReadFrame(c, bytes)
      case Torn => Scanned(visited, 0, true)
      case Bad => Scanned(visited, 0, false)
      case Record(entry, length) =>
        if !visit(visited, entry) then Scanned(visited, 0, false)
        else
          var rest := Scan(c, visit, visited + [entry], bytes[length..]);
          rest.(good := length + rest.good)
  }

  /** `rest` is what remains of `all` from `offset` on. */
  ghost predicate Agrees<E>(all: Scanned<E>, offset: nat, rest: Scanned<E>) {
    all.entries == rest.entries && all.ok == rest.ok && all.good == offset + rest.good
  }

  lemma ScanRecord<E>(c: Codec<E>, visit: Visitor<E>, visited: seq<E>, bytes: Bytes)
    requires ReadFrame(c, bytes).Record? && visit(visited, ReadFrame(c, bytes).entry)
    ensures var Record(entry, length) := ReadFrame(c, bytes);
      && length <= |bytes|
      && Agrees(Scan(c, visit, visited, bytes), length, Scan(c, visit, visited + [entry], bytes[length..]))
  {
  }

  /** The scan by offset, as the loop runs it. */
  function ScanFrom<E>(c: Codec<E>, visit: Visitor<E>, visited: seq<E>, bytes: Bytes, offset: nat): Scanned<E>
    requires offset <= |bytes|
    decreases |bytes| - offset
  {
    if offset == |bytes| then Scanned(visited, offset, true)
    else match ReadFrame(c, bytes[offset..])
      case Torn => Scanned(visited, offset, true)
      case Bad => Scanned(visited, offset, false)
      case Record(entry, length) =>
        if !visit(visited, entry) then Scanned(visited, offset, false)
        else ScanFrom(c, visit, visited + [entry], bytes, offset + length)
  }

  lemma ScanFromRecord<E>(c: Codec<E>, visit: Visitor<E>, visited: seq<E>, bytes: Bytes, offset: nat, frame: Head<E>)
    requires offset < |bytes| && frame == ReadFrame(c, bytes[offset..])
    requires frame.Record? && visit(visited, frame.entry)
    ensures offset + frame.length <= |bytes|
    ensures ScanFrom(c, visit, visited, bytes, offset)
         == ScanFrom(c, visit, visited + [frame.entry], bytes, offset + frame.length)
  {
  }

  lemma ScanFromStops<E>(c: Codec<E>, visit: Visitor<E>, visited: seq<E>, bytes: Bytes, offset: nat, rest: Bytes)
    requires offset < |bytes| && rest == bytes[offset..]
    requires !(ReadFrame(c, rest).Record? && visit(visited, ReadFrame(c, rest).entry))
    ensures Agrees(ScanFrom(c, visit, visited, bytes, offset), offset, Scan(c, visit, visited, rest))
  {
  }

  lemma {:induction false} ScanFromIsScan<E>(c: Codec<E>, visit: Visitor<E>, visited: seq<E>, bytes: Bytes, offset: nat)
    requires offset <= |bytes|
    ensures Agrees(ScanFrom(c, visit, visited, bytes, offset), offset, Scan(c, visit, visited, bytes[offset..]))
    decreases |bytes| - offset
  {
    if offset < |bytes| {
      var rest := bytes[offset..];
      var frame := ReadFrame(c, rest);
      if frame.Record? && visit(visited, frame.entry) {
        ScanRecord(c, visit, visited, rest);
        ScanFromRecord(c, visit, visited, bytes, offset, frame);
        assert rest[frame.length..] == bytes[offset + frame.length..];
        ScanFromIsScan(c, visit, visited + [frame.entry], bytes, offset + frame.length);
      } else {
        ScanFromStops(c, visit, visited, bytes, offset, rest);
      }
    }
  }

  lemma ScanFromStart<E>(c: Codec<E>, visit: Visitor<E>, bytes: Bytes)
    ensures ScanFrom(c, visit, [], bytes, 0) == Scan(c, visit, [], bytes)
  {
    ScanFromIsScan(c, visit, [], bytes, 0);
    assert bytes[0..] == bytes;
  }

  class JournalFile<E> {
    var bytes: Bytes

    constructor ()
      ensures bytes == []
    {
      bytes := [];
    }

    /** Appends exactly one complete frame, or refuses an unframeable entry. */
    method Append(c: Codec<E>, entry: E) returns (ok: bool)
      modifies this
      ensures ok <==> 0 < |c.encode(entry)| <= MAX_RECORD_BYTES
      ensures bytes == old(bytes) + (if ok then Frame(c, c.encode(entry)) else [])
    {
      var payload := c.encode(entry);
      if |payload| == 0 || |payload| > MAX_RECORD_BYTES {
        return false;
      }
      var frame := MAGIC;
      frame := frame + LittleEndian(|payload|, 8);
      frame := frame + c.digest(payload);
      frame := frame + payload;
      bytes := bytes + frame;
      ok := true;
    }

    /**
      Visits every complete entry in order; with `repair` an incomplete final
      frame is cut off. Nothing is cut when the scan fails.
     */
    method ScanFile(c: Codec<E>, visit: Visitor<E>, repair: bool) returns (entries: seq<E>, ok: bool)
      modifies this
      ensures var r := Scan(c, visit, [], old(bytes));
        && entries == r.entries && ok == r.ok
        && bytes == (if repair && ok then old(bytes)[..r.good] else old(bytes))
    {
      ghost var result := ScanFrom(c, visit, [], bytes, 0);
      ScanFromStart(c, visit, bytes);
      var end, offset := |bytes|, 0;
      entries := [];
      while offset < end
        invariant 0 <= offset <= end && bytes == old(bytes)
        invariant ScanFrom(c, visit, entries, bytes, offset) == result
      {
        var head := ReadAt(c, offset);
        match head {
          case Torn =>
            if repair { bytes := bytes[..offset]; }
            return entries, true;
          case Bad =>
            return entries, false;
          case Record(entry, length) =>
            if !visit(entries, entry) {
              return entries, false;
            }
            entries := entries + [entry];
            offset := offset + length;
        }
      }
      assert bytes[..offset] == bytes;
      ok := true;
    }

    /** Reads one frame at `offset`, in the order the checks are made. */
    method ReadAt(c: Codec<E>, offset: nat) returns (head: Head<E>)
      requires offset < |bytes|
      ensures head == ReadFrame(c, bytes[offset..])
      ensures head.Record? ==> 0 < head.length <= |bytes| - offset
    {
      var rest := bytes[offset..];
      if |rest| < HEADER_SIZE {
        return Torn;
      }
      var header := rest[..HEADER_SIZE];
      assert header[..8] == rest[..8] && header[8..16] == rest[8..16] && header[16..] == rest[16..HEADER_SIZE];
      if header[..8] != MAGIC {
        return Bad;
      }
      var length := FromLittleEndian(header[8..16]);
      if length == 0 || length > MAX_RECORD_BYTES {
        return Bad;
      }
      if length > |rest| - HEADER_SIZE {
        return Torn;
      }
      var payload := rest[HEADER_SIZE..HEADER_SIZE + length];
      if c.digest(payload) != header[16..] {
        return Bad;
      }
      var decoded := c.decode(payload);
      head := if decoded.None? then Bad else Record(decoded.value, HEADER_SIZE + length);
    }
  }

  // ----- What the writer wrote ---------------------------------------------

  ghost predicate Framed<E>(c: Codec<E>, entries: seq<E>) {
    forall i | 0 <= i < |entries| :: 0 < |c.encode(entries[i])| <= MAX_RECORD_BYTES
  }

  /** The file after appending `entries` in order. */
  function Written<E>(c: Codec<E>, entries: seq<E>): Bytes {
    if entries == [] then [] else Frame(c, c.encode(entries[0])) + Written(c, entries[1..])
  }

  lemma {:induction false} WrittenConcat<E>(c: Codec<E>, a: seq<E>, b: seq<E>)
    ensures Written(c, a + b) == Written(c, a) + Written(c, b)
  {
    if a == [] {
      assert a + b == b;
    } else {
      var head := Frame(c, c.encode(a[0]));
      calc {
        Written(c, a + b);
        { assert (a + b)[0] == a[0] && (a + b)[1..] == a[1..] + b; }
        head + Written(c, a[1..] + b);
        { WrittenConcat(c, a[1..], b); }
        head + (Written(c, a[1..]) + Written(c, b));
        (head + Written(c, a[1..])) + Written(c, b);
      }
    }
  }

  lemma FrameParts<E(!new)>(c: Codec<E>, payload: Bytes, rest: Bytes)
    requires Lawful(c) && 0 < |payload| <= MAX_RECORD_BYTES
    ensures var bytes := Frame(c, payload) + rest;
      && |Frame(c, payload)| == HEADER_SIZE + |payload|
      && bytes[..8] == MAGIC && FrameLength(bytes) == |payload|
      && bytes[16..HEADER_SIZE] == c.digest(payload)
      && bytes[HEADER_SIZE..HEADER_SIZE + |payload|] == payload
      && bytes[HEADER_SIZE + |payload|..] == rest
  {
    var bytes := Frame(c, payload) + rest;
    assert bytes[8..16] == LittleEndian(|payload|, 8);
    RecordLengthFits(|payload|);
    LittleEndianRoundTrip(|payload|, 8);
  }

  /** A strict prefix of one frame is a crash tail. */
  lemma TornFrame<E(!new)>(c: Codec<E>, entry: E, n: nat)
    requires Lawful(c) && 0 < |c.encode(entry)| <= MAX_RECORD_BYTES
    requires n < |Frame(c, c.encode(entry))|
    ensures CrashTail(Frame(c, c.encode(entry))[..n])
  {
    var payload := c.encode(entry);
    FrameParts(c, payload, []);
    assert Frame(c, payload) + [] == Frame(c, payload);
    var torn := Frame(c, payload)[..n];
    if n >= HEADER_SIZE {
      assert torn[..8] == Frame(c, payload)[..8] && torn[8..16] == Frame(c, payload)[8..16];
    }
  }

  /** The whole frames within the first `n` bytes. */
  function Complete<E>(c: Codec<E>, entries: seq<E>, n: nat): nat {
    if entries == [] || n < |Frame(c, c.encode(entries[0]))| then 0
    else 1 + Complete(c, entries[1..], n - |Frame(c, c.encode(entries[0]))|)
  }

  lemma {:induction false} CompleteBounds<E>(c: Codec<E>, entries: seq<E>, n: nat)
    ensures Complete(c, entries, n) <= |entries|
    ensures |Written(c, entries[..Complete(c, entries, n)])| <= n
    ensures Complete(c, entries, n) < |entries| ==>
      n < |Written(c, entries[..Complete(c, entries, n) + 1])|
  {
    if entries != [] {
      var first, rest := entries[0], entries[1..];
      var length := |Frame(c, c.encode(first))|;
      if n < length {
        assert entries[..1] == [first] && Written(c, [first]) == Frame(c, c.encode(first)) + [];
      } else {
        CompleteBounds(c, rest, n - length);
        var k := Complete(c, rest, n - length);
        assert entries[..k + 1] == [first] + rest[..k];
        assert entries[..k + 1][1..] == rest[..k];
        if k < |rest| {
          assert entries[..k + 2] == [first] + rest[..k + 1];
          assert entries[..k + 2][1..] == rest[..k + 1];
        }
      }
    }
  }

  /** The visitor accepts these entries one after another. */
  ghost predicate Accepts<E>(visit: Visitor<E>, visited: seq<E>, entries: seq<E>)
    decreases |entries|
  {
    entries != [] ==> visit(visited, entries[0]) && Accepts(visit, visited + [entries[0]], entries[1..])
  }

  lemma {:induction false} AcceptsFirst<E>(visit: Visitor<E>, visited: seq<E>, entries: seq<E>, k: nat)
    requires Accepts(visit, visited, entries) && k <= |entries|
    ensures Accepts(visit, visited, entries[..k])
    decreases |entries|
  {
    if k > 0 {
      AcceptsFirst(visit, visited + [entries[0]], entries[1..], k - 1);
      assert entries[..k][1..] == entries[1..][..k - 1];
    }
  }

  function FramesOf<E>(c: Codec<E>, entries: seq<E>): seq<Bytes> {
    if entries == [] then [] else [Frame(c, c.encode(entries[0]))] + FramesOf(c, entries[1..])
  }

  /** What the writer wrote is valid frames. */
  lemma {:induction false} WrittenIsFrames<E(!new)>(c: Codec<E>, entries: seq<E>)
    requires Lawful(c) && Framed(c, entries)
    ensures ValidFrames(c, FramesOf(c, entries), entries) && Flatten(FramesOf(c, entries)) == Written(c, entries)
  {
    if entries != [] {
      var frame := Frame(c, c.encode(entries[0]));
      WrittenIsFrames(c, entries[1..]);
      FrameIsValid(c, entries[0]);
      assert FramesOf(c, entries)[1..] == FramesOf(c, entries[1..]);
    }
  }

  lemma FrameIsValid<E(!new)>(c: Codec<E>, entry: E)
    requires Lawful(c) && 0 < |c.encode(entry)| <= MAX_RECORD_BYTES
    ensures ValidFrame(c, Frame(c, c.encode(entry)), entry)
  {
    var frame := Frame(c, c.encode(entry));
    FrameParts(c, c.encode(entry), []);
    assert frame + [] == frame && frame[HEADER_SIZE..] == c.encode(entry);
  }

  /** A byte-prefix of what was written is the complete frames and a crash tail. */
  lemma {:induction false} PrefixSplits<E(!new)>(c: Codec<E>, entries: seq<E>, n: nat) returns (tail: Bytes)
    requires Lawful(c) && Framed(c, entries) && n <= |Written(c, entries)|
    ensures Complete(c, entries, n) <= |entries|
    ensures Written(c, entries)[..n] == Written(c, entries[..Complete(c, entries, n)]) + tail && CrashTail(tail)
  {
    if entries == [] {
      tail := [];
    } else {
      var first, rest := entries[0], entries[1..];
      var frame := Frame(c, c.encode(first));
      if n < |frame| {
        tail := frame[..n];
        TornFrame(c, first, n);
        assert Written(c, entries)[..n] == tail && entries[..0] == [];
      } else {
        var m := n - |frame|;
        tail := PrefixSplits(c, rest, m);
        PrefixMore(c, entries, frame, m, Complete(c, rest, m), tail);
      }
    }
  }

  lemma PrefixMore<E>(c: Codec<E>, entries: seq<E>, frame: Bytes, m: nat, k: nat, tail: Bytes)
    requires k < |entries| && frame == Frame(c, c.encode(entries[0])) && m <= |Written(c, entries[1..])|
    requires Written(c, entries[1..])[..m] == Written(c, entries[1..][..k]) + tail
    ensures |frame| + m <= |Written(c, entries)|
    ensures Written(c, entries)[..|frame| + m] == Written(c, entries[..k + 1]) + tail
  {
    var some := entries[..k + 1];
    assert some[0] == entries[0] && some[1..] == entries[1..][..k];
    var rest := Written(c, entries[1..]);
    assert (frame + rest)[..|frame| + m] == frame + rest[..m];
  }

  /**
    Crash round trip: scanning any byte-prefix of what the writer appended
    visits exactly the frames that are complete in it, in order, and reads
    exactly their bytes.
   */
  lemma ScanOfPrefix<E(!new)>(c: Codec<E>, visit: Visitor<E>, visited: seq<E>, entries: seq<E>, n: nat)
    requires Lawful(c) && Framed(c, entries) && Accepts(visit, visited, entries)
    requires n <= |Written(c, entries)|
    ensures Complete(c, entries, n) <= |entries|
    ensures var whole := entries[..Complete(c, entries, n)];
      Scan(c, visit, visited, Written(c, entries)[..n]) == Scanned(visited + whole, |Written(c, whole)|, true)
  {
    var tail := PrefixSplits(c, entries, n);
    var whole := entries[..Complete(c, entries, n)];
    AcceptsFirst(visit, visited, entries, |whole|);
    WrittenIsFrames(c, whole);
    FramesScan(c, visit, visited, Written(c, entries)[..n], FramesOf(c, whole), whole, tail);
  }

  /** Repairing a crash at any byte keeps exactly the complete frames. */
  lemma RepairKeepsCompleteFrames<E(!new)>(c: Codec<E>, visit: Visitor<E>, entries: seq<E>, n: nat)
    requires Lawful(c) && Framed(c, entries) && n <= |Written(c, entries)|
    requires Accepts(visit, [], entries)
    ensures Complete(c, entries, n) <= |entries|
    ensures var crashed := Written(c, entries)[..n];
      crashed[..Scan(c, visit, [], crashed).good] == Written(c, entries[..Complete(c, entries, n)])
  {
    ScanOfPrefix(c, visit, [], entries, n);
    CompleteBounds(c, entries, n);
    var survivors, lost := entries[..Complete(c, entries, n)], entries[Complete(c, entries, n)..];
    assert entries == survivors + lost;
    WrittenConcat(c, survivors, lost);
  }

  /**
    Repair: a second scan of the repaired file cuts nothing, and appending
    afterwards scans as the surviving entries followed by the new ones.
   */
  lemma RepairThenAppend<E(!new)>(c: Codec<E>, visit: Visitor<E>, entries: seq<E>, n: nat, more: seq<E>)
    requires Lawful(c) && Framed(c, entries) && Framed(c, more) && n <= |Written(c, entries)|
    requires Complete(c, entries, n) <= |entries|
    requires Accepts(visit, [], entries)
    requires Accepts(visit, [], entries[..Complete(c, entries, n)] + more)
    ensures var survivors, crashed := entries[..Complete(c, entries, n)], Written(c, entries)[..n];
      var file := crashed[..Scan(c, visit, [], crashed).good] + Written(c, more);
      Scan(c, visit, [], file) == Scanned(survivors + more, |file|, true)
  {
    var survivors := entries[..Complete(c, entries, n)];
    RepairKeepsCompleteFrames(c, visit, entries, n);
    WrittenConcat(c, survivors, more);
    ScanOfWhole(c, visit, [], survivors + more);
    assert [] + (survivors + more) == survivors + more;
  }

  /** Scanning a frame and then the rest. */
  lemma ScanPast<E>(c: Codec<E>, visit: Visitor<E>, visited: seq<E>, frame: Bytes, entry: E, rest: Bytes)
    requires ReadFrame(c, frame + rest) == Record(entry, |frame|) && visit(visited, entry)
    ensures Agrees(Scan(c, visit, visited, frame + rest), |frame|, Scan(c, visit, visited + [entry], rest))
  {
    assert (frame + rest)[|frame|..] == rest;
    ScanRecord(c, visit, visited, frame + rest);
  }

  lemma {:induction false} WholeIsComplete<E>(c: Codec<E>, entries: seq<E>)
    ensures Complete(c, entries, |Written(c, entries)|) == |entries|
  {
    if entries != [] {
      WholeIsComplete(c, entries[1..]);
    }
  }

  lemma ScanOfWhole<E(!new)>(c: Codec<E>, visit: Visitor<E>, visited: seq<E>, entries: seq<E>)
    requires Lawful(c) && Framed(c, entries) && Accepts(visit, visited, entries)
    ensures Scan(c, visit, visited, Written(c, entries)) == Scanned(visited + entries, |Written(c, entries)|, true)
  {
    var file := Written(c, entries);
    WholeIsComplete(c, entries);
    ScanOfPrefix(c, visit, visited, entries, |file|);
    assert file[..|file|] == file && entries[..|entries|] == entries;
  }

  // ----- What a successful scan means --------------------------------------

  /** One complete valid frame holding `entry`. */
  ghost predicate ValidFrame<E>(c: Codec<E>, frame: Bytes, entry: E) {
    && |frame| > HEADER_SIZE
    && var payload := frame[HEADER_SIZE..];
       && |payload| <= MAX_RECORD_BYTES
       && frame[..8] == MAGIC && FromLittleEndian(frame[8..16]) == |payload|
       && frame[16..HEADER_SIZE] == c.digest(payload)
       && c.decode(payload) == Some(entry)
  }

  /** Nothing, or an incomplete frame: a short header, or a valid one whose payload is cut. */
  ghost predicate CrashTail(tail: Bytes) {
    || |tail| < HEADER_SIZE
    || (&& tail[..8] == MAGIC
        && 0 < FromLittleEndian(tail[8..16]) <= MAX_RECORD_BYTES
        && |tail| - HEADER_SIZE < FromLittleEndian(tail[8..16]))
  }

  lemma ValidFrameReads<E>(c: Codec<E>, frame: Bytes, entry: E, rest: Bytes)
    requires ValidFrame(c, frame, entry)
    ensures ReadFrame(c, frame + rest) == Record(entry, |frame|)
  {
    var bytes := frame + rest;
    assert bytes[..8] == frame[..8] && bytes[8..16] == frame[8..16] && bytes[16..HEADER_SIZE] == frame[16..HEADER_SIZE];
    assert bytes[HEADER_SIZE..|frame|] == frame[HEADER_SIZE..];
  }

  lemma ReadIsValidFrame<E>(c: Codec<E>, bytes: Bytes)
    requires ReadFrame(c, bytes).Record?
    ensures var Record(entry, length) := ReadFrame(c, bytes);
      length <= |bytes| && ValidFrame(c, bytes[..length], entry)
  {
    var frame := bytes[..ReadFrame(c, bytes).length];
    assert frame[..8] == bytes[..8] && frame[8..16] == bytes[8..16] && frame[16..HEADER_SIZE] == bytes[16..HEADER_SIZE];
    assert frame[HEADER_SIZE..] == bytes[HEADER_SIZE..|frame|];
  }

  function Flatten(frames: seq<Bytes>): Bytes {
    if frames == [] then [] else frames[0] + Flatten(frames[1..])
  }

  /** Each frame is valid and holds its entry. */
  ghost predicate ValidFrames<E>(c: Codec<E>, frames: seq<Bytes>, entries: seq<E>) {
    if frames == [] || entries == [] then frames == [] && entries == []
    else ValidFrame(c, frames[0], entries[0]) && ValidFrames(c, frames[1..], entries[1..])
  }

  /** `bytes` is valid frames holding `entries`, then a crash tail. */
  ghost predicate Decomposes<E>(c: Codec<E>, bytes: Bytes, frames: seq<Bytes>, entries: seq<E>, tail: Bytes) {
    bytes == Flatten(frames) + tail && ValidFrames(c, frames, entries) && CrashTail(tail)
  }

  /** A scan that succeeds has found valid frames and one crash tail, and nothing else. */
  lemma {:induction false} ScanFindsFrames<E>(c: Codec<E>, visit: Visitor<E>, visited: seq<E>, bytes: Bytes)
      returns (frames: seq<Bytes>)
    requires Scan(c, visit, visited, bytes).ok
    ensures var r := Scan(c, visit, visited, bytes);
      && visited <= r.entries
      && Accepts(visit, visited, r.entries[|visited|..])
      && |Flatten(frames)| == r.good
      && Decomposes(c, bytes, frames, r.entries[|visited|..], bytes[r.good..])
    decreases |bytes|
  {
    var r := Scan(c, visit, visited, bytes);
    if bytes == [] || ReadFrame(c, bytes).Torn? {
      frames := [];
      assert r.entries[|visited|..] == [];
      assert bytes == Flatten(frames) + bytes[r.good..];
    } else {
      var Record(entry, length) := ReadFrame(c, bytes);
      ReadIsValidFrame(c, bytes);
      ScanRecord(c, visit, visited, bytes);
      var rest := ScanFindsFrames(c, visit, visited + [entry], bytes[length..]);
      frames := [bytes[..length]] + rest;
      var found := r.entries[|visited|..];
      assert found[1..] == r.entries[|visited| + 1..] && found[0] == entry;
      assert bytes[length..][r.good - length..] == bytes[r.good..];
      DecomposesMore(c, bytes, length, rest, found, bytes[r.good..]);
    }
  }

  lemma DecomposesMore<E>(c: Codec<E>, bytes: Bytes, length: nat, rest: seq<Bytes>, found: seq<E>, tail: Bytes)
    requires length <= |bytes| && found != []
    requires ValidFrame(c, bytes[..length], found[0])
    requires Decomposes(c, bytes[length..], rest, found[1..], tail)
    ensures Decomposes(c, bytes, [bytes[..length]] + rest, found, tail)
    ensures |Flatten([bytes[..length]] + rest)| == length + |Flatten(rest)|
  {
    var frames := [bytes[..length]] + rest;
    assert frames[1..] == rest;
    assert bytes == bytes[..length] + bytes[length..];
    assert Flatten(frames) + tail == bytes[..length] + (Flatten(rest) + tail);
  }

  lemma ScanTail<E>(c: Codec<E>, visit: Visitor<E>, visited: seq<E>, tail: Bytes)
    requires CrashTail(tail)
    ensures Scan(c, visit, visited, tail) == Scanned(visited, 0, true)
  {
  }

  lemma DecomposesRest<E>(c: Codec<E>, bytes: Bytes, frames: seq<Bytes>, entries: seq<E>, tail: Bytes)
    requires Decomposes(c, bytes, frames, entries, tail) && frames != []
    ensures entries != []
    ensures var rest := Flatten(frames[1..]) + tail;
      && bytes == frames[0] + rest && ReadFrame(c, frames[0] + rest) == Record(entries[0], |frames[0]|)
      && Decomposes(c, rest, frames[1..], entries[1..], tail)
      && |Flatten(frames)| == |frames[0]| + |Flatten(frames[1..])|
  {
    var rest := Flatten(frames[1..]) + tail;
    ValidFrameReads(c, frames[0], entries[0], rest);
    assert bytes == frames[0] + rest;
  }

  /** A scan reads the first of several frames and goes on after it. */
  ghost predicate ReadsFirst<E>(scan: (seq<E>, Bytes) -> Scanned<E>, c: Codec<E>, visit: Visitor<E>, visited: seq<E>,
                                frames: seq<Bytes>, entries: seq<E>, tail: Bytes) {
    frames != [] && entries != [] && ValidFrames(c, frames, entries) && Accepts(visit, visited, entries) ==>
      Agrees(scan(visited, Flatten(frames) + tail), |frames[0]|,
        scan(visited + [entries[0]], Flatten(frames[1..]) + tail))
  }

  lemma {:induction false} ReadsAll<E(!new)>(
      scan: (seq<E>, Bytes) -> Scanned<E>, c: Codec<E>, visit: Visitor<E>, visited: seq<E>, frames: seq<Bytes>,
      entries: seq<E>, tail: Bytes)
    requires ValidFrames(c, frames, entries) && Accepts(visit, visited, entries)
    requires forall v :: scan(v, tail) == Scanned(v, 0, true)
    requires forall v, fs, es :: ReadsFirst(scan, c, visit, v, fs, es, tail)
    ensures scan(visited, Flatten(frames) + tail) == Scanned(visited + entries, |Flatten(frames)|, true)
    decreases |frames|
  {
    if frames == [] {
      assert Flatten(frames) + tail == tail && visited + entries == visited;
    } else {
      var more, later := visited + [entries[0]], entries[1..];
      assert ReadsFirst(scan, c, visit, visited, frames, entries, tail);
      ReadsAll(scan, c, visit, more, frames[1..], later, tail);
      assert visited + entries == more + later;
    }
  }

  /** Conversely, a scan succeeds on every such stream and finds those entries. */
  lemma FramesScan<E(!new)>(c: Codec<E>, visit: Visitor<E>, visited: seq<E>, bytes: Bytes,
                            frames: seq<Bytes>, entries: seq<E>, tail: Bytes)
    requires Decomposes(c, bytes, frames, entries, tail) && Accepts(visit, visited, entries)
    ensures Scan(c, visit, visited, bytes) == Scanned(visited + entries, |Flatten(frames)|, true)
  {
    var scan := (v: seq<E>, b: Bytes) => Scan(c, visit, v, b);
    forall v ensures scan(v, tail) == Scanned(v, 0, true) {
      ScanTail(c, visit, v, tail);
    }
    forall v, fs, es ensures ReadsFirst(scan, c, visit, v, fs, es, tail) {
      if fs != [] && es != [] && ValidFrames(c, fs, es) && Accepts(visit, v, es) {
        DecomposesRest(c, Flatten(fs) + tail, fs, es, tail);
        ScanPast(c, visit, v, fs[0], es[0], Flatten(fs[1..]) + tail);
      }
    }
    ReadsAll(scan, c, visit, visited, frames, entries, tail);
  }
}
