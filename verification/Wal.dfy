/** The write-ahead log: framed records appended to a file, and the replay that reads them back
    after a crash or a flipped burst of bytes. */
module Wal {
  import opened Bytes
  import opened Crc32
  import opened Int64
  import opened Sequences

  const HEADER_SIZE := 13
  const CRC_SIZE := 4
  const SIZE_LIMIT := 0x1_0000_0000

  datatype Entry = Entry(kind: octet, timestamp: int64, payload: seq<octet>)

  datatype Result = Ok | Truncated

  datatype Replayed = Replayed(entries: seq<Entry>, corrupt: nat, result: Result)

  // ----- records -----

  /** The total size has to fit the 32-bit size field. */
  predicate Fits(payload: seq<octet>)
  {
    HEADER_SIZE + |payload| + CRC_SIZE < SIZE_LIMIT
  }

  function Header(size: nat, timestamp: int64, kind: octet): (h: seq<octet>)
    requires size < SIZE_LIMIT
    ensures |h| == HEADER_SIZE
  {
    SpanOfWord();
    Word(size, 4) + Word(Unsigned(timestamp), 8) + [kind]
  }

  function Body(e: Entry): (s: seq<octet>)
    requires Fits(e.payload)
  {
    Header(HEADER_SIZE + |e.payload| + CRC_SIZE, e.timestamp, e.kind) + e.payload
  }

  function Record(e: Entry): (s: seq<octet>)
    requires Fits(e.payload)
    ensures |s| == HEADER_SIZE + |e.payload| + CRC_SIZE
  {
    Body(e) + Octets(Compute(Body(e)))
  }

  // ----- replay -----

  function SizeField(s: seq<octet>): nat
    requires |s| >= 4
  {
    Value(s[..4])
  }

  function TimestampField(s: seq<octet>): int64
    requires |s| >= HEADER_SIZE
  {
    SpanOfWord();
    Signed(Value(s[4..12]))
  }

  function Parse(s: seq<octet>): Entry
    requires |s| >= HEADER_SIZE + CRC_SIZE
  {
    Entry(s[12], TimestampField(s), s[HEADER_SIZE..|s| - CRC_SIZE])
  }

  /** What replaying a file delivers. */
  function Replay(file: seq<octet>): Replayed
    decreases |file|
  {
    if |file| == 0 then Replayed([], 0, Ok)
    else if |file| < HEADER_SIZE then Replayed([], 0, Truncated)
    else
      var size := SizeField(file);
      if size < HEADER_SIZE + CRC_SIZE then Replayed([], 1, Ok)
      else if |file| < size then Replayed([], 0, Truncated)
      else After(file[..size], Replay(file[size..]))
  }

  /** The outcome of a frame followed by the outcome of the rest. */
  function After(frame: seq<octet>, rest: Replayed): Replayed
    requires |frame| >= HEADER_SIZE + CRC_SIZE
  {
    if Sealed(frame)
    then rest.(entries := [Parse(frame)] + rest.entries)
    else rest.(corrupt := rest.corrupt + 1)
  }

  // ----- frames -----

  /** Bytes whose size field is their own length, whatever else they hold. */
  predicate Framed(s: seq<octet>)
  {
    |s| >= HEADER_SIZE + CRC_SIZE && SizeField(s) == |s|
  }

  lemma ReplayFrame(frame: seq<octet>, rest: seq<octet>)
    requires Framed(frame)
    ensures Replay(frame + rest) == After(frame, Replay(rest))
  {
    var file := frame + rest;
    assert file[..4] == frame[..4];
    assert file[..|frame|] == frame && file[|frame|..] == rest;
  }

  /** A proper prefix of a frame replays as nothing, reported as truncated unless empty. */
  lemma ReplayStump(frame: seq<octet>, cut: nat)
    requires Framed(frame) && cut < |frame|
    ensures Replay(frame[..cut]) == Replayed([], 0, if cut == 0 then Ok else Truncated)
  {
    if cut >= HEADER_SIZE {
      assert frame[..cut][..4] == frame[..4];
    }
  }

  // ----- records are sealed frames -----

  lemma HeaderSays(size: nat, timestamp: int64, kind: octet)
    requires size < SIZE_LIMIT
    ensures var h := Header(size, timestamp, kind);
      SizeField(h) == size && TimestampField(h) == timestamp && h[12] == kind
  {
    SpanOfWord();
    var h := Header(size, timestamp, kind);
    ValueOfWord(size, 4);
    ValueOfWord(Unsigned(timestamp), 8);
    SignedUnsigned(timestamp);
    assert h[..4] == Word(size, 4) && h[4..12] == Word(Unsigned(timestamp), 8);
  }

  lemma HeaderReads(h: seq<octet>, rest: seq<octet>)
    requires |h| == HEADER_SIZE && |rest| >= CRC_SIZE
    ensures SizeField(h + rest) == SizeField(h)
    ensures var e := Parse(h + rest); e.kind == h[12] && e.timestamp == TimestampField(h) && e.payload == rest[..|rest| - CRC_SIZE]
  {
    var s := h + rest;
    assert s[..4] == h[..4] && s[4..12] == h[4..12] && s[HEADER_SIZE..|s| - CRC_SIZE] == rest[..|rest| - CRC_SIZE];
  }

  lemma RecordReads(e: Entry)
    requires Fits(e.payload)
    ensures Framed(Record(e)) && Parse(Record(e)) == e
  {
    var size := HEADER_SIZE + |e.payload| + CRC_SIZE;
    var h, rest := Header(size, e.timestamp, e.kind), e.payload + Octets(Compute(Body(e)));
    assert Record(e) == h + rest && rest[..|rest| - CRC_SIZE] == e.payload;
    HeaderSays(size, e.timestamp, e.kind);
    HeaderReads(h, rest);
  }

  /** Where everything stands in a record: its size in the first four octets, the time in the next eight,
      the kind, the payload, and the checksum of all that in the last four; numbers low octet first. */
  lemma RecordLayout(e: Entry, n: nat)
    requires Fits(e.payload) && n == |e.payload|
    ensures |Record(e)| == n + 17
    ensures Value(Record(e)[..4]) == n + 17 && Signed(Value(Record(e)[4..12])) == e.timestamp
    ensures Record(e)[12] == e.kind && Record(e)[13..13 + n] == e.payload
    ensures Record(e)[13 + n..] == Octets(Compute(Record(e)[..13 + n]))
  {
    RecordReads(e);
    var body, seal := Body(e), Octets(Compute(Body(e)));
    assert Record(e)[..13 + n] == body && Record(e)[13 + n..] == seal;
  }

  lemma RecordIsSealed(e: Entry)
    requires Fits(e.payload)
    ensures Sealed(Record(e))
  {
    var body := Body(e);
    assert Record(e)[..|body|] == body && Record(e)[|body|..] == Octets(Compute(body));
    OctetsRoundTrip(Compute(body));
  }

  // ----- a log as the disk holds it -----

  /** One frame of a log: its bytes, whether its seal holds, and the entry it then carries. */
  datatype Piece = Piece(bytes: seq<octet>, intact: bool, entry: Entry)

  predicate Reads(p: Piece)
  {
    && Framed(p.bytes)
    && Sealed(p.bytes) == p.intact
    && (p.intact ==> Parse(p.bytes) == p.entry)
  }

  function BytesOf(p: Piece): seq<octet> { p.bytes }

  function File(log: seq<Piece>): seq<octet>
  {
    Joined(BytesOf, log)
  }

  /** The entries of the intact pieces. */
  function Survivors(log: seq<Piece>): seq<Entry>
    decreases |log|
  {
    if log == [] then []
    else if log[0].intact then [log[0].entry] + Survivors(log[1..])
    else Survivors(log[1..])
  }

  function Casualties(log: seq<Piece>): nat
    decreases |log|
  {
    if log == [] then 0 else (if log[0].intact then 0 else 1) + Casualties(log[1..])
  }

  function Then(p: Piece, r: Replayed): Replayed
  {
    if p.intact then r.(entries := [p.entry] + r.entries) else r.(corrupt := r.corrupt + 1)
  }

  function Ending(whole: bool): Replayed
  {
    Replayed([], 0, if whole then Ok else Truncated)
  }

  lemma ReplayTakes(p: Piece)
    requires Reads(p)
    ensures Takes(Replay, BytesOf, Then, Ending, p)
  {
    forall rest ensures Replay(p.bytes + rest) == Then(p, Replay(rest)) {
      ReplayFrame(p.bytes, rest);
    }
    forall cut | 0 < cut < |p.bytes| ensures Replay(p.bytes[..cut]) == Ending(false) {
      ReplayStump(p.bytes, cut);
    }
  }

  lemma {:induction false} FoldedThen(log: seq<Piece>, end: Replayed)
    requires end.entries == [] && end.corrupt == 0
    ensures Folded(Then, log, end) == Replayed(Survivors(log), Casualties(log), end.result)
    decreases |log|
  {
    if log != [] { FoldedThen(log[1..], end); }
  }

  predicate AllRead(log: seq<Piece>)
  {
    forall i :: 0 <= i < |log| ==> Reads(log[i])
  }

  lemma AllTaken(log: seq<Piece>)
    requires AllRead(log)
    ensures forall i :: 0 <= i < |log| ==> Takes(Replay, BytesOf, Then, Ending, log[i])
  {
    forall i | 0 <= i < |log| ensures Takes(Replay, BytesOf, Then, Ending, log[i]) {
      ReplayTakes(log[i]);
    }
  }

  /** r is what the first cut bytes of a log give: exactly the intact ones of its first k pieces, in
      order, with each damaged one counted, where k is how many lie wholly within the cut; and it is
      a truncation exactly when the cut falls inside a piece. */
  ghost predicate Recovered(log: seq<Piece>, cut: nat, k: nat, r: Replayed)
  {
    && k <= |log| && |File(log[..k])| <= cut && (k < |log| ==> cut < |File(log[..k + 1])|)
    && r == Replayed(Survivors(log[..k]), Casualties(log[..k]), if cut == |File(log[..k])| then Ok else Truncated)
  }

  /** Replaying the first cut bytes of pieces that read as they should. */
  lemma ReplayCut(log: seq<Piece>, cut: nat, k: nat)
    requires AllRead(log) && cut <= |File(log)| && k == Whole(BytesOf, log, cut)
    ensures Fit(BytesOf, log, cut, k) && Recovered(log, cut, k, Replay(File(log)[..cut]))
  {
    AllTaken(log);
    WholeFit(BytesOf, log, cut);
    ReadCut(Replay, BytesOf, Then, Ending, log, cut);
    FoldedThen(log[..k], Ending(cut == |File(log[..k])|));
  }

  // ----- whatever comes after -----

  /** The outcome of whole pieces followed by that of the rest. */
  function Preceded(log: seq<Piece>, r: Replayed): Replayed
  {
    Replayed(Survivors(log) + r.entries, Casualties(log) + r.corrupt, r.result)
  }

  lemma PrecededNext(log: seq<Piece>, r: Replayed)
    requires log != []
    ensures Then(log[0], Preceded(log[1..], r)) == Preceded(log, r)
  {
    if log[0].intact { Regroup([log[0].entry], Survivors(log[1..]), r.entries); }
  }

  lemma PieceThen(p: Piece, rest: seq<octet>)
    requires Reads(p)
    ensures Replay(p.bytes + rest) == Then(p, Replay(rest))
  {
    ReplayFrame(p.bytes, rest);
  }

  /** Whole pieces replay the same in front of anything: what follows, however broken, costs none of
      them. */
  lemma {:induction false} EarlierPiecesStand(log: seq<Piece>, rest: seq<octet>)
    requires AllRead(log)
    ensures Replay(File(log) + rest) == Preceded(log, Replay(rest))
    decreases |log|
  {
    if log == [] {
      assert File(log) + rest == rest;
      assert [] + Replay(rest).entries == Replay(rest).entries;
    } else {
      var more := File(log[1..]) + rest;
      assert File(log) + rest == log[0].bytes + more;
      PieceThen(log[0], more);
      EarlierPiecesStand(log[1..], rest);
      PrecededNext(log, Replay(rest));
    }
  }

  /** A size field damaged to less than the smallest record. */
  predicate Stunted(bad: seq<octet>)
  {
    |bad| >= HEADER_SIZE && SizeField(bad) < HEADER_SIZE + CRC_SIZE
  }

  /** Such a field ends the replay on the spot: one corruption is counted, and whatever follows is not
      looked at. */
  lemma ShortSizeStopsReplay(log: seq<Piece>, bad: seq<octet>, more: seq<octet>)
    requires AllRead(log) && Stunted(bad)
    ensures Replay(File(log) + bad + more) == Replayed(Survivors(log), Casualties(log) + 1, Ok)
  {
    assert (bad + more)[..4] == bad[..4];
    assert File(log) + bad + more == File(log) + (bad + more);
    EarlierPiecesStand(log, bad + more);
  }

  /** So it costs its own record only, as other damage does, exactly when no other record follows. */
  lemma ShortSizeIsolatedIff(log: seq<Piece>, bad: seq<octet>, more: seq<Piece>)
    requires AllRead(log) && AllRead(more) && Stunted(bad)
    ensures Replay(File(log) + bad + File(more))
        == Replayed(Survivors(log) + Survivors(more), Casualties(log) + 1 + Casualties(more), Ok)
      <==> more == []
  {
    ShortSizeStopsReplay(log, bad, File(more));
    if more != [] { SomeOutcome(more); }
  }

  lemma SomeOutcome(log: seq<Piece>)
    requires log != []
    ensures |Survivors(log)| + Casualties(log) > 0
  {}

  /** A size field damaged to more than there is left hides the rest as well, as a truncation. */
  lemma LongSizeTruncates(log: seq<Piece>, bad: seq<octet>)
    requires AllRead(log) && |bad| >= HEADER_SIZE && !Stunted(bad) && SizeField(bad) > |bad|
    ensures Replay(File(log) + bad) == Replayed(Survivors(log), Casualties(log), Truncated)
  {
    EarlierPiecesStand(log, bad);
  }

  // ----- damage -----

  /** The record of an entry with a few adjacent bytes overwritten by junk. */
  datatype Stored = Stored(entry: Entry, at: nat, junk: seq<octet>)

  /** At most four bytes are overwritten, inside the record, past its size field. */
  predicate Placed(s: Stored)
  {
    Fits(s.entry.payload) && 4 <= s.at && |s.junk| <= 4 && s.at + |s.junk| <= |Record(s.entry)|
  }

  function Before(s: Stored): seq<octet>
    requires Placed(s)
  {
    Record(s.entry)[..s.at]
  }

  function Overwritten(s: Stored): seq<octet>
    requires Placed(s)
  {
    Record(s.entry)[s.at..s.at + |s.junk|]
  }

  function Beyond(s: Stored): seq<octet>
    requires Placed(s)
  {
    Record(s.entry)[s.at + |s.junk|..]
  }

  /** What the disk holds; intact when the junk is what was there before. */
  function PieceOf(s: Stored): Piece
    requires Placed(s)
  {
    Piece(Before(s) + s.junk + Beyond(s), s.junk == Overwritten(s), s.entry)
  }

  lemma BurstKeepsFrame(pre: seq<octet>, a: seq<octet>, junk: seq<octet>, post: seq<octet>)
    requires Framed(pre + a + post) && |pre| >= 4 && |a| == |junk|
    ensures Framed(pre + junk + post)
  {
    assert (pre + junk + post)[..4] == (pre + a + post)[..4];
  }

  /** The checksum tells a damaged record from an intact one, never wrongly. */
  lemma SealTellsDamage(s: Stored)
    requires Placed(s)
    ensures Reads(PieceOf(s))
  {
    var pre, a, post := Before(s), Overwritten(s), Beyond(s);
    assert Record(s.entry) == pre + a + post;
    RecordReads(s.entry);
    RecordIsSealed(s.entry);
    BurstKeepsFrame(pre, a, s.junk, post);
    if s.junk != a {
      BurstBreaksSeal(pre, a, s.junk, post);
    }
  }

  predicate AllPlaced(log: seq<Stored>)
  {
    forall i :: 0 <= i < |log| ==> Placed(log[i])
  }

  function Pieces(log: seq<Stored>): (pieces: seq<Piece>)
    requires AllPlaced(log)
    ensures |pieces| == |log| && forall i :: 0 <= i < |log| ==> pieces[i] == PieceOf(log[i])
  {
    seq(|log|, i requires 0 <= i < |log| => PieceOf(log[i]))
  }

  /** The main theorem. Append any entries, overwrite up to four adjacent bytes in any of their
      records (size fields apart), cut the file anywhere: replay delivers exactly the undamaged
      entries that are whole, in order, counts each damaged one, and reports truncation exactly
      when the cut is inside a record. */
  lemma {:induction false} ReplayOfDamagedFile(log: seq<Stored>, cut: nat)
    requires AllPlaced(log) && cut <= |File(Pieces(log))|
    ensures Recovered(Pieces(log), cut, Whole(BytesOf, Pieces(log), cut), Replay(File(Pieces(log))[..cut]))
  {
    PiecesRead(log);
    ReplayCut(Pieces(log), cut, Whole(BytesOf, Pieces(log), cut));
  }

  lemma PiecesRead(log: seq<Stored>)
    requires AllPlaced(log)
    ensures AllRead(Pieces(log))
  {
    forall i | 0 <= i < |log| ensures Reads(Pieces(log)[i]) { SealTellsDamage(log[i]); }
  }

  // ----- crash safety -----

  predicate AllFit(entries: seq<Entry>)
  {
    forall i :: 0 <= i < |entries| ==> Fits(entries[i].payload)
  }

  function Intact(e: Entry): Piece
    requires Fits(e.payload)
  {
    Piece(Record(e), true, e)
  }

  function Untouched(entries: seq<Entry>): (log: seq<Piece>)
    requires AllFit(entries)
    ensures |log| == |entries|
  {
    Mapped(Intact, entries)
  }

  /** The file after the given appends. */
  function Log(entries: seq<Entry>): seq<octet>
    requires AllFit(entries)
  {
    File(Untouched(entries))
  }

  lemma {:induction false} AllSurvive(entries: seq<Entry>)
    requires AllFit(entries)
    ensures Survivors(Untouched(entries)) == entries && Casualties(Untouched(entries)) == 0
    decreases |entries|
  {
    if entries != [] {
      AllSurvive(entries[1..]);
      assert Untouched(entries)[1..] == Untouched(entries[1..]);
    }
  }

  lemma RecordsRead(entries: seq<Entry>)
    requires AllFit(entries)
    ensures AllRead(Untouched(entries))
  {
    forall i | 0 <= i < |entries| ensures Reads(Untouched(entries)[i]) {
      MappedAt(Intact, entries, i);
      RecordReads(entries[i]);
      RecordIsSealed(entries[i]);
    }
  }

  lemma LogPrefix(entries: seq<Entry>, k: nat)
    requires AllFit(entries) && k <= |entries|
    ensures Untouched(entries)[..k] == Untouched(entries[..k])
  {
    MappedPrefix(Intact, entries, k);
  }

  /** Whole records in the first cut bytes of an undamaged log. */
  function Complete(entries: seq<Entry>, cut: nat): (k: nat)
    requires AllFit(entries)
    ensures k <= |entries|
  {
    Whole(BytesOf, Untouched(entries), cut)
  }

  lemma LargestPrefix(entries: seq<Entry>, cut: nat, k: nat)
    requires AllFit(entries) && Fit(BytesOf, Untouched(entries), cut, k)
    ensures |Log(entries[..k])| <= cut && (k < |entries| ==> cut < |Log(entries[..k + 1])|)
  {
    LogPrefix(entries, k);
    if k < |entries| {
      LogPrefix(entries, k + 1);
    }
  }

  /** Crash safety: any prefix of an appended file replays as exactly the records wholly inside
      it, with no corruption counted, and as truncated iff the cut is inside a record. */
  lemma CrashSafety(entries: seq<Entry>, cut: nat)
    requires AllFit(entries) && cut <= |Log(entries)|
    ensures var k := Complete(entries, cut);
      && |Log(entries[..k])| <= cut && (k < |entries| ==> cut < |Log(entries[..k + 1])|)
      && Replay(Log(entries)[..cut]) == Replayed(entries[..k], 0, if cut == |Log(entries[..k])| then Ok else Truncated)
  {
    var k := Complete(entries, cut);
    RecordsRead(entries);
    ReplayCut(Untouched(entries), cut, k);
    LargestPrefix(entries, cut, k);
    LogPrefix(entries, k);
    AllSurvive(entries[..k]);
  }

  lemma AppendExtendsLog(entries: seq<Entry>, e: Entry)
    requires AllFit(entries) && Fits(e.payload)
    ensures AllFit(entries + [e]) && Log(entries + [e]) == Log(entries) + Record(e)
  {
    MappedSnoc(Intact, entries, e);
    JoinedSnoc(BytesOf, Untouched(entries), Intact(e));
  }

  // ----- the writer -----

  /** memcpy: overwrite part of a buffer. */
  method CopyInto(dst: array<octet>, at: nat, src: seq<octet>)
    requires at + |src| <= dst.Length
    modifies dst
    ensures dst[..] == old(dst[..at]) + src + old(dst[at + |src|..])
  {
    var i := 0;
    while i < |src|
      invariant 0 <= i <= |src|
      invariant dst[..at] == old(dst[..at])
      invariant dst[at..at + i] == src[..i]
      invariant dst[at + |src|..] == old(dst[at + |src|..])
    {
      dst[at + i] := src[i];
      i := i + 1;
    }
    assert dst[..] == dst[..at] + dst[at..at + |src|] + dst[at + |src|..];
  }

  class WalWriter {
    const crc: CRC32
    var buf: array<octet>
    var isOpen: bool
    /** The bytes handed to the file so far. */
    var written: seq<octet>
    /** The entries they stand for. */
    ghost var entries: seq<Entry>

    ghost predicate Valid()
      reads this, crc, crc.t
    {
      crc.Valid() && AllFit(entries) && written == Log(entries)
    }

    constructor (isOpen: bool)
      ensures Valid() && fresh(crc) && fresh(crc.t) && fresh(buf)
      ensures this.isOpen == isOpen && entries == []
    {
      crc := new CRC32();
      buf := new octet[0];
      this.isOpen := isOpen;
      written := [];
      entries := [];
    }

    /** Fill the buffer: header, payload, checksum of both. */
    method Fill(header: seq<octet>, payload: seq<octet>)
      requires crc.Valid()
      modifies this`buf, crc, crc.t
      ensures crc.Valid() && fresh(buf)
      ensures buf[..] == header + payload + Octets(Compute(header + payload))
    {
      var n := |header| + |payload|;
      buf := new octet[n + CRC_SIZE];
      CopyInto(buf, 0, header);
      if |payload| > 0 { CopyInto(buf, |header|, payload); }
      assert buf[..n] == header + payload;
      var sum := crc.ComputeBytes(buf[..n]);
      CopyInto(buf, n, Octets(sum));
    }

    method Assemble(e: Entry)
      requires crc.Valid() && Fits(e.payload)
      modifies this`buf, crc, crc.t
      ensures crc.Valid() && fresh(buf) && buf[..] == Record(e)
    {
      Fill(Header(HEADER_SIZE + |e.payload| + CRC_SIZE, e.timestamp, e.kind), e.payload);
    }

    /** Append one entry; the file takes the record whole or refuses it. */
    method Append(e: Entry, accepts: bool) returns (ok: bool)
      requires Valid() && Fits(e.payload)
      modifies this, crc, crc.t
      ensures Valid() && isOpen == old(isOpen)
      ensures ok == (isOpen && accepts)
      ensures entries == if ok then old(entries) + [e] else old(entries)
    {
      if !isOpen { return false; }
      Assemble(e);
      ok := accepts;
      if ok {
        AppendExtendsLog(entries, e);
        written := written + buf[..];
        entries := entries + [e];
      }
    }
  }

  // ----- the reader -----

  function Following(entries: seq<Entry>, corrupt: nat, rest: Replayed): Replayed
  {
    Replayed(entries + rest.entries, corrupt + rest.corrupt, rest.result)
  }

  function Min(a: nat, b: nat): nat { if a < b then a else b }

  /** The reader checksums header and body in two goes; together they are the seal. */
  lemma TwoPartSeal(header: seq<octet>, rest: seq<octet>)
    requires |header| == HEADER_SIZE && |rest| >= CRC_SIZE
    ensures Sealed(header + rest) <==> Update(Compute(header), rest[..|rest| - CRC_SIZE]) == FromOctets(rest[|rest| - CRC_SIZE..])
    ensures |rest| == CRC_SIZE ==> Update(Compute(header), rest[..0]) == Compute(header)
  {
    var payload, frame := rest[..|rest| - CRC_SIZE], header + rest;
    UpdateResumes(header, payload);
    assert frame[..|frame| - 4] == header + payload && frame[|frame| - 4..] == rest[|rest| - CRC_SIZE..];
    assert header + [] == header;
    UpdateResumes(header, []);
  }

  /** What one turn of the reading loop comes to: the end of the replay, a frame to skip over, or
      an entry to deliver, the latter two with what is left to read. */
  datatype Read = Stop(corrupt: nat, result: Result) | Skip(left: seq<octet>) | Deliver(entry: Entry, left: seq<octet>)

  function LeftOf(read: Read): seq<octet>
  {
    if read.Stop? then [] else read.left
  }

  /** The outcome of the whole, from one turn and the outcome of what it leaves. */
  predicate Turns(read: Read, whole: Replayed, later: Replayed)
  {
    match read
    case Stop(c, result) => whole == Replayed([], c, result)
    case Skip(_) => whole == later.(corrupt := later.corrupt + 1)
    case Deliver(e, _) => whole == later.(entries := [e] + later.entries)
  }

  ghost predicate Explains(read: Read, file: seq<octet>)
  {
    (read.Stop? || |LeftOf(read)| < |file|) && Turns(read, Replay(file), Replay(LeftOf(read)))
  }

  /** What a turn of the loop adds to what was delivered before it. */
  lemma FollowRead(delivered: seq<Entry>, corrupt: nat, read: Read, now: Replayed, later: Replayed)
    requires Turns(read, now, later)
    ensures Following(delivered, corrupt, now) == match read
      case Stop(c, result) => Replayed(delivered, corrupt + c, result)
      case Skip(_) => Following(delivered, corrupt + 1, later)
      case Deliver(e, _) => Following(delivered + [e], corrupt, later)
  {
    match read
    case Stop(_, _) =>
    case Skip(_) =>
    case Deliver(e, _) => Regroup(delivered, [e], later.entries);
  }

  /** A frame that is all there is delivered or skipped. */
  lemma FrameThere(header: seq<octet>, rest: seq<octet>, left: seq<octet>, intact: bool)
    requires |header| == HEADER_SIZE && |rest| >= CRC_SIZE
    requires SizeField(header) == HEADER_SIZE + |rest| && intact == Sealed(header + rest)
    ensures Explains(
      if intact then Deliver(Entry(header[12], TimestampField(header), rest[..|rest| - CRC_SIZE]), left) else Skip(left),
      header + rest + left)
  {
    HeaderReads(header, rest);
    ReplayFrame(header + rest, left);
  }

  /** Where a replay stops. */
  lemma ReplayStops(file: seq<octet>)
    ensures |file| == 0 ==> Explains(Stop(0, Ok), file)
    ensures 0 < |file| < HEADER_SIZE ==> Explains(Stop(0, Truncated), file)
    ensures |file| >= HEADER_SIZE ==> var size := SizeField(file[..HEADER_SIZE]);
      && (size < HEADER_SIZE + CRC_SIZE ==> Explains(Stop(1, Ok), file))
      && (size >= HEADER_SIZE + CRC_SIZE && size > |file| ==> Explains(Stop(0, Truncated), file))
  {
    if |file| >= HEADER_SIZE {
      assert file[..4] == file[..HEADER_SIZE][..4];
    }
  }

  class WalReader {
    const crc: CRC32

    constructor ()
      ensures crc.Valid() && fresh(crc) && fresh(crc.t)
    {
      crc := new CRC32();
    }

    /** The seal of a frame, checked over header and body in two goes. */
    method Check(header: seq<octet>, rest: seq<octet>) returns (ok: bool)
      requires crc.Valid() && |header| == HEADER_SIZE && |rest| >= CRC_SIZE
      modifies crc, crc.t
      ensures crc.Valid() && ok == Sealed(header + rest)
    {
      var payloadLen := |rest| - CRC_SIZE;
      var expected := FromOctets(rest[payloadLen..]);
      var actual := crc.ComputeBytes(header);
      if payloadLen > 0 { actual := crc.UpdateBytes(actual, rest[..payloadLen]); }
      TwoPartSeal(header, rest);
      ok := actual == expected;
    }

    /** Deliver or skip a frame that is all there. */
    method TakeFrame(header: seq<octet>, rest: seq<octet>, left: seq<octet>) returns (read: Read)
      requires crc.Valid() && |header| == HEADER_SIZE && |rest| >= CRC_SIZE
      requires SizeField(header) == HEADER_SIZE + |rest|
      modifies crc, crc.t
      ensures crc.Valid() && Explains(read, header + rest + left)
    {
      var intact := Check(header, rest);
      FrameThere(header, rest, left, intact);
      if intact {
        read := Deliver(Entry(header[12], TimestampField(header), rest[..|rest| - CRC_SIZE]), left);
      } else {
        read := Skip(left);
      }
    }

    /** One turn of the loop: read the header, then the rest of the frame. */
    method ReadFrame(file: seq<octet>) returns (read: Read)
      requires crc.Valid()
      modifies crc, crc.t
      ensures crc.Valid() && Explains(read, file)
    {
      ReplayStops(file);
      var n := Min(HEADER_SIZE, |file|);
      if n == 0 { return Stop(0, Ok); }
      if n < HEADER_SIZE { return Stop(0, Truncated); }
      var header, left := file[..n], file[n..];
      var size := SizeField(header);
      if size < HEADER_SIZE + CRC_SIZE { return Stop(1, Ok); }
      var remaining := size - HEADER_SIZE;
      n := Min(remaining, |left|);
      if n < remaining { return Stop(0, Truncated); }
      assert file == header + left[..n] + left[n..];
      read := TakeFrame(header, left[..n], left[n..]);
    }

    /** The replay loop. */
    method ReplayFile(file: seq<octet>) returns (delivered: seq<Entry>, corrupt: nat, result: Result)
      requires crc.Valid()
      modifies crc, crc.t
      ensures crc.Valid() && Replayed(delivered, corrupt, result) == Replay(file)
    {
      delivered, corrupt := [], 0;
      var left := file;
      ghost var whole, rest := Replay(file), Replay(file);
      while true
        invariant crc.Valid()
        invariant rest == Replay(left) && Following(delivered, corrupt, rest) == whole
        decreases |left|
      {
        var read := ReadFrame(left);
        ghost var later := Replay(LeftOf(read));
        FollowRead(delivered, corrupt, read, rest, later);
        match read
        case Stop(c, end) =>
          corrupt, result := corrupt + c, end;
          break;
        case Skip(next) =>
          corrupt, left, rest := corrupt + 1, next, later;
        case Deliver(e, next) =>
          delivered, left, rest := delivered + [e], next, later;
      }
    }
  }
}
