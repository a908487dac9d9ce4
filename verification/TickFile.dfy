/** Recorded market data: the .htick files the recorder appends to and the backtest reads. */
module TickFile {
  import opened BinaryIo
  import opened Bytes
  import opened Int64
  import opened Sequences

  const DEPTH := 5

  datatype Level = Level(price: real, volume: int32)

  /** The recorded part of a tick. The texts are C strings in buffers of the capacities below. */
  datatype Tick = Tick(
    instrument: seq<octet>, exchange: seq<octet>, updateTime: seq<octet>, tradingDay: seq<octet>, actionDay: seq<octet>,
    updateMillisec: int32,
    lastPrice: real, preClosePrice: real, openPrice: real, highestPrice: real, lowestPrice: real,
    volume: int32, turnover: real, openInterest: real,
    bid: seq<Level>, ask: seq<Level>,
    upperLimit: real, lowerLimit: real)

  const INSTRUMENT_SIZE := 24
  const EXCHANGE_SIZE := 8
  const TIME_SIZE := 12

  /** A text that a buffer of that size holds. */
  predicate Holds(size: nat, s: seq<octet>)
  {
    |s| < size && 0 !in s
  }

  predicate Valid(t: Tick)
  {
    && Holds(INSTRUMENT_SIZE, t.instrument) && Holds(EXCHANGE_SIZE, t.exchange)
    && Holds(TIME_SIZE, t.updateTime) && Holds(TIME_SIZE, t.tradingDay) && Holds(TIME_SIZE, t.actionDay)
    && |t.bid| == |t.ask| == DEPTH
  }

  // ----- writing -----

  function DepthFields(bid: seq<Level>, ask: seq<Level>): seq<Field>
    requires |bid| == |ask|
    decreases |bid|
  {
    if bid == [] then [] else
      [SInt(FixedPrice(bid[0].price)), UInt(Clamped(bid[0].volume)),
       SInt(FixedPrice(ask[0].price)), UInt(Clamped(ask[0].volume))]
      + DepthFields(bid[1..], ask[1..])
  }

  function HeadFields(t: Tick): seq<Field>
  {
    [Str(t.instrument), Str(t.exchange), Str(t.updateTime), Str(t.tradingDay), Str(t.actionDay),
     UInt(Clamped(t.updateMillisec)),
     SInt(FixedPrice(t.lastPrice)), SInt(FixedPrice(t.preClosePrice)), SInt(FixedPrice(t.openPrice)),
     SInt(FixedPrice(t.highestPrice)), SInt(FixedPrice(t.lowestPrice)),
     UInt(Clamped(t.volume)), SInt(FixedTurnover(t.turnover)), SInt(FixedTurnover(t.openInterest))]
  }

  function TailFields(t: Tick): seq<Field>
  {
    [SInt(FixedPrice(t.upperLimit)), SInt(FixedPrice(t.lowerLimit))]
  }

  /** The fields of a tick in file order. */
  function Fields(t: Tick): seq<Field>
    requires |t.bid| == |t.ask|
  {
    HeadFields(t) + DepthFields(t.bid, t.ask) + TailFields(t)
  }

  // ----- reading -----

  function HeadKinds(): seq<Kind>
  {
    [AStr, AStr, AStr, AStr, AStr, AUInt, ASInt, ASInt, ASInt, ASInt, ASInt, AUInt, ASInt, ASInt]
  }

  function DepthKinds(n: nat): (kinds: seq<Kind>)
    ensures |kinds| == 4 * n
  {
    if n == 0 then [] else [ASInt, AUInt, ASInt, AUInt] + DepthKinds(n - 1)
  }

  function TickKinds(): (kinds: seq<Kind>)
    ensures |kinds| == 36
  {
    HeadKinds() + DepthKinds(DEPTH) + [ASInt, ASInt]
  }

  /** The C string at the front of a text. */
  function CString(s: seq<octet>): (c: seq<octet>)
    ensures 0 !in s ==> c == s
    ensures |c| <= |s| && 0 !in c
    decreases |s|
  {
    if s == [] || s[0] == 0 then [] else [s[0]] + CString(s[1..])
  }

  /** Copied into a zeroed buffer of the given size. */
  function Copied(size: nat, s: seq<octet>): (c: seq<octet>)
    requires size > 0
    ensures Holds(size, c)
    ensures Holds(size, s) ==> c == s
  {
    var c := CString(s);
    if |c| < size then c else c[..size - 1]
  }

  function LevelsOf(depth: seq<Field>, at: nat): seq<Level>
    requires at <= 2
    decreases |depth|
  {
    if |depth| < 4 then []
    else [Level(RestorePrice(SIntOf(depth[at])), Narrow(UIntOf(depth[at + 1])))] + LevelsOf(depth[4..], at)
  }

  function FromFields(fs: seq<Field>): (t: Tick)
    requires |fs| == 36
  {
    var depth := fs[14..34];
    Tick(Copied(INSTRUMENT_SIZE, StrOf(fs[0])), Copied(EXCHANGE_SIZE, StrOf(fs[1])), Copied(TIME_SIZE, StrOf(fs[2])),
         Copied(TIME_SIZE, StrOf(fs[3])), Copied(TIME_SIZE, StrOf(fs[4])),
         Narrow(UIntOf(fs[5])),
         RestorePrice(SIntOf(fs[6])), RestorePrice(SIntOf(fs[7])), RestorePrice(SIntOf(fs[8])),
         RestorePrice(SIntOf(fs[9])), RestorePrice(SIntOf(fs[10])),
         Narrow(UIntOf(fs[11])), RestoreTurnover(SIntOf(fs[12])), RestoreTurnover(SIntOf(fs[13])),
         LevelsOf(depth, 0), LevelsOf(depth, 2),
         RestorePrice(SIntOf(fs[34])), RestorePrice(SIntOf(fs[35])))
  }

  /** The outcome of the reading loop: the ticks, and whether the stream reached its end. */
  datatype Ticks = Ticks(ticks: seq<Tick>, eof: bool)

  function ReadTicks(s: seq<octet>): Ticks
    decreases |s|
  {
    if s == [] then Ticks([], true)
    else match DecodeAll(TickKinds(), s)
      case Fail(ranOut) => Ticks([], ranOut)
      case Got(fs, left) => Then(FromFields(fs), ReadTicks(left))
  }

  function Then(t: Tick, r: Ticks): Ticks
  {
    r.(ticks := [t] + r.ticks)
  }

  // ----- a tick and what the file keeps of it -----

  function StoredPrice(v: real): real { RestorePrice(FixedPrice(v)) }
  function StoredTurnover(v: real): real { RestoreTurnover(FixedTurnover(v)) }

  function StoredLevels(levels: seq<Level>): (r: seq<Level>)
    ensures |r| == |levels|
    decreases |levels|
  {
    if levels == [] then []
    else [Level(StoredPrice(levels[0].price), Clamped(levels[0].volume))] + StoredLevels(levels[1..])
  }

  /** A tick as the file keeps it: prices to four decimals, money to two, negative counts zero. */
  function Stored(t: Tick): Tick
  {
    t.(updateMillisec := Clamped(t.updateMillisec), volume := Clamped(t.volume),
       lastPrice := StoredPrice(t.lastPrice), preClosePrice := StoredPrice(t.preClosePrice),
       openPrice := StoredPrice(t.openPrice), highestPrice := StoredPrice(t.highestPrice),
       lowestPrice := StoredPrice(t.lowestPrice),
       turnover := StoredTurnover(t.turnover), openInterest := StoredTurnover(t.openInterest),
       bid := StoredLevels(t.bid), ask := StoredLevels(t.ask),
       upperLimit := StoredPrice(t.upperLimit), lowerLimit := StoredPrice(t.lowerLimit))
  }

  lemma {:induction false} DepthKindsOf(bid: seq<Level>, ask: seq<Level>)
    requires |bid| == |ask|
    ensures var d := DepthFields(bid, ask); |d| == 4 * |bid| && AllHoldable(d) && Kinds(d) == DepthKinds(|bid|)
    decreases |bid|
  {
    if bid != [] {
      DepthKindsOf(bid[1..], ask[1..]);
    }
  }

  lemma {:induction false} DepthBack(bid: seq<Level>, ask: seq<Level>)
    requires |bid| == |ask|
    ensures var d := DepthFields(bid, ask); LevelsOf(d, 0) == StoredLevels(bid) && LevelsOf(d, 2) == StoredLevels(ask)
    decreases |bid|
  {
    if bid != [] {
      DepthBack(bid[1..], ask[1..]);
      NarrowIsExact(Clamped(bid[0].volume));
      NarrowIsExact(Clamped(ask[0].volume));
      assert DepthFields(bid, ask)[4..] == DepthFields(bid[1..], ask[1..]);
    }
  }

  lemma HeadHoldable(t: Tick)
    requires Valid(t)
    ensures AllHoldable(HeadFields(t))
  {}

  lemma EndKinds(t: Tick)
    ensures Kinds(HeadFields(t)) == HeadKinds() && Kinds(TailFields(t)) == [ASInt, ASInt] && AllHoldable(TailFields(t))
  {}

  lemma FieldKinds(t: Tick)
    requires Valid(t)
    ensures AllHoldable(Fields(t)) && Kinds(Fields(t)) == TickKinds()
  {
    var head, depth, tail := HeadFields(t), DepthFields(t.bid, t.ask), TailFields(t);
    DepthKindsOf(t.bid, t.ask);
    HeadHoldable(t);
    EndKinds(t);
    FieldsConcat(head, depth);
    FieldsConcat(head + depth, tail);
  }

  lemma FieldPlaces(t: Tick, fs: seq<Field>)
    requires Valid(t) && fs == Fields(t)
    ensures |fs| == 36 && fs[..14] == HeadFields(t) && fs[14..34] == DepthFields(t.bid, t.ask) && fs[34..] == TailFields(t)
  {
    DepthKindsOf(t.bid, t.ask);
  }

  lemma FieldsBack(t: Tick, fs: seq<Field>)
    requires Valid(t) && |fs| == 36
    requires fs[..14] == HeadFields(t) && fs[14..34] == DepthFields(t.bid, t.ask) && fs[34..] == TailFields(t)
    ensures FromFields(fs) == Stored(t)
  {
    DepthBack(t.bid, t.ask);
    NarrowIsExact(Clamped(t.updateMillisec));
    NarrowIsExact(Clamped(t.volume));
    var head := fs[..14];
    assert forall i :: 0 <= i < 14 ==> fs[i] == head[i];
    assert fs[34] == fs[34..][0] && fs[35] == fs[34..][1];
  }

  lemma FieldsRead(t: Tick)
    requires Valid(t)
    ensures |Fields(t)| == 36 && FromFields(Fields(t)) == Stored(t)
  {
    FieldPlaces(t, Fields(t));
    FieldsBack(t, Fields(t));
  }

  // ----- the file -----

  /** "HFTTICK1" */
  const MAGIC: seq<octet> := [0x48, 0x46, 0x54, 0x54, 0x49, 0x43, 0x4B, 0x31]

  function Layout(t: Tick): seq<octet>
  {
    if |t.bid| == |t.ask| then EncodeAll(Fields(t)) else []
  }

  /** The file the recorder has written after the given ticks. */
  function Recorded(ticks: seq<Tick>): seq<octet>
  {
    MAGIC + Joined(Layout, ticks)
  }

  /** What reading a file appends to a list of ticks, and whether it counts as a success. */
  function ReadFile(file: seq<octet>, ticks: seq<Tick>): (bool, seq<Tick>)
  {
    if |file| < |MAGIC| || file[..|MAGIC|] != MAGIC then (false, ticks)
    else
      var r := ReadTicks(file[|MAGIC|..]);
      (ticks + r.ticks != [] || r.eof, ticks + r.ticks)
  }

  function Ending(whole: bool): Ticks { Ticks([], true) }

  function Keep(t: Tick, r: Ticks): Ticks { Then(Stored(t), r) }

  /** The reader takes a whole tick whatever follows, and nothing from a tick cut short. */
  lemma TickTaken(t: Tick)
    requires Valid(t)
    ensures Takes(ReadTicks, Layout, Keep, Ending, t)
  {
    FieldKinds(t);
    FieldsRead(t);
    var fs := Fields(t);
    forall rest ensures ReadTicks(Layout(t) + rest) == Then(Stored(t), ReadTicks(rest)) {
      RecordRoundTrip(fs, rest);
    }
    forall cut | 0 < cut < |Layout(t)| ensures ReadTicks(Layout(t)[..cut]) == Ending(false) {
      RecordStump(fs, cut);
    }
  }

  predicate AllValid(ticks: seq<Tick>)
  {
    forall i :: 0 <= i < |ticks| ==> Valid(ticks[i])
  }

  lemma {:induction false} FoldedTicks(ticks: seq<Tick>, end: Ticks)
    requires end.ticks == []
    ensures Folded(Keep, ticks, end) == Ticks(Mapped(Stored, ticks), end.eof)
    decreases |ticks|
  {
    if ticks != [] { FoldedTicks(ticks[1..], end); }
  }

  lemma {:induction false} PrefixPastMagic(ticks: seq<Tick>, past: nat, k: nat)
    requires AllValid(ticks) && past <= |Joined(Layout, ticks)| && k == Whole(Layout, ticks, past)
    ensures Fit(Layout, ticks, past, k)
    ensures ReadTicks(Joined(Layout, ticks)[..past]) == Ticks(Mapped(Stored, ticks[..k]), true)
  {
    forall i | 0 <= i < |ticks| ensures Takes(ReadTicks, Layout, Keep, Ending, ticks[i]) {
      TickTaken(ticks[i]);
    }
    WholeFit(Layout, ticks, past);
    ReadCut(ReadTicks, Layout, Keep, Ending, ticks, past);
    FoldedTicks(ticks[..k], Ticks([], true));
  }

  /** k is how many ticks lie wholly within the first cut bytes of a recorded file. */
  ghost predicate WholeTicks(ticks: seq<Tick>, cut: nat, k: nat)
  {
    && k <= |ticks|
    && |Recorded(ticks[..k])| <= cut && (k < |ticks| ==> cut < |Recorded(ticks[..k + 1])|)
  }

  lemma {:induction false} RecordedSize(ticks: seq<Tick>, past: nat, cut: nat, k: nat)
    requires Fit(Layout, ticks, past, k) && cut == |MAGIC| + past
    ensures WholeTicks(ticks, cut, k)
  {}

  lemma {:induction false} ReadPastMagic(file: seq<octet>, s: seq<octet>, already: seq<Tick>, read: seq<Tick>)
    requires file == MAGIC + s && ReadTicks(s) == Ticks(read, true)
    ensures ReadFile(file, already) == (true, already + read)
  {
    assert file[..|MAGIC|] == MAGIC && file[|MAGIC|..] == s;
  }

  lemma PastMagic(s: seq<octet>, past: nat, cut: nat)
    requires past <= |s| && cut == |MAGIC| + past
    ensures (MAGIC + s)[..cut] == MAGIC + s[..past]
  {}

  /** The main theorem: from any prefix of a recorded file past the magic, the reader returns
      exactly the complete ticks, each as the file keeps it, and reports success. */
  lemma {:induction false} RecordedPrefixReads(ticks: seq<Tick>, past: nat, cut: nat, already: seq<Tick>) returns (k: nat)
    requires AllValid(ticks) && cut == |MAGIC| + past <= |Recorded(ticks)|
    ensures WholeTicks(ticks, cut, k)
    ensures ReadFile(Recorded(ticks)[..cut], already) == (true, already + Mapped(Stored, ticks[..k]))
  {
    k := Whole(Layout, ticks, past);
    PrefixPastMagic(ticks, past, k);
    RecordedSize(ticks, past, cut, k);
    var s := Joined(Layout, ticks);
    PastMagic(s, past, cut);
    ReadPastMagic(MAGIC + s[..past], s[..past], already, Mapped(Stored, ticks[..k]));
  }

  /** Before the end of the magic there is no tick file. */
  lemma NoMagicNoTicks(ticks: seq<Tick>, cut: nat, already: seq<Tick>)
    requires cut < |MAGIC|
    ensures ReadFile(Recorded(ticks)[..cut], already) == (false, already)
  {}

  lemma {:induction false} TicksThen(ticks: seq<Tick>, rest: seq<octet>, eof: bool)
    requires AllValid(ticks) && ReadTicks(rest) == Ticks([], eof)
    ensures ReadTicks(Joined(Layout, ticks) + rest) == Ticks(Mapped(Stored, ticks), eof)
  {
    forall i | 0 <= i < |ticks| ensures Takes(ReadTicks, Layout, Keep, Ending, ticks[i]) { TickTaken(ticks[i]); }
    ReadOn(ReadTicks, Layout, Keep, Ending, ticks, rest);
    FoldedTicks(ticks, Ticks([], eof));
  }

  lemma {:induction false} FilePastMagic(file: seq<octet>, s: seq<octet>, already: seq<Tick>, r: Ticks, all: seq<Tick>)
    requires file == MAGIC + s && ReadTicks(s) == r && all == already + r.ticks
    ensures ReadFile(file, already) == (all != [] || r.eof, all)
  {
    assert file[..|MAGIC|] == MAGIC && file[|MAGIC|..] == s;
  }

  lemma GarbageYieldsNothing(rest: seq<octet>, ranOut: bool)
    requires rest != [] && DecodeAll(TickKinds(), rest) == Fail(ranOut)
    ensures ReadTicks(rest) == Ticks([], ranOut)
  {}

  /** What cannot be read as a tick ends the reading: the ticks before it are kept, and it counts as a
      success if there are any, or if what is there merely broke off. */
  lemma {:induction false} GarbageEndsReading(
      ticks: seq<Tick>, rest: seq<octet>, file: seq<octet>, ranOut: bool, already: seq<Tick>, all: seq<Tick>)
    requires AllValid(ticks) && rest != [] && DecodeAll(TickKinds(), rest) == Fail(ranOut)
    requires file == MAGIC + (Joined(Layout, ticks) + rest) && all == already + Mapped(Stored, ticks)
    ensures ReadFile(file, already) == (all != [] || ranOut, all)
  {
    GarbageYieldsNothing(rest, ranOut);
    TicksThen(ticks, rest, ranOut);
    FilePastMagic(file, Joined(Layout, ticks) + rest, already, Ticks(Mapped(Stored, ticks), ranOut), all);
  }

  /** A file that does not begin with "HFTTICK1" is no tick file. */
  lemma OtherFilesRefused(file: seq<octet>, already: seq<Tick>)
    requires !([0x48, 0x46, 0x54, 0x54, 0x49, 0x43, 0x4B, 0x31] <= file)
    ensures ReadFile(file, already) == (false, already)
  {}

  // ----- recording what was read -----

  lemma {:induction false} StoredLevelsStable(levels: seq<Level>)
    ensures StoredLevels(StoredLevels(levels)) == StoredLevels(levels)
    decreases |levels|
  {
    if levels != [] {
      FixedIsStable(FixedPrice(levels[0].price));
      StoredLevelsStable(levels[1..]);
    }
  }

  lemma StoredPriceStable(v: real)
    ensures FixedPrice(StoredPrice(v)) == FixedPrice(v) && FixedTurnover(StoredTurnover(v)) == FixedTurnover(v)
  {
    FixedIsStable(FixedPrice(v));
    FixedIsStable(FixedTurnover(v));
  }

  lemma {:induction false} DepthStable(bid: seq<Level>, ask: seq<Level>)
    requires |bid| == |ask|
    ensures DepthFields(StoredLevels(bid), StoredLevels(ask)) == DepthFields(bid, ask)
    decreases |bid|
  {
    if bid != [] {
      StoredPriceStable(bid[0].price);
      StoredPriceStable(ask[0].price);
      DepthStable(bid[1..], ask[1..]);
      assert StoredLevels(bid)[1..] == StoredLevels(bid[1..]) && StoredLevels(ask)[1..] == StoredLevels(ask[1..]);
    }
  }

  /** Recording a tick that was read back writes the very same bytes. */
  lemma RecordingAgainIsIdentical(t: Tick)
    requires Valid(t)
    ensures Valid(Stored(t)) && Layout(Stored(t)) == Layout(t)
  {
    DepthStable(t.bid, t.ask);
    StoredPriceStable(t.lastPrice);
    StoredPriceStable(t.preClosePrice);
    StoredPriceStable(t.openPrice);
    StoredPriceStable(t.highestPrice);
    StoredPriceStable(t.lowestPrice);
    StoredPriceStable(t.upperLimit);
    StoredPriceStable(t.lowerLimit);
    StoredPriceStable(t.turnover);
    StoredPriceStable(t.openInterest);
    assert HeadFields(Stored(t)) == HeadFields(t) && TailFields(Stored(t)) == TailFields(t);
  }

  // ----- the loops -----

  method WriteTick(os: OutputStream, t: Tick)
    requires Valid(t)
    modifies os
    ensures os.bytes == old(os.bytes) + Layout(t)
  {
    FieldKinds(t);
    os.PutFields(Fields(t));
  }

  /** One tick, field by field; nothing is promised about a tick that could not be read. */
  method ReadOneTick(stream: InputStream) returns (ok: bool, ranOut: bool, tick: Tick)
    modifies stream
    ensures match DecodeAll(TickKinds(), old(stream.left))
      case Got(fs, left) => ok && tick == FromFields(fs) && stream.left == left
      case Fail(e) => !ok && ranOut == e
  {
    var fs;
    ok, ranOut, fs := stream.GetFields(TickKinds());
    if ok {
      tick := FromFields(fs);
    } else {
      tick := FromFields(seq(36, _ => UInt(0)));
    }
  }

  function ThenAll(out: seq<Tick>, r: Ticks): Ticks
  {
    Ticks(out + r.ticks, r.eof)
  }

  lemma AfterTick(out: seq<Tick>, t: Tick, r: Ticks)
    ensures ThenAll(out, Then(t, r)) == ThenAll(out + [t], r)
  {
    assert out + ([t] + r.ticks) == out + [t] + r.ticks;
  }

  method ReadHtickFile(file: seq<octet>, already: seq<Tick>) returns (ok: bool, out: seq<Tick>)
    ensures (ok, out) == ReadFile(file, already)
  {
    out := already;
    if |file| < |MAGIC| || file[..|MAGIC|] != MAGIC { return false, out; }
    var stream := new InputStream(file[|MAGIC|..]);
    var eof := true;
    ghost var whole := ReadTicks(stream.left);
    while stream.left != []
      invariant eof && ThenAll(out, ReadTicks(stream.left)) == ThenAll(already, whole)
      decreases |stream.left|
    {
      ghost var here := stream.left;
      var read, ranOut, tick := ReadOneTick(stream);
      if !read {
        eof := ranOut;
        break;
      }
      AfterTick(out, tick, ReadTicks(stream.left));
      out := out + [tick];
    }
    assert out + [] == out;
    ok := out != [] || eof;
  }
}
