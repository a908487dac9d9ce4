/** The persisted K-line store: delta-coded bars per instrument and period, saved and loaded. */
module KlineStore {
  import opened BinaryIo
  import opened Bytes
  import opened Int64
  import opened Options
  import opened OrderedMap
  import opened Sequences
  import opened Texts

  datatype Bar = Bar(timestamp: int64, open: real, high: real, low: real, close: real, volume: int32, turnover: real)

  /** Bars by period by instrument, as the manager caches them. */
  type Periods = Map<text, seq<Bar>>
  type Cache = Map<text, Periods>

  // ----- a bar in fixed point -----

  datatype Fixed = Fixed(timestamp: int64, open: int64, high: int64, low: int64, close: int64, volume: uint64, turnover: int64)

  function Fix(b: Bar): Fixed
  {
    Fixed(b.timestamp, FixedPrice(b.open), FixedPrice(b.high), FixedPrice(b.low), FixedPrice(b.close),
          Clamped(b.volume), FixedTurnover(b.turnover))
  }

  function Unfix(f: Fixed): Bar
  {
    Bar(f.timestamp, RestorePrice(f.open), RestorePrice(f.high), RestorePrice(f.low), RestorePrice(f.close),
        Narrow(f.volume), RestoreTurnover(f.turnover))
  }

  /** A bar as the store keeps it: prices to four decimals, turnover to two, no negative volume. */
  function StoredBar(b: Bar): Bar
  {
    Unfix(Fix(b))
  }

  lemma StoredBarStable(b: Bar)
    ensures Fix(StoredBar(b)) == Fix(b)
    ensures StoredBar(b).timestamp == b.timestamp && StoredBar(b).volume == Clamped(b.volume)
  {
    FixedIsStable(FixedPrice(b.open));
    FixedIsStable(FixedPrice(b.high));
    FixedIsStable(FixedPrice(b.low));
    FixedIsStable(FixedPrice(b.close));
    FixedIsStable(FixedTurnover(b.turnover));
    NarrowIsExact(Clamped(b.volume));
  }

  /** A price or an amount of money that fits into 64 bits as fixed point. */
  predicate Fits(v: real, scale: real)
  {
    -(TWO63 as real) <= v * scale <= TWO63 as real - 1.0
  }

  predicate Near(a: real, b: real, d: real)
  {
    a - d <= b <= a + d
  }

  /** Every field comes back in its own place: prices to within half of the fourth decimal, turnover to
      within half of the second. */
  lemma StoredBarIsNear(b: Bar)
    requires Fits(b.open, 10000.0) && Fits(b.high, 10000.0) && Fits(b.low, 10000.0) && Fits(b.close, 10000.0)
    requires Fits(b.turnover, 100.0)
    ensures var s := StoredBar(b);
      && Near(b.open, s.open, 0.00005) && Near(b.high, s.high, 0.00005)
      && Near(b.low, s.low, 0.00005) && Near(b.close, s.close, 0.00005) && Near(b.turnover, s.turnover, 0.005)
  {
    FixedIsClose(b.open);
    FixedIsClose(b.high);
    FixedIsClose(b.low);
    FixedIsClose(b.close);
    FixedIsClose(b.turnover);
  }

  // ----- deltas -----

  datatype Delta = Delta(timestamp: uint64, open: int64, high: int64, low: int64, close: int64, volume: uint64, turnover: int64)

  /** Coded against the bar before; the first bar of a list is coded as it is. */
  function DeltaOf(first: bool, before: Fixed, f: Fixed): Delta
  {
    Delta(
      if first then Unsigned(f.timestamp) else Unsigned(SMinus(f.timestamp, before.timestamp)),
      if first then f.open else SMinus(f.open, before.close),
      SMinus(f.high, f.open), SMinus(f.low, f.open), SMinus(f.close, f.open),
      f.volume,
      if first then f.turnover else SMinus(f.turnover, before.turnover))
  }

  function Undelta(first: bool, before: Fixed, d: Delta): Fixed
  {
    var open := if first then d.open else SPlus(before.close, d.open);
    Fixed(
      if first then Signed(d.timestamp) else SPlus(before.timestamp, Signed(d.timestamp)),
      open, SPlus(open, d.high), SPlus(open, d.low), SPlus(open, d.close),
      d.volume,
      if first then d.turnover else SPlus(before.turnover, d.turnover))
  }

  /** Differences undo exactly, even where they wrap. */
  lemma UndeltaDelta(first: bool, before: Fixed, f: Fixed)
    ensures Undelta(first, before, DeltaOf(first, before, f)) == f
  {
    SMinusPlus(f.timestamp, before.timestamp);
    SMinusPlus(f.open, before.close);
    SMinusPlus(f.high, f.open);
    SMinusPlus(f.low, f.open);
    SMinusPlus(f.close, f.open);
    SMinusPlus(f.turnover, before.turnover);
  }

  const NOTHING := Fixed(0, 0, 0, 0, 0, 0, 0)

  function Deltas(first: bool, before: Fixed, bars: seq<Bar>): (ds: seq<Delta>)
    ensures |ds| == |bars|
    decreases |bars|
  {
    if bars == [] then [] else
      var f := Fix(bars[0]);
      [DeltaOf(first, before, f)] + Deltas(false, f, bars[1..])
  }

  function Undeltas(first: bool, before: Fixed, ds: seq<Delta>): (bars: seq<Bar>)
    ensures |bars| == |ds|
    decreases |ds|
  {
    if ds == [] then [] else
      var f := Undelta(first, before, ds[0]);
      [Unfix(f)] + Undeltas(false, f, ds[1..])
  }

  lemma {:induction false} UndeltasDeltas(first: bool, before: Fixed, bars: seq<Bar>)
    ensures Undeltas(first, before, Deltas(first, before, bars)) == Mapped(StoredBar, bars)
    decreases |bars|
  {
    if bars != [] {
      var f := Fix(bars[0]);
      UndeltaDelta(first, before, f);
      UndeltasDeltas(false, f, bars[1..]);
      assert Deltas(first, before, bars)[1..] == Deltas(false, f, bars[1..]);
    }
  }

  lemma {:induction false} DeltasStable(first: bool, before: Fixed, bars: seq<Bar>)
    ensures Deltas(first, before, Mapped(StoredBar, bars)) == Deltas(first, before, bars)
    decreases |bars|
  {
    if bars != [] {
      StoredBarStable(bars[0]);
      DeltasStable(false, Fix(bars[0]), bars[1..]);
      assert Mapped(StoredBar, bars)[1..] == Mapped(StoredBar, bars[1..]);
    }
  }

  /** The coding by example: a minute later, the open from the close before, the other prices from the
      open, the turnover from the turnover before. */
  lemma DeltaExample()
    ensures var a, b := Fixed(60000, 100, 120, 90, 110, 7, 5000), Fixed(120000, 111, 125, 104, 118, 9, 5600);
      && DeltaOf(true, NOTHING, a) == Delta(60000, 100, 20, -10, 10, 7, 5000)
      && DeltaOf(false, a, b) == Delta(60000, 1, 14, -7, 7, 9, 600)
      && DeltaFields(DeltaOf(false, a, b)) == [UInt(60000), SInt(1), SInt(14), SInt(-7), SInt(7), UInt(9), SInt(600)]
  {}

  // ----- layout -----

  function DeltaFields(d: Delta): seq<Field>
  {
    [UInt(d.timestamp), SInt(d.open), SInt(d.high), SInt(d.low), SInt(d.close), UInt(d.volume), SInt(d.turnover)]
  }

  function DeltaKinds(): (kinds: seq<Kind>)
    ensures |kinds| == 7
  {
    [AUInt, ASInt, ASInt, ASInt, ASInt, AUInt, ASInt]
  }

  function DeltaBytes(d: Delta): seq<octet>
  {
    EncodeAll(DeltaFields(d))
  }

  function DeltaFrom(fs: seq<Field>): Delta
    requires |fs| == 7
  {
    Delta(UIntOf(fs[0]), SIntOf(fs[1]), SIntOf(fs[2]), SIntOf(fs[3]), SIntOf(fs[4]), UIntOf(fs[5]), SIntOf(fs[6]))
  }

  function ReadDelta(s: seq<octet>): Read<Delta>
  {
    match DecodeAll(DeltaKinds(), s)
    case Fail(e) => Fail(e)
    case Got(fs, left) => Got(DeltaFrom(fs), left)
  }

  function PeriodBytes(p: Section<Delta>): seq<octet> { SectionBytes(DeltaBytes, p) }
  function ReadPeriod(s: seq<octet>): Read<Section<Delta>> { ReadSection(ReadDelta, s) }

  function InstrumentBytes(i: Section<Section<Delta>>): seq<octet> { SectionBytes(PeriodBytes, i) }
  function ReadInstrument(s: seq<octet>): Read<Section<Section<Delta>>> { ReadSection(ReadPeriod, s) }

  lemma DeltaCodes(d: Delta)
    ensures Codes(DeltaBytes, ReadDelta, d)
  {
    var fs := DeltaFields(d);
    assert Kinds(fs) == DeltaKinds() && AllHoldable(fs);
    forall rest ensures ReadDelta(DeltaBytes(d) + rest) == Got(d, rest) { RecordRoundTrip(fs, rest); }
    forall cut | 0 <= cut < |DeltaBytes(d)| ensures ReadDelta(DeltaBytes(d)[..cut]) == Fail(true) { RecordStump(fs, cut); }
  }

  /** A name and a count the machine can hold. */
  predicate Sized<A>(s: Section<A>)
  {
    |s.name| < TWO63 && |s.items| < TWO64
  }

  lemma PeriodCodes(p: Section<Delta>)
    requires Sized(p)
    ensures Codes(PeriodBytes, ReadPeriod, p)
  {
    forall i | 0 <= i < |p.items| ensures Codes(DeltaBytes, ReadDelta, p.items[i]) { DeltaCodes(p.items[i]); }
    forall rest ensures ReadPeriod(PeriodBytes(p) + rest) == Got(p, rest) {
      SectionRoundTrip(DeltaBytes, ReadDelta, p, rest);
    }
    forall cut | 0 <= cut < |PeriodBytes(p)| ensures ReadPeriod(PeriodBytes(p)[..cut]) == Fail(true) {
      SectionStump(DeltaBytes, ReadDelta, p, cut);
    }
  }

  predicate AllSized(i: Section<Section<Delta>>)
  {
    Sized(i) && forall j :: 0 <= j < |i.items| ==> Sized(i.items[j])
  }

  lemma InstrumentCodes(s: Section<Section<Delta>>)
    requires AllSized(s)
    ensures Codes(InstrumentBytes, ReadInstrument, s)
  {
    forall i | 0 <= i < |s.items| ensures Codes(PeriodBytes, ReadPeriod, s.items[i]) { PeriodCodes(s.items[i]); }
    forall rest ensures ReadInstrument(InstrumentBytes(s) + rest) == Got(s, rest) {
      SectionRoundTrip(PeriodBytes, ReadPeriod, s, rest);
    }
    forall cut | 0 <= cut < |InstrumentBytes(s)| ensures ReadInstrument(InstrumentBytes(s)[..cut]) == Fail(true) {
      SectionStump(PeriodBytes, ReadPeriod, s, cut);
    }
  }

  // ----- saving -----

  const PERSISTED := 400

  /** "HFTKDB1" */
  const MAGIC: seq<octet> := [0x48, 0x46, 0x54, 0x4B, 0x44, 0x42, 0x31]

  function Last(bars: seq<Bar>): seq<Bar>
  {
    if |bars| > PERSISTED then bars[|bars| - PERSISTED..] else bars
  }

  /** The periods that have bars, with the last 400 of each. */
  function SnapPeriods(periods: Periods): (snap: Periods)
    ensures |snap| <= |periods|
    decreases |periods|
  {
    if periods == [] then []
    else if periods[0].value == [] then SnapPeriods(periods[1..])
    else [Entry(periods[0].key, Last(periods[0].value))] + SnapPeriods(periods[1..])
  }

  /** The instruments that have such a period. */
  function Snapshot(cache: Cache): (snap: Cache)
    ensures |snap| <= |cache|
    decreases |cache|
  {
    if cache == [] then []
    else
      var periods := SnapPeriods(cache[0].value);
      if periods == [] then Snapshot(cache[1..]) else [Entry(cache[0].key, periods)] + Snapshot(cache[1..])
  }

  function PeriodSection(e: Entry<text, seq<Bar>>): Section<Delta>
  {
    Section(e.key, Deltas(true, NOTHING, e.value))
  }

  function InstrumentSection(e: Entry<text, Periods>): Section<Section<Delta>>
  {
    Section(e.key, Mapped(PeriodSection, e.value))
  }

  function Sections(cache: Cache): (sections: seq<Section<Section<Delta>>>)
    ensures |sections| <= |cache|
  {
    Mapped(InstrumentSection, Snapshot(cache))
  }

  /** The file save_store writes. */
  function Save(cache: Cache): seq<octet>
  {
    MAGIC + Counted(InstrumentBytes, Sections(cache))
  }

  // ----- loading -----

  function AddPeriods(less: (text, text) -> bool, periods: Periods, sections: seq<Section<Delta>>): Periods
    decreases |sections|
  {
    if sections == [] then periods
    else
      var s := sections[0];
      var bars := GetOr(periods, s.name, []) + Undeltas(true, NOTHING, s.items);
      AddPeriods(less, Put(less, periods, s.name, bars), sections[1..])
  }

  function AddInstruments(less: (text, text) -> bool, cache: Cache, sections: seq<Section<Section<Delta>>>): Cache
    decreases |sections|
  {
    if sections == [] then cache
    else
      var s := sections[0];
      AddInstruments(less, Put(less, cache, s.name, AddPeriods(less, GetOr(cache, s.name, []), s.items)), sections[1..])
  }

  /** What load_store makes of a file: the cache to install, or none. */
  function Load(file: seq<octet>): Option<Cache>
  {
    if |file| < |MAGIC| || file[..|MAGIC|] != MAGIC then None
    else
      match ReadCounted(ReadInstrument, file[|MAGIC|..])
      case Fail(_) => None
      case Got(sections, _) => Some(AddInstruments(Below, [], sections))
  }

  // ----- what the store keeps of a cache -----

  function KeepPeriod(e: Entry<text, seq<Bar>>): Entry<text, seq<Bar>>
  {
    Entry(e.key, Mapped(StoredBar, e.value))
  }

  function KeepInstrument(e: Entry<text, Periods>): Entry<text, Periods>
  {
    Entry(e.key, Mapped(KeepPeriod, e.value))
  }

  /** The last 400 bars of every period that has any, as the store keeps them. */
  function Kept(cache: Cache): Cache
  {
    Mapped(KeepInstrument, Snapshot(cache))
  }

  predicate ShortNames(periods: Periods)
  {
    forall i :: 0 <= i < |periods| ==> |periods[i].key| < TWO63
  }

  /** The sizes a machine can hold. */
  predicate SanePeriods(periods: Periods)
  {
    |periods| < TWO64 && ShortNames(periods)
  }

  predicate AllSane(cache: Cache)
  {
    forall i :: 0 <= i < |cache| ==> |cache[i].key| < TWO63 && SanePeriods(cache[i].value)
  }

  predicate Sane(cache: Cache)
  {
    |cache| < TWO64 && AllSane(cache)
  }

  ghost predicate AllAscending(less: (text, text) -> bool, cache: Cache)
  {
    forall i :: 0 <= i < |cache| ==> Ascending(less, cache[i].value)
  }

  ghost predicate Ordered(cache: Cache)
  {
    Ascending(Below, cache) && AllAscending(Below, cache)
  }

  // ----- a snapshot is as sane and as ordered as the cache, and trim -----

  /** A snapshot holds at most 400 bars a period, and no period without bars. */
  predicate Trim(periods: Periods)
  {
    forall i :: 0 <= i < |periods| ==> 0 < |periods[i].value| <= PERSISTED
  }

  lemma {:induction false} SnapPeriodsTrim(periods: Periods)
    ensures Trim(SnapPeriods(periods))
    decreases |periods|
  {
    if periods != [] { SnapPeriodsTrim(periods[1..]); }
  }

  predicate AllTrim(cache: Cache)
  {
    forall i :: 0 <= i < |cache| ==> Trim(cache[i].value)
  }

  lemma {:induction false} SnapshotTrim(cache: Cache)
    ensures AllTrim(Snapshot(cache))
    decreases |cache|
  {
    if cache != [] {
      SnapPeriodsTrim(cache[0].value);
      SnapshotTrim(cache[1..]);
    }
  }

  lemma {:induction false} SnapPeriodsSane(periods: Periods)
    requires ShortNames(periods)
    ensures ShortNames(SnapPeriods(periods))
    decreases |periods|
  {
    if periods != [] { SnapPeriodsSane(periods[1..]); }
  }

  lemma {:induction false} SnapshotSane(cache: Cache)
    requires AllSane(cache)
    ensures AllSane(Snapshot(cache))
    decreases |cache|
  {
    if cache != [] {
      SnapPeriodsSane(cache[0].value);
      SnapshotSane(cache[1..]);
    }
  }

  lemma {:induction false} SnapPeriodsBefore(less: (text, text) -> bool, done: Periods, periods: Periods)
    requires Before(less, done, periods)
    ensures Before(less, done, SnapPeriods(periods))
    decreases |periods|
  {
    if periods != [] {
      BeforeRest(less, done, periods, []);
      SnapPeriodsBefore(less, done, periods[1..]);
      SnapPeriodsBefore(less, done + [Entry(periods[0].key, [])], periods[1..]);
      if periods[0].value != [] {
        BeforeFirst(less, done, periods[0].key, Last(periods[0].value), [], SnapPeriods(periods[1..]));
      }
    }
  }

  lemma {:induction false} SnapshotBefore(less: (text, text) -> bool, done: Cache, cache: Cache)
    requires Before(less, done, cache) && AllAscending(less, cache)
    ensures Before(less, done, Snapshot(cache)) && AllAscending(less, Snapshot(cache))
    decreases |cache|
  {
    if cache != [] {
      var periods := SnapPeriods(cache[0].value);
      BeforeRest(less, done, cache, []);
      SnapshotBefore(less, done, cache[1..]);
      SnapshotBefore(less, done + [Entry(cache[0].key, [])], cache[1..]);
      SnapPeriodsBefore(less, [], cache[0].value);
      if periods != [] {
        BeforeFirst(less, done, cache[0].key, periods, [], Snapshot(cache[1..]));
      }
    }
  }

  // ----- reading sections back in order appends -----

  lemma {:induction false} AddFirstPeriod(less: (text, text) -> bool, done: Periods, periods: Periods)
    requires periods != [] && Precedes(less, done, periods[0].key)
    ensures AddPeriods(less, done, Mapped(PeriodSection, periods))
      == AddPeriods(less, done + [KeepPeriod(periods[0])], Mapped(PeriodSection, periods[1..]))
  {
    var key, kept := periods[0].key, Mapped(StoredBar, periods[0].value);
    UndeltasDeltas(true, NOTHING, periods[0].value);
    PutLast(less, done, key, kept);
    assert [] + kept == kept;
    assert Mapped(PeriodSection, periods)[1..] == Mapped(PeriodSection, periods[1..]);
  }

  lemma {:induction false} AddPeriodsAppends(less: (text, text) -> bool, done: Periods, periods: Periods)
    requires Before(less, done, periods)
    ensures AddPeriods(less, done, Mapped(PeriodSection, periods)) == done + Mapped(KeepPeriod, periods)
    decreases |periods|
  {
    if periods != [] {
      var entry := KeepPeriod(periods[0]);
      BeforeRest(less, done, periods, entry.value);
      AddFirstPeriod(less, done, periods);
      AddPeriodsAppends(less, done + [entry], periods[1..]);
      Chain(done, entry, Mapped(KeepPeriod, periods[1..]),
            AddPeriods(less, done, Mapped(PeriodSection, periods)), Mapped(KeepPeriod, periods));
    }
  }

  lemma {:induction false} AddFirstInstrument(less: (text, text) -> bool, done: Cache, cache: Cache)
    requires cache != [] && Precedes(less, done, cache[0].key) && Ascending(less, cache[0].value)
    ensures AddInstruments(less, done, Mapped(InstrumentSection, cache))
      == AddInstruments(less, done + [KeepInstrument(cache[0])], Mapped(InstrumentSection, cache[1..]))
  {
    var key, kept := cache[0].key, Mapped(KeepPeriod, cache[0].value);
    AddPeriodsAppends(less, [], cache[0].value);
    assert [] + kept == kept;
    PutLast(less, done, key, kept);
    assert Mapped(InstrumentSection, cache)[1..] == Mapped(InstrumentSection, cache[1..]);
  }

  lemma {:induction false} AddInstrumentsAppends(less: (text, text) -> bool, done: Cache, cache: Cache)
    requires Before(less, done, cache) && AllAscending(less, cache)
    ensures AddInstruments(less, done, Mapped(InstrumentSection, cache)) == done + Mapped(KeepInstrument, cache)
    decreases |cache|
  {
    if cache != [] {
      var entry := KeepInstrument(cache[0]);
      BeforeRest(less, done, cache, entry.value);
      AddFirstInstrument(less, done, cache);
      AddInstrumentsAppends(less, done + [entry], cache[1..]);
      Chain(done, entry, Mapped(KeepInstrument, cache[1..]),
            AddInstruments(less, done, Mapped(InstrumentSection, cache)), Mapped(KeepInstrument, cache));
    }
  }

  // ----- the promises of the store -----

  lemma {:induction false} InstrumentSectionSized(e: Entry<text, Periods>)
    requires |e.key| < TWO63 && SanePeriods(e.value) && Trim(e.value)
    ensures AllSized(InstrumentSection(e))
  {
    forall j | 0 <= j < |e.value| ensures Sized(Mapped(PeriodSection, e.value)[j]) {
      MappedAt(PeriodSection, e.value, j);
    }
  }

  lemma AllInstrumentsCode(cache: Cache)
    requires Sane(cache)
    ensures |Sections(cache)| < TWO64
    ensures forall i :: 0 <= i < |Sections(cache)| ==> Codes(InstrumentBytes, ReadInstrument, Sections(cache)[i])
  {
    SnapshotSane(cache);
    SnapshotTrim(cache);
    var snap := Snapshot(cache);
    forall i | 0 <= i < |snap| ensures Codes(InstrumentBytes, ReadInstrument, Sections(cache)[i]) {
      MappedAt(InstrumentSection, snap, i);
      InstrumentSectionSized(snap[i]);
      InstrumentCodes(InstrumentSection(snap[i]));
    }
  }

  lemma {:induction false} LoadPastMagic(file: seq<octet>, s: seq<octet>)
    requires file == MAGIC + s
    ensures ReadCounted(ReadInstrument, s).Fail? ==> Load(file) == None
    ensures ReadCounted(ReadInstrument, s).Got? ==>
      Load(file) == Some(AddInstruments(Below, [], ReadCounted(ReadInstrument, s).value))
  {
    assert file[..|MAGIC|] == MAGIC && file[|MAGIC|..] == s;
  }

  lemma {:induction false} SectionsReadBack(cache: Cache, more: seq<octet>)
    requires Sane(cache)
    ensures ReadCounted(ReadInstrument, Counted(InstrumentBytes, Sections(cache)) + more) == Got(Sections(cache), more)
  {
    AllInstrumentsCode(cache);
    CountedRoundTrip(InstrumentBytes, ReadInstrument, Sections(cache), more);
  }

  lemma {:induction false} SectionsStump(cache: Cache, cut: nat)
    requires Sane(cache) && cut < |Counted(InstrumentBytes, Sections(cache))|
    ensures ReadCounted(ReadInstrument, Counted(InstrumentBytes, Sections(cache))[..cut]).Fail?
  {
    AllInstrumentsCode(cache);
    CountedStump(InstrumentBytes, ReadInstrument, Sections(cache), cut);
  }

  lemma {:induction false} AddFromNothing(cache: Cache)
    requires Ordered(cache)
    ensures AddInstruments(Below, [], Sections(cache)) == Kept(cache)
  {
    SnapshotBefore(Below, [], cache);
    AddInstrumentsAppends(Below, [], Snapshot(cache));
    assert [] + Kept(cache) == Kept(cache);
  }

  /** Saving and loading returns, for every instrument and period, the last 400 bars in fixed
      point, whatever their timestamps and whatever follows in the file. */
  lemma {:induction false} LoadOfSave(cache: Cache, file: seq<octet>, more: seq<octet>)
    requires Sane(cache) && Ordered(cache) && file == Save(cache) + more
    ensures Load(file) == Some(Kept(cache))
  {
    var body := Counted(InstrumentBytes, Sections(cache));
    SectionsReadBack(cache, more);
    Regroup(MAGIC, body, more);
    LoadPastMagic(file, body + more);
    AddFromNothing(cache);
  }

  /** A file that does not begin with "HFTKDB1" does not load. */
  lemma OtherFilesRefused(file: seq<octet>)
    requires !([0x48, 0x46, 0x54, 0x4B, 0x44, 0x42, 0x31] <= file)
    ensures Load(file) == None
  {}

  // ----- what a lookup finds after loading a save -----

  /** The bars a cache holds for a period of an instrument. */
  function BarsAt(cache: Cache, instrument: text, period: text): seq<Bar>
  {
    GetOr(GetOr(cache, instrument, []), period, [])
  }

  ghost predicate HasBars(periods: Periods)
  {
    exists q: text :: GetOr(periods, q, []) != []
  }

  lemma {:induction false} SnapPeriodsGet(periods: Periods, q: text)
    requires Ascending(Below, periods)
    ensures Get(SnapPeriods(periods), q)
      == var bars := GetOr(periods, q, []); if bars == [] then None else Some(Last(bars))
    decreases |periods|
  {
    if periods != [] {
      SnapPeriodsGet(periods[1..], q);
      if periods[0].key == q { GetAfter(Below, periods, q); }
    }
  }

  lemma {:induction false} SnapPeriodsEmpty(periods: Periods)
    requires Ascending(Below, periods)
    ensures SnapPeriods(periods) != [] <==> HasBars(periods)
  {
    if q: text :| GetOr(periods, q, []) != [] { SnapPeriodsGet(periods, q); }
    if SnapPeriods(periods) != [] {
      var q := SnapPeriods(periods)[0].key;
      SnapPeriodsGet(periods, q);
      assert GetOr(periods, q, []) != [];
    }
  }

  lemma {:induction false} SnapshotGet(cache: Cache, i: text)
    requires Ordered(cache)
    ensures Get(Snapshot(cache), i)
      == var snap := SnapPeriods(GetOr(cache, i, [])); if snap == [] then None else Some(snap)
    decreases |cache|
  {
    if cache != [] {
      SnapshotGet(cache[1..], i);
      if cache[0].key == i { GetAfter(Below, cache, i); }
    }
  }

  lemma {:induction false} KeepPeriodGet(periods: Periods, q: text)
    ensures Get(Mapped(KeepPeriod, periods), q)
      == match Get(periods, q) case Some(bars) => Some(Mapped(StoredBar, bars)) case None => None
    decreases |periods|
  {
    if periods != [] {
      KeepPeriodGet(periods[1..], q);
      MappedFirst(KeepPeriod, periods);
    }
  }

  lemma {:induction false} KeepInstrumentGet(cache: Cache, i: text)
    ensures Get(Mapped(KeepInstrument, cache), i)
      == match Get(cache, i) case Some(periods) => Some(Mapped(KeepPeriod, periods)) case None => None
    decreases |cache|
  {
    if cache != [] {
      KeepInstrumentGet(cache[1..], i);
      MappedFirst(KeepInstrument, cache);
    }
  }

  lemma {:induction false} OrderedAt(cache: Cache, i: text)
    requires Ordered(cache)
    ensures Ascending(Below, GetOr(cache, i, []))
    decreases |cache|
  {
    if cache != [] && cache[0].key != i { OrderedAt(cache[1..], i); }
  }

  lemma {:induction false} KeptGet(cache: Cache, i: text, q: text)
    requires Ordered(cache)
    ensures Get(Kept(cache), i).Some? <==> HasBars(GetOr(cache, i, []))
    ensures Get(GetOr(Kept(cache), i, []), q)
      == var bars := BarsAt(cache, i, q); if bars == [] then None else Some(Mapped(StoredBar, Last(bars)))
  {
    var periods := GetOr(cache, i, []);
    OrderedAt(cache, i);
    SnapPeriodsEmpty(periods);
    SnapshotGet(cache, i);
    KeepInstrumentGet(Snapshot(cache), i);
    SnapPeriodsGet(periods, q);
    KeepPeriodGet(SnapPeriods(periods), q);
  }

  lemma {:induction false} LastStored(bars: seq<Bar>, n: nat)
    requires n == if |bars| < 400 then |bars| else 400
    ensures |Mapped(StoredBar, Last(bars))| == n
    ensures forall j :: 0 <= j < n ==> Mapped(StoredBar, Last(bars))[j] == StoredBar(bars[|bars| - n + j])
  {
    forall j | 0 <= j < n ensures Mapped(StoredBar, Last(bars))[j] == StoredBar(bars[|bars| - n + j]) {
      MappedAt(StoredBar, Last(bars), j);
    }
  }

  /** What a period had, it has the newest of, up to 400, oldest first and each as the store keeps it; a
      period that had none is not there, and neither is an instrument without bars in any period. */
  ghost predicate HasNewest(loaded: Cache, cache: Cache, i: text, q: text)
  {
    var bars, back := BarsAt(cache, i, q), BarsAt(loaded, i, q);
    && (Get(loaded, i).Some? <==> HasBars(GetOr(cache, i, [])))
    && (Get(GetOr(loaded, i, []), q).Some? <==> bars != [])
    && |back| == (if |bars| < 400 then |bars| else 400)
    && forall j :: 0 <= j < |back| ==> back[j] == StoredBar(bars[|bars| - |back| + j])
  }

  lemma {:induction false} KeptNewest(cache: Cache, i: text, q: text)
    requires Ordered(cache)
    ensures HasNewest(Kept(cache), cache, i, q)
  {
    var bars := BarsAt(cache, i, q);
    KeptGet(cache, i, q);
    LastStored(bars, if |bars| < 400 then |bars| else 400);
  }

  lemma {:induction false} AllNewest(cache: Cache) returns (kept: Cache)
    requires Ordered(cache)
    ensures kept == Kept(cache) && forall i, q :: HasNewest(kept, cache, i, q)
  {
    kept := Kept(cache);
    forall i, q ensures HasNewest(kept, cache, i, q) { KeptNewest(cache, i, q); }
  }

  /** After loading a save, whatever instrument and period is looked up has its newest bars. */
  lemma {:induction false} NewestBarsComeBack(cache: Cache, file: seq<octet>, more: seq<octet>) returns (loaded: Cache)
    requires Sane(cache) && Ordered(cache) && file == Save(cache) + more
    ensures Load(file) == Some(loaded)
    ensures forall i, q :: HasNewest(loaded, cache, i, q)
  {
    LoadOfSave(cache, file, more);
    loaded := AllNewest(cache);
  }

  // ----- what a lookup finds after loading any store -----

  /** The bars of all sections of one name, one section after the other. */
  function SectionBars(sections: seq<Section<Delta>>, q: text): seq<Bar>
    decreases |sections|
  {
    if sections == [] then []
    else (if sections[0].name == q then Undeltas(true, NOTHING, sections[0].items) else []) + SectionBars(sections[1..], q)
  }

  function StoreBars(sections: seq<Section<Section<Delta>>>, i: text, q: text): seq<Bar>
    decreases |sections|
  {
    if sections == [] then []
    else (if sections[0].name == i then SectionBars(sections[0].items, q) else []) + StoreBars(sections[1..], i, q)
  }

  lemma Gathered<T>(old': seq<T>, here: seq<T>, later: seq<T>, next: seq<T>, all: seq<T>)
    requires next == old' + here && all == next + later
    ensures all == old' + (here + later)
  {}

  lemma {:induction false} AddPeriodsGathers(periods: Periods, sections: seq<Section<Delta>>, q: text)
    requires Ascending(Below, periods)
    ensures Ascending(Below, AddPeriods(Below, periods, sections))
    ensures GetOr(AddPeriods(Below, periods, sections), q, []) == GetOr(periods, q, []) + SectionBars(sections, q)
    decreases |sections|
  {
    if sections != [] {
      var s := sections[0];
      var bars := GetOr(periods, s.name, []) + Undeltas(true, NOTHING, s.items);
      var next := Put(Below, periods, s.name, bars);
      BelowIsStrictOrder();
      PutKeepsOrder(Below, periods, s.name, bars);
      GetPut(Below, periods, s.name, bars, q);
      AddPeriodsGathers(next, sections[1..], q);
      Gathered(GetOr(periods, q, []), if s.name == q then Undeltas(true, NOTHING, s.items) else [], SectionBars(sections[1..], q),
               GetOr(next, q, []), GetOr(AddPeriods(Below, periods, sections), q, []));
    }
  }

  lemma {:induction false} PutOrdered(cache: Cache, i: text, periods: Periods)
    requires Ordered(cache) && Ascending(Below, periods)
    ensures Ordered(Put(Below, cache, i, periods))
  {
    BelowIsStrictOrder();
    PutKeepsOrder(Below, cache, i, periods);
    var r := Put(Below, cache, i, periods);
    forall j | 0 <= j < |r| ensures Ascending(Below, r[j].value) { assert r[j] in r; }
  }

  lemma {:induction false} AddInstrumentGathers(
      cache: Cache, s: Section<Section<Delta>>, periods: Periods, next: Cache, i: text, q: text)
    requires Ordered(cache) && periods == AddPeriods(Below, GetOr(cache, s.name, []), s.items)
    requires next == Put(Below, cache, s.name, periods)
    ensures Ordered(next)
    ensures BarsAt(next, i, q) == BarsAt(cache, i, q) + if s.name == i then SectionBars(s.items, q) else []
  {
    OrderedAt(cache, s.name);
    AddPeriodsGathers(GetOr(cache, s.name, []), s.items, q);
    PutOrdered(cache, s.name, periods);
    BelowIsStrictOrder();
    GetPut(Below, cache, s.name, periods, i);
    assert BarsAt(cache, i, q) + [] == BarsAt(cache, i, q);
  }

  lemma {:induction false} AddInstrumentsGathers(cache: Cache, sections: seq<Section<Section<Delta>>>, i: text, q: text)
    requires Ordered(cache)
    ensures Ordered(AddInstruments(Below, cache, sections))
    ensures BarsAt(AddInstruments(Below, cache, sections), i, q) == BarsAt(cache, i, q) + StoreBars(sections, i, q)
    decreases |sections|
  {
    if sections != [] {
      var s := sections[0];
      var periods := AddPeriods(Below, GetOr(cache, s.name, []), s.items);
      var next := Put(Below, cache, s.name, periods);
      AddInstrumentGathers(cache, s, periods, next, i, q);
      AddInstrumentsGathers(next, sections[1..], i, q);
      Gathered(BarsAt(cache, i, q), if s.name == i then SectionBars(s.items, q) else [], StoreBars(sections[1..], i, q),
               BarsAt(next, i, q), BarsAt(AddInstruments(Below, cache, sections), i, q));
    } else {
      assert BarsAt(cache, i, q) + [] == BarsAt(cache, i, q);
    }
  }

  /** Whatever store loads, of whatever origin: the cache is in order and holds for every instrument and
      period all the bars the store's sections of these names have, in the order of the file. */
  lemma {:induction false} LoadGathers(file: seq<octet>, s: seq<octet>, i: text, q: text)
    requires file == MAGIC + s && ReadCounted(ReadInstrument, s).Got?
    ensures Load(file).Some? && Ordered(Load(file).value)
    ensures BarsAt(Load(file).value, i, q) == StoreBars(ReadCounted(ReadInstrument, s).value, i, q)
  {
    LoadPastMagic(file, s);
    AddInstrumentsGathers([], ReadCounted(ReadInstrument, s).value, i, q);
    assert [] + StoreBars(ReadCounted(ReadInstrument, s).value, i, q) == StoreBars(ReadCounted(ReadInstrument, s).value, i, q);
  }

  lemma CutPastMagic(body: seq<octet>, file: seq<octet>, cut: nat)
    requires |MAGIC| <= cut <= |MAGIC| + |body| && file == (MAGIC + body)[..cut]
    ensures file == MAGIC + body[..cut - |MAGIC|]
  {}

  /** A store cut short anywhere does not load. */
  lemma {:induction false} CutStoreFails(cache: Cache, file: seq<octet>, cut: nat)
    requires Sane(cache) && cut < |Save(cache)| && file == Save(cache)[..cut]
    ensures Load(file) == None
  {
    if cut >= |MAGIC| {
      var body := Counted(InstrumentBytes, Sections(cache));
      CutPastMagic(body, file, cut);
      SectionsStump(cache, cut - |MAGIC|);
      LoadPastMagic(file, body[..cut - |MAGIC|]);
    }
  }

  // ----- saving what was loaded -----

  lemma {:induction false} MappedStable(bars: seq<Bar>)
    ensures Mapped(StoredBar, Mapped(StoredBar, bars)) == Mapped(StoredBar, bars)
    decreases |bars|
  {
    if bars != [] {
      StoredBarStable(bars[0]);
      MappedStable(bars[1..]);
      assert Mapped(StoredBar, bars)[1..] == Mapped(StoredBar, bars[1..]);
    }
  }

  lemma {:induction false} TrimKept(periods: Periods)
    requires Trim(periods)
    ensures SnapPeriods(Mapped(KeepPeriod, periods)) == Mapped(KeepPeriod, periods)
    ensures Mapped(KeepPeriod, Mapped(KeepPeriod, periods)) == Mapped(KeepPeriod, periods)
    ensures Mapped(PeriodSection, Mapped(KeepPeriod, periods)) == Mapped(PeriodSection, periods)
    decreases |periods|
  {
    if periods != [] {
      TrimKept(periods[1..]);
      MappedStable(periods[0].value);
      DeltasStable(true, NOTHING, periods[0].value);
      var kept := Mapped(KeepPeriod, periods);
      assert kept[0] == KeepPeriod(periods[0]) && kept[1..] == Mapped(KeepPeriod, periods[1..]);
    }
  }

  lemma {:induction false} SnapshotStable(cache: Cache)
    ensures Snapshot(Kept(cache)) == Kept(cache) && Sections(Kept(cache)) == Sections(cache)
    decreases |cache|
  {
    if cache != [] {
      var periods := SnapPeriods(cache[0].value);
      SnapshotStable(cache[1..]);
      if periods != [] {
        SnapPeriodsTrim(cache[0].value);
        TrimKept(periods);
        var snap, kept := Snapshot(cache), Kept(cache);
        assert snap[1..] == Snapshot(cache[1..]) && kept[1..] == Kept(cache[1..]);
        assert kept[0] == KeepInstrument(snap[0]);
      }
    }
  }

  /** Saving what was loaded writes the very same file. */
  lemma {:induction false} SecondSaveIsIdentical(cache: Cache)
    requires Sane(cache) && Ordered(cache)
    ensures Load(Save(cache)).Some? && Save(Load(Save(cache)).value) == Save(cache)
  {
    assert Save(cache) + [] == Save(cache);
    LoadOfSave(cache, Save(cache), []);
    SnapshotStable(cache);
  }

  // ----- the saving loops -----

  method SnapshotPeriods(periods: Periods) returns (snap: Periods)
    ensures snap == SnapPeriods(periods)
  {
    snap := [];
    var rest := periods;
    while rest != []
      invariant snap + SnapPeriods(rest) == SnapPeriods(periods)
    {
      var e := rest[0];
      if e.value != [] { snap := snap + [Entry(e.key, Last(e.value))]; }
      rest := rest[1..];
    }
  }

  method WriteBars(os: OutputStream, bars: seq<Bar>)
    modifies os
    ensures os.bytes == old(os.bytes) + Joined(DeltaBytes, Deltas(true, NOTHING, bars))
  {
    var rest, first, before := bars, true, NOTHING;
    ghost var whole := os.bytes + Joined(DeltaBytes, Deltas(true, NOTHING, bars));
    while rest != []
      invariant os.bytes + Joined(DeltaBytes, Deltas(first, before, rest)) == whole
    {
      var f := Fix(rest[0]);
      ghost var start := os.bytes;
      os.PutFields(DeltaFields(DeltaOf(first, before, f)));
      ghost var ds := Deltas(first, before, rest);
      rest, first, before := rest[1..], false, f;
      JoinedNext(start, os.bytes, DeltaBytes, ds, Deltas(first, before, rest), whole);
    }
  }

  lemma Appended<T>(start: seq<T>, a: seq<T>, b: seq<T>, c: seq<T>, end: seq<T>)
    requires end == start + a + b + c
    ensures end == start + (a + (b + c))
  {}

  /** Writing the first of the items leaves the rest to be written. */
  lemma {:induction false} JoinedNext<A>(
      start: seq<octet>, end: seq<octet>, lay: A -> seq<octet>, items: seq<A>, tail: seq<A>, whole: seq<octet>)
    requires items != [] && tail == items[1..]
    requires start + Joined(lay, items) == whole && end == start + lay(items[0])
    ensures end + Joined(lay, tail) == whole
  {
    Regroup(start, lay(items[0]), Joined(lay, tail));
  }

  lemma {:induction false} SectionsNext<A, E>(start: seq<octet>, end: seq<octet>, lay: A -> seq<octet>, section: E -> A,
                                              entries: seq<E>, rest: seq<E>, whole: seq<octet>)
    requires entries != [] && rest == entries[1..]
    requires start + Joined(lay, Mapped(section, entries)) == whole && end == start + lay(section(entries[0]))
    ensures end + Joined(lay, Mapped(section, rest)) == whole
  {
    MappedFirst(section, entries);
    JoinedNext(start, end, lay, Mapped(section, entries), Mapped(section, rest), whole);
  }

  method WritePeriods(os: OutputStream, periods: Periods)
    requires Trim(periods) && ShortNames(periods)
    modifies os
    ensures os.bytes == old(os.bytes) + Joined(PeriodBytes, Mapped(PeriodSection, periods))
  {
    var rest := periods;
    ghost var whole := os.bytes + Joined(PeriodBytes, Mapped(PeriodSection, periods));
    while rest != []
      invariant Trim(rest) && ShortNames(rest)
      invariant os.bytes + Joined(PeriodBytes, Mapped(PeriodSection, rest)) == whole
    {
      var e := rest[0];
      ghost var start := os.bytes;
      WritePeriod(os, e);
      ghost var was := rest;
      rest := rest[1..];
      SectionsNext(start, os.bytes, PeriodBytes, PeriodSection, was, rest, whole);
    }
  }

  method WritePeriod(os: OutputStream, e: Entry<text, seq<Bar>>)
    requires |e.key| < TWO63 && |e.value| <= PERSISTED
    modifies os
    ensures os.bytes == old(os.bytes) + PeriodBytes(PeriodSection(e))
  {
    ghost var start := os.bytes;
    os.PutText(e.key);
    os.PutVarUint(|e.value|);
    WriteBars(os, e.value);
    Appended(start, Text(e.key), VarUint(|e.value|), Joined(DeltaBytes, Deltas(true, NOTHING, e.value)), os.bytes);
  }

  /** An instrument of a snapshot, fit to be written. */
  predicate Ready(e: Entry<text, Periods>)
  {
    |e.key| < TWO63 && SanePeriods(e.value) && Trim(e.value)
  }

  predicate AllReady(cache: Cache)
  {
    forall i :: 0 <= i < |cache| ==> Ready(cache[i])
  }

  method WriteInstrument(os: OutputStream, e: Entry<text, Periods>)
    requires Ready(e)
    modifies os
    ensures os.bytes == old(os.bytes) + InstrumentBytes(InstrumentSection(e))
  {
    ghost var start := os.bytes;
    os.PutText(e.key);
    os.PutVarUint(|e.value|);
    WritePeriods(os, e.value);
    Appended(start, Text(e.key), VarUint(|e.value|), Joined(PeriodBytes, Mapped(PeriodSection, e.value)), os.bytes);
  }

  method WriteInstruments(os: OutputStream, cache: Cache)
    requires AllReady(cache)
    modifies os
    ensures os.bytes == old(os.bytes) + Joined(InstrumentBytes, Mapped(InstrumentSection, cache))
  {
    var rest := cache;
    ghost var whole := os.bytes + Joined(InstrumentBytes, Mapped(InstrumentSection, cache));
    while rest != []
      invariant AllReady(rest)
      invariant os.bytes + Joined(InstrumentBytes, Mapped(InstrumentSection, rest)) == whole
    {
      var e := rest[0];
      ghost var start := os.bytes;
      WriteInstrument(os, e);
      ghost var was := rest;
      rest := rest[1..];
      SectionsNext(start, os.bytes, InstrumentBytes, InstrumentSection, was, rest, whole);
    }
  }

  // ----- the loading loops -----

  /** The bars restored so far, and the one before. */
  datatype Restored = Restored(first: bool, before: Fixed, bars: seq<Bar>)

  function Restore(r: Restored, d: Delta): Restored
  {
    var f := Undelta(r.first, r.before, d);
    Restored(false, f, r.bars + [Unfix(f)])
  }

  lemma {:induction false} RestoreAll(r: Restored, ds: seq<Delta>)
    ensures FoldLeft(Restore, r, ds).bars == r.bars + Undeltas(r.first, r.before, ds)
    decreases |ds|
  {
    if ds == [] {
      assert r.bars + [] == r.bars;
    } else {
      var next := Restore(r, ds[0]);
      RestoreAll(next, ds[1..]);
      Chain(r.bars, next.bars[|r.bars|], Undeltas(false, next.before, ds[1..]), FoldLeft(Restore, r, ds).bars,
            Undeltas(r.first, r.before, ds));
    }
  }

  const FRESH := Restored(true, NOTHING, [])

  lemma {:induction false} BarsRestored(n: nat, s: seq<octet>)
    ensures match ReadMany(ReadDelta, n, s)
      case Fail(e) => FoldMany(ReadDelta, Restore, n, s, FRESH) == Fail(e)
      case Got(ds, left) =>
        (var r := FoldMany(ReadDelta, Restore, n, s, FRESH);
         r.Got? && r.value.bars == Undeltas(true, NOTHING, ds) && r.left == left)
  {
    FoldManyIsFold(ReadDelta, Restore, n, s, FRESH);
    var r := ReadMany(ReadDelta, n, s);
    if r.Got? { RestoreAll(FRESH, r.value); }
  }

  method ReadDeltaFields(stream: InputStream) returns (ok: bool, d: Delta)
    modifies stream
    ensures match ReadDelta(old(stream.left)) case Fail(_) => !ok case Got(e, left) => ok && d == e && stream.left == left
  {
    var ranOut, fs;
    ok, ranOut, fs := stream.GetFields(DeltaKinds());
    d := if ok then DeltaFrom(fs) else Delta(0, 0, 0, 0, 0, 0, 0);
  }

  /** The bars of a period, restored one by one from their deltas. */
  method ReadBars(stream: InputStream, n: nat) returns (ok: bool, r: Restored)
    modifies stream
    ensures match FoldMany(ReadDelta, Restore, n, old(stream.left), FRESH)
      case Fail(_) => !ok
      case Got(all, left) => ok && r == all && stream.left == left
  {
    r := FRESH;
    var i := 0;
    ghost var togo, whole := n, FoldMany(ReadDelta, Restore, n, stream.left, r);
    while i < n
      invariant 0 <= i <= n && togo == n - i
      invariant FoldMany(ReadDelta, Restore, togo, stream.left, r) == whole
    {
      ghost var before, here, was := togo, stream.left, r;
      var d;
      ok, d := ReadDeltaFields(stream);
      i, togo := i + 1, togo - 1;
      FoldTurn(ReadDelta, Restore, before, here, was, togo, stream.left, Restore(r, d), whole);
      if !ok { return; }
      r := Restore(r, d);
    }
    ok := true;
  }

  /** The descriptor of a section: its name and how many items follow. */
  method ReadDescriptor(stream: InputStream) returns (ok: bool, name: text, count: nat)
    modifies stream
    ensures match ReadText(old(stream.left))
      case Fail(_) => !ok
      case Got(t, left) =>
        match ReadVarUint(left)
        case Fail(_) => !ok
        case Got(n, end) => ok && name == t && count == n && stream.left == end
  {
    var ranOut, n;
    count := 0;
    ok, ranOut, name := stream.GetText();
    if !ok { return; }
    ok, ranOut, n := stream.GetVarUint();
    if !ok { return; }
    count := n;
  }

  function AddPeriod(periods: Periods, s: Section<Delta>): Periods
  {
    Put(Below, periods, s.name, GetOr(periods, s.name, []) + Undeltas(true, NOTHING, s.items))
  }

  function AddInstrument(cache: Cache, s: Section<Section<Delta>>): Cache
  {
    Put(Below, cache, s.name, AddPeriods(Below, GetOr(cache, s.name, []), s.items))
  }

  lemma {:induction false} AddPeriodsIsFold(periods: Periods, sections: seq<Section<Delta>>)
    ensures FoldLeft(AddPeriod, periods, sections) == AddPeriods(Below, periods, sections)
    decreases |sections|
  {
    if sections != [] { AddPeriodsIsFold(AddPeriod(periods, sections[0]), sections[1..]); }
  }

  lemma {:induction false} AddInstrumentsIsFold(cache: Cache, sections: seq<Section<Section<Delta>>>)
    ensures FoldLeft(AddInstrument, cache, sections) == AddInstruments(Below, cache, sections)
    decreases |sections|
  {
    if sections != [] { AddInstrumentsIsFold(AddInstrument(cache, sections[0]), sections[1..]); }
  }

  method ReadOnePeriod(stream: InputStream, periods: Periods) returns (ok: bool, more: Periods)
    modifies stream
    ensures match ReadPeriod(old(stream.left))
      case Fail(_) => !ok
      case Got(s, left) => ok && stream.left == left && more == AddPeriod(periods, s)
  {
    more := periods;
    var name, count, restored;
    ok, name, count := ReadDescriptor(stream);
    if !ok { return; }
    BarsRestored(count, stream.left);
    ok, restored := ReadBars(stream, count);
    if !ok { return; }
    more := Put(Below, periods, name, GetOr(periods, name, []) + restored.bars);
  }

  lemma {:induction false} PeriodsAdded(n: nat, s: seq<octet>, start: Periods)
    ensures FoldMany(ReadPeriod, AddPeriod, n, s, start) == match ReadMany(ReadPeriod, n, s)
      case Fail(e) => Fail(e)
      case Got(sections, left) => Got(AddPeriods(Below, start, sections), left)
  {
    FoldManyIsFold(ReadPeriod, AddPeriod, n, s, start);
    var r := ReadMany(ReadPeriod, n, s);
    if r.Got? { AddPeriodsIsFold(start, r.value); }
  }

  lemma {:induction false} InstrumentsAdded(n: nat, s: seq<octet>, start: Cache)
    ensures FoldMany(ReadInstrument, AddInstrument, n, s, start) == match ReadMany(ReadInstrument, n, s)
      case Fail(e) => Fail(e)
      case Got(sections, left) => Got(AddInstruments(Below, start, sections), left)
  {
    FoldManyIsFold(ReadInstrument, AddInstrument, n, s, start);
    var r := ReadMany(ReadInstrument, n, s);
    if r.Got? { AddInstrumentsIsFold(start, r.value); }
  }

  method ReadPeriods(stream: InputStream, n: nat, start: Periods) returns (ok: bool, periods: Periods)
    modifies stream
    ensures match FoldMany(ReadPeriod, AddPeriod, n, old(stream.left), start)
      case Fail(_) => !ok
      case Got(all, left) => ok && periods == all && stream.left == left
  {
    periods := start;
    var i := 0;
    ghost var togo, whole := n, FoldMany(ReadPeriod, AddPeriod, n, stream.left, periods);
    while i < n
      invariant 0 <= i <= n && togo == n - i
      invariant FoldMany(ReadPeriod, AddPeriod, togo, stream.left, periods) == whole
    {
      ghost var before, here, was := togo, stream.left, periods;
      ok, periods := ReadOnePeriod(stream, periods);
      i, togo := i + 1, togo - 1;
      FoldTurn(ReadPeriod, AddPeriod, before, here, was, togo, stream.left, periods, whole);
      if !ok { return; }
    }
    ok := true;
  }

  method ReadOneInstrument(stream: InputStream, cache: Cache) returns (ok: bool, more: Cache)
    modifies stream
    ensures match ReadInstrument(old(stream.left))
      case Fail(_) => !ok
      case Got(s, left) => ok && stream.left == left && more == AddInstrument(cache, s)
  {
    more := cache;
    var name, count, periods;
    ok, name, count := ReadDescriptor(stream);
    if !ok { return; }
    PeriodsAdded(count, stream.left, GetOr(cache, name, []));
    ok, periods := ReadPeriods(stream, count, GetOr(cache, name, []));
    if !ok { return; }
    more := Put(Below, cache, name, periods);
  }

  method ReadInstruments(stream: InputStream, n: nat) returns (ok: bool, cache: Cache)
    modifies stream
    ensures match FoldMany(ReadInstrument, AddInstrument, n, old(stream.left), [])
      case Fail(_) => !ok
      case Got(all, left) => ok && cache == all && stream.left == left
  {
    cache := [];
    var i := 0;
    ghost var togo, whole := n, FoldMany(ReadInstrument, AddInstrument, n, stream.left, cache);
    while i < n
      invariant 0 <= i <= n && togo == n - i
      invariant FoldMany(ReadInstrument, AddInstrument, togo, stream.left, cache) == whole
    {
      ghost var before, here, was := togo, stream.left, cache;
      ok, cache := ReadOneInstrument(stream, cache);
      i, togo := i + 1, togo - 1;
      FoldTurn(ReadInstrument, AddInstrument, before, here, was, togo, stream.left, cache, whole);
      if !ok { return; }
    }
    ok := true;
  }

  method TakeSnapshot(cache: Cache) returns (snap: Cache)
    ensures snap == Snapshot(cache)
  {
    snap := [];
    var rest := cache;
    while rest != []
      invariant snap + Snapshot(rest) == Snapshot(cache)
    {
      var periods := SnapshotPeriods(rest[0].value);
      if periods != [] { snap := snap + [Entry(rest[0].key, periods)]; }
      rest := rest[1..];
    }
  }

  // ----- the manager -----

  lemma {:induction false} SaveIs(cache: Cache, snap: Cache, bytes: seq<octet>)
    requires snap == Snapshot(cache)
    requires bytes == [] + VarUint(|snap|) + Joined(InstrumentBytes, Mapped(InstrumentSection, snap))
    ensures MAGIC + bytes == Save(cache)
  {
    assert [] + VarUint(|snap|) == VarUint(|snap|);
  }

  class KlineManager {
    var cache: Cache
    /** The store file, if there is one. */
    var store: Option<seq<octet>>

    constructor (store: Option<seq<octet>>)
      ensures cache == [] && this.store == store
    {
      cache := [];
      this.store := store;
    }

    /** Write the store: into a temporary file, moved over the old one once complete. */
    method SaveStore()
      requires Sane(cache)
      modifies this`store
      ensures store == Some(Save(cache))
    {
      SnapshotSane(cache);
      SnapshotTrim(cache);
      var snap := TakeSnapshot(cache);
      var os := new OutputStream();
      os.PutVarUint(|snap|);
      WriteInstruments(os, snap);
      SaveIs(cache, snap, os.bytes);
      store := Some(MAGIC + os.bytes);
    }

    /** Load the store; the cache is replaced only by a store that reads to the end. */
    method LoadStore() returns (ok: bool)
      modifies this`cache
      ensures ok == (store.Some? && Load(store.value).Some?)
      ensures cache == if ok then Load(store.value).value else old(cache)
    {
      if store.None? { return false; }
      var file := store.value;
      if |file| < |MAGIC| || file[..|MAGIC|] != MAGIC { return false; }
      var stream := new InputStream(file[|MAGIC|..]);
      var got, _, n := stream.GetVarUint();
      if !got { return false; }
      InstrumentsAdded(n, stream.left, []);
      var restored;
      ok, restored := ReadInstruments(stream, n);
      if ok { cache := restored; }
    }
  }
}
