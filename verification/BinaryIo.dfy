/** Variable-length integers, zig-zag signed integers, length-prefixed strings and fixed-point
    numbers: the layer every compact file of the engine is written in. */
module BinaryIo {
  import opened Bytes
  import opened Int64
  import opened Sequences
  import opened Words

  /** The outcome of reading from the front of a stream: the value and what is left, or failure,
      because the stream ran out or because what is there cannot be read. */
  datatype Read<+T> = Got(value: T, left: seq<octet>) | Fail(ranOut: bool)

  // ----- unsigned varints (unsigned LEB128, section 7.6 of DWARF 5) -----

  function VarUint(v: nat): (s: seq<octet>)
    ensures s != []
    decreases v
  {
    if v < 128 then [FromNat(v)] else [FromNat(v % 128 + 128)] + VarUint(v / 128)
  }

  /** The low seven bits of an octet, and whether its top bit ends the varint. */
  function Group(b: octet): (g: nat)
    ensures g < 128
  {
    ToNat(b) % 128
  }

  predicate Ends(b: octet)
  {
    ToNat(b) < 128
  }

  /** A seven-bit group moved into place; the bits beyond 64 are lost. */
  function Placed(group: nat, shift: nat): uint64
  {
    (group * Pow2(shift)) % TWO64
  }

  lemma Pow2Facts()
    ensures Pow2(63) == TWO63 && Pow2(64) == TWO64
  {
    WordIsPow2();
    assert Pow2(64) == 2 * Pow2(63);
  }

  lemma {:induction false} Pow2Grows(a: nat, b: nat)
    requires a <= b
    ensures Pow2(a) <= Pow2(b)
    decreases b - a
  {
    if a < b { Pow2Grows(a + 1, b); }
  }

  lemma SevenMore(shift: nat)
    ensures Pow2(shift + 7) == 128 * Pow2(shift)
  {
    Pow2Add(shift, 7);
    assert Pow2(7) == 128;
  }

  lemma SmallJoin(value: nat, group: nat, p: nat)
    requires group < 128 && value < p
    ensures value + group * p < 128 * p
  {
    assert group * p <= 127 * p;
  }

  lemma TopJoin(group: nat)
    ensures (group * TWO63) % TWO64 <= TWO63
  {
    var q, b := group / 2, group % 2;
    ModIs(group * TWO63, TWO64, q, b * TWO63);
  }

  /** The groups lie side by side, so joining them never overflows. */
  lemma {:induction false} JoinFits(value: nat, group: nat, shift: nat)
    requires group < 128 && shift % 7 == 0 && shift < 64 && value < Pow2(shift)
    ensures value + Placed(group, shift) < TWO64
    ensures shift < 63 ==> Placed(group, shift) == group * Pow2(shift) && value + Placed(group, shift) < Pow2(shift + 7)
  {
    Pow2Facts();
    if shift < 63 {
      SevenMore(shift);
      Pow2Grows(shift + 7, 63);
      LowGroup(value, group, shift, Pow2(shift));
    } else {
      TopJoin(group);
    }
  }

  lemma LowGroup(value: nat, group: nat, shift: nat, p: nat)
    requires group < 128 && value < p == Pow2(shift) && 128 * p <= TWO63
    ensures Placed(group, shift) == group * p && value + group * p < 128 * p
  {
    SmallJoin(value, group, p);
    ModIs(group * p, TWO64, 0, group * p);
  }

  /** The reading loop, from a given shift and a value accumulated so far. The groups occupy
      disjoint bits, so that joining them is adding them. */
  function ReadGroups(s: seq<octet>, shift: nat, value: nat): (r: Read<uint64>)
    requires shift % 7 == 0 && (shift < 64 ==> value < Pow2(shift))
    ensures r.Got? ==> |r.left| < |s|
    decreases |s|
  {
    if shift >= 64 then Fail(false)
    else if s == [] then Fail(true)
    else
      JoinFits(value, Group(s[0]), shift);
      var joined := value + Placed(Group(s[0]), shift);
      if Ends(s[0]) then Got(joined, s[1..]) else ReadGroups(s[1..], shift + 7, joined)
  }

  function ReadVarUint(s: seq<octet>): Read<uint64>
  {
    ReadGroups(s, 0, 0)
  }

  lemma SplitScaled(v: nat, p: nat)
    requires p > 0
    ensures v * p == (v % 128) * p + (v / 128) * (128 * p) && (v / 128) * (128 * p) <= v * p
  {
    assert v == v % 128 + 128 * (v / 128);
    assert v * p == (v % 128 + 128 * (v / 128)) * p == (v % 128) * p + (128 * (v / 128)) * p;
  }

  lemma PositiveTimes(a: nat, b: nat)
    requires a >= 1
    ensures b <= a * b
  {}

  lemma StillFits(v: nat, shift: nat)
    requires v >= 128 && v * Pow2(shift) < TWO64
    ensures shift + 7 < 64 && (v / 128) * Pow2(shift + 7) < TWO64
  {
    SplitScaled(v, Pow2(shift));
    SevenMore(shift);
    PositiveTimes(v / 128, Pow2(shift + 7));
    Pow2Facts();
    if shift + 7 >= 64 { Pow2Grows(64, shift + 7); }
  }

  /** The last group may reach bit 63, so it is placed exactly only because the value fits. */
  lemma PlacedExactly(group: nat, shift: nat)
    requires group * Pow2(shift) < TWO64
    ensures Placed(group, shift) == group * Pow2(shift)
  {}

  lemma LastOctet(g: nat)
    requires g < 128
    ensures Ends(FromNat(g)) && Group(FromNat(g)) == g
  {}

  lemma MoreOctet(g: nat)
    requires g < 128
    ensures !Ends(FromNat(g + 128)) && Group(FromNat(g + 128)) == g
  {}

  lemma {:induction false} FirstOctet(v: nat, b: octet)
    requires b == VarUint(v)[0]
    ensures Ends(b) == (v < 128) && Group(b) == v % 128
  {
    if v < 128 { LastOctet(v); } else { MoreOctet(v % 128); }
  }

  lemma {:induction false} ReadFirst(v: nat, rest: seq<octet>)
    ensures var s := VarUint(v) + rest;
      && Ends(s[0]) == (v < 128) && Group(s[0]) == v % 128
      && s[1..] == if v < 128 then rest else VarUint(v / 128) + rest
  {
    FirstOctet(v, VarUint(v)[0]);
  }

  lemma {:induction false} GroupAndRest(v: nat, shift: nat, value: nat, next: nat)
    requires v >= 128 && shift % 7 == 0 && shift < 64 && value < Pow2(shift) && v * Pow2(shift) < TWO64
    requires next == value + Placed(v % 128, shift)
    ensures shift + 7 < 64 && next < Pow2(shift + 7)
    ensures (v / 128) * Pow2(shift + 7) < TWO64
    ensures next + (v / 128) * Pow2(shift + 7) == value + v * Pow2(shift)
  {
    StillFits(v, shift);
    SplitScaled(v, Pow2(shift));
    JoinFits(value, v % 128, shift);
    SevenMore(shift);
  }

  lemma {:induction false} ReadBack(v: nat, s: seq<octet>, rest: seq<octet>, shift: nat, value: nat, total: nat)
    requires shift % 7 == 0 && shift < 64 && value < Pow2(shift) && v * Pow2(shift) < TWO64
    requires s == VarUint(v) + rest && total == value + v * Pow2(shift)
    ensures ReadGroups(s, shift, value) == Got(total, rest)
    decreases v
  {
    ReadFirst(v, rest);
    if v < 128 {
      PlacedExactly(v, shift);
    } else {
      var next := value + Placed(v % 128, shift);
      GroupAndRest(v, shift, value, next);
      ReadBack(v / 128, s[1..], rest, shift + 7, next, total);
      ReadMore(s, shift, value, next);
    }
  }

  lemma ReadMore(s: seq<octet>, shift: nat, value: nat, next: nat)
    requires s != [] && !Ends(s[0]) && shift % 7 == 0 && shift < 64 && value < Pow2(shift)
    requires next == value + Placed(Group(s[0]), shift) && (shift + 7 < 64 ==> next < Pow2(shift + 7))
    ensures ReadGroups(s, shift, value) == ReadGroups(s[1..], shift + 7, next)
  {}

  /** Every 64-bit value reads back exactly, whatever follows it. */
  lemma VarUintRoundTrip(v: uint64, rest: seq<octet>)
    ensures ReadVarUint(VarUint(v) + rest) == Got(v, rest)
  {
    assert v * Pow2(0) == v;
    ReadBack(v, VarUint(v) + rest, rest, 0, 0, v);
  }

  /** No octet before the last ends the encoding. */
  lemma {:induction false} OnlyLastEnds(v: nat, i: nat)
    requires i < |VarUint(v)|
    ensures Ends(VarUint(v)[i]) == (i == |VarUint(v)| - 1)
    decreases v
  {
    if v >= 128 && i > 0 { OnlyLastEnds(v / 128, i - 1); }
  }

  /** The reader succeeds exactly when one of the first ten octets ends the varint, and then
      consumes up to the first such octet. */
  lemma {:induction false} ReadsUpToEnd(s: seq<octet>, shift: nat, value: nat, n: nat)
    requires shift % 7 == 0 && (shift < 64 ==> value < Pow2(shift))
    requires n <= |s| && forall i :: 0 <= i < n ==> !Ends(s[i])
    ensures n < |s| && Ends(s[n]) && shift + 7 * n < 64 ==>
      ReadGroups(s, shift, value).Got? && ReadGroups(s, shift, value).left == s[n + 1..]
    ensures shift + 7 * n >= 64 ==> ReadGroups(s, shift, value) == Fail(false)
    ensures shift + 7 * n < 64 && n == |s| ==> ReadGroups(s, shift, value) == Fail(true)
    decreases n
  {
    if n > 0 && shift < 64 {
      JoinFits(value, Group(s[0]), shift);
      ReadsUpToEnd(s[1..], shift + 7, value + Placed(Group(s[0]), shift), n - 1);
    }
  }

  /** The number the first n octets spell, seven bits each, low bits first. */
  function Spelled(s: seq<octet>, n: nat): nat
    requires n <= |s|
    decreases n, s
  {
    if n == 0 then 0 else Group(s[0]) + 128 * Spelled(s[1..], n - 1)
  }

  lemma TopGroup(value: nat, group: nat)
    requires value < TWO63
    ensures (value + group * TWO63) % TWO64 == value + (group * TWO63) % TWO64
  {
    var q, b := group / 2, group % 2;
    ModIs(group * TWO63, TWO64, q, b * TWO63);
    ModIs(value + group * TWO63, TWO64, q, value + b * TWO63);
  }

  /** A value with a number joined on at a shift, in 64 bits. */
  function Joining(value: nat, more: nat, shift: nat): nat
  {
    (value + more * Pow2(shift)) % TWO64
  }

  lemma LastGroup(value: nat, group: nat, shift: nat)
    requires group < 128 && shift % 7 == 0 && shift < 64 && value < Pow2(shift)
    ensures value + Placed(group, shift) == Joining(value, group, shift)
  {
    JoinFits(value, group, shift);
    if shift < 63 {
      SmallMod(value + group * Pow2(shift));
    } else {
      Pow2Facts();
      TopGroup(value, group);
    }
  }

  lemma SmallMod(x: nat)
    requires x < TWO64
    ensures x % TWO64 == x
  {}

  lemma MoreGroups(value: nat, group: nat, more: nat, shift: nat, next: nat)
    requires group < 128 && shift % 7 == 0 && shift < 63 && value < Pow2(shift) && next == value + Placed(group, shift)
    ensures next < Pow2(shift + 7) && Joining(next, more, shift + 7) == Joining(value, group + 128 * more, shift)
  {
    JoinFits(value, group, shift);
    SevenMore(shift);
    SpelledFirst(value, group, more, Pow2(shift));
  }

  lemma SpelledFirst(value: nat, group: nat, more: nat, p: nat)
    ensures value + (group + 128 * more) * p == (value + group * p) + more * (128 * p)
  {}

  /** Whatever the reader accepts, written by the writer or not, it takes for the number the octets
      spell, modulo 64 bits. */
  lemma {:induction false} ReadsWhatIsSpelled(s: seq<octet>, shift: nat, value: nat, n: nat)
    requires shift % 7 == 0 && (shift < 64 ==> value < Pow2(shift)) && ReadGroups(s, shift, value).Got?
    requires n == |s| - |ReadGroups(s, shift, value).left|
    ensures ReadGroups(s, shift, value).value == Joining(value, Spelled(s, n), shift)
    decreases |s|
  {
    var group := Group(s[0]);
    if Ends(s[0]) {
      LastGroup(value, group, shift);
      SpelledOne(s);
      ReadLast(s, shift, value);
    } else {
      var next, more := value + Placed(group, shift), Spelled(s[1..], n - 1);
      MoreGroups(value, group, more, shift, next);
      ReadMore(s, shift, value, next);
      ReadsWhatIsSpelled(s[1..], shift + 7, next, n - 1);
      assert Spelled(s, n) == group + 128 * more;
    }
  }

  lemma ReadLast(s: seq<octet>, shift: nat, value: nat)
    requires s != [] && Ends(s[0]) && shift % 7 == 0 && shift < 64 && value < Pow2(shift)
    ensures value + Placed(Group(s[0]), shift) < TWO64
    ensures ReadGroups(s, shift, value) == Got(value + Placed(Group(s[0]), shift), s[1..])
  {
    JoinFits(value, Group(s[0]), shift);
  }

  lemma SpelledOne(s: seq<octet>)
    requires s != []
    ensures Spelled(s, 1) == Group(s[0])
  {
    assert Spelled(s[1..], 0) == 0;
  }

  lemma OctetIs(n: nat, b: octet)
    requires n < 256 && ToNat(b) == n
    ensures FromNat(n) == b
  {
    ToNatIsInjective(FromNat(n), b);
  }

  /** The layout by example: the low seven bits first, the top bit set on all octets but the last. */
  lemma {:induction false} VarUintExample(v: nat)
    requires v == 300
    ensures VarUint(v) == [0xAC, 0x02]
  {
    OctetIs(v % 128 + 128, 0xAC);
    OctetIs(v / 128, 0x02);
  }

  /** Whatever n octets the reader took for a value, the writer needs no more. */
  lemma {:induction false} VarUintIsShortest(v: nat, n: nat)
    requires n > 0 && v < Pow2(7 * n)
    ensures |VarUint(v)| <= n
    decreases n
  {
    if v >= 128 {
      SevenMore(7 * n - 7);
      VarUintIsShortest(v / 128, n - 1);
    }
  }

  /** No proper prefix of an encoding reads as anything: the stream runs out. */
  lemma {:induction false} StumpFails(v: uint64, cut: nat)
    requires cut < |VarUint(v)|
    ensures ReadVarUint(VarUint(v)[..cut]) == Fail(true)
  {
    var s := VarUint(v)[..cut];
    forall i | 0 <= i < cut ensures !Ends(s[i]) { OnlyLastEnds(v, i); }
    Pow2Facts();
    Pow2Grows(64, 70);
    VarUintIsShortest(v, 10);
    ReadsUpToEnd(s, 0, 0, cut);
  }

  lemma LastFits(value: nat, group: nat, shift: nat)
    requires group < 128 && shift % 7 == 0 && shift < 64 && value < Pow2(shift)
    ensures value + Placed(group, shift) < Pow2(shift + 7)
  {
    JoinFits(value, group, shift);
    if shift == 63 {
      Pow2Facts();
      Pow2Grows(64, 70);
    }
  }

  lemma {:induction false} ReadIsBounded(s: seq<octet>, shift: nat, value: nat, n: nat)
    requires shift % 7 == 0 && (shift < 64 ==> value < Pow2(shift))
    requires ReadGroups(s, shift, value).Got? && n == |s| - |ReadGroups(s, shift, value).left|
    ensures n > 0 && ReadGroups(s, shift, value).value < Pow2(shift + 7 * n)
    decreases |s|
  {
    var group := Group(s[0]);
    LastFits(value, group, shift);
    if !Ends(s[0]) { ReadIsBounded(s[1..], shift + 7, value + Placed(group, shift), n - 1); }
  }

  /** The writer's encoding is a shortest one the reader accepts for its value. */
  lemma CanonicalIsShortest(s: seq<octet>)
    requires ReadVarUint(s).Got?
    ensures var r := ReadVarUint(s); |VarUint(r.value)| <= |s| - |r.left|
  {
    ReadIsBounded(s, 0, 0, |s| - |ReadVarUint(s).left|);
    VarUintIsShortest(ReadVarUint(s).value, |s| - |ReadVarUint(s).left|);
  }

  // ----- signed varints -----

  /** Zig-zag: the shifted word, xored with the sign spread over all 64 bits. */
  function ZigZag(v: int64): uint64
  {
    var shifted := (2 * Unsigned(v)) % TWO64;
    if v < 0 then TWO64 - 1 - shifted else shifted
  }

  function UnZigZag(u: uint64): int64
  {
    if u % 2 == 1 then Signed(TWO64 - 1 - u / 2) else Signed(u / 2)
  }

  /** Zig-zag is a bijection on 64-bit words that keeps small magnitudes small. */
  lemma ZigZagIsBijective(v: int64, u: uint64)
    ensures UnZigZag(ZigZag(v)) == v && ZigZag(UnZigZag(u)) == u
    ensures ZigZag(v) == if v < 0 then -2 * v - 1 else 2 * v
  {
    if v < 0 { assert (2 * (v + TWO64)) % TWO64 == 2 * v + TWO64; }
  }

  function VarInt(v: int64): (s: seq<octet>)
    ensures s != []
  {
    VarUint(ZigZag(v))
  }

  function ReadVarInt(s: seq<octet>): Read<int64>
  {
    match ReadVarUint(s)
    case Got(u, left) => Got(UnZigZag(u), left)
    case Fail(e) => Fail(e)
  }

  // ----- strings -----

  function Text(s: seq<octet>): (r: seq<octet>)
    ensures r != []
  {
    VarUint(|s|) + s
  }

  /** A length the stream cannot even express fails, as does a text cut short. */
  function ReadText(s: seq<octet>): Read<seq<octet>>
  {
    match ReadVarUint(s)
    case Fail(e) => Fail(e)
    case Got(size, left) =>
      if size >= TWO63 then Fail(false)
      else if |left| < size then Fail(true)
      else Got(left[..size], left[size..])
  }

  // ----- fixed point -----

  const PRICE_SCALE := 10000.0
  const TURNOVER_SCALE := 100.0

  /** Round to the nearest integer, halves away from zero. A result beyond 64 bits is the
      platform's indefinite integer. */
  function Round(x: real): int64
  {
    var n := if x >= 0.0 then (x + 0.5).Floor else -((-x + 0.5).Floor);
    if -TWO63 <= n < TWO63 then n else -TWO63
  }

  function FixedPrice(v: real): int64 { Round(v * PRICE_SCALE) }
  function RestorePrice(n: int64): real { n as real / PRICE_SCALE }
  function FixedTurnover(v: real): int64 { Round(v * TURNOVER_SCALE) }
  function RestoreTurnover(n: int64): real { n as real / TURNOVER_SCALE }

  lemma RoundOfInteger(n: int64, x: real)
    requires x == n as real
    ensures Round(x) == n
  {
    var m: int := n;
    if m >= 0 { assert (x + 0.5).Floor == m; } else { assert (-x + 0.5).Floor == -m; }
  }

  /** Rounding moves a value by at most a half, the shorter way. */
  lemma RoundIsNearest(x: real)
    requires -(TWO63 as real) <= x <= TWO63 as real - 1.0
    ensures -0.5 <= Round(x) as real - x <= 0.5
  {
    var y := if x >= 0.0 then x + 0.5 else -x + 0.5;
    assert y.Floor as real <= y < y.Floor as real + 1.0;
  }

  /** Halves go away from zero, and what 64 bits cannot hold becomes the least integer. */
  lemma RoundAtEdges(x: real, n: int)
    requires n as real + 0.5 == x || n as real - 0.5 == x
    ensures -TWO63 <= n < TWO63 && (if x > 0.0 then n as real > x else n as real < x) ==> Round(x) == n
    ensures x >= TWO63 as real - 0.5 || x <= -(TWO63 as real) - 0.5 ==> Round(x) == -TWO63
  {
    var y := if x >= 0.0 then x + 0.5 else -x + 0.5;
    assert y.Floor as real <= y < y.Floor as real + 1.0;
  }

  /** A price comes back to within half of its fourth decimal, a turnover to within half of its second. */
  lemma FixedIsClose(v: real)
    ensures -(TWO63 as real) <= v * 10000.0 <= TWO63 as real - 1.0 ==>
      -0.00005 <= RestorePrice(FixedPrice(v)) - v <= 0.00005
    ensures -(TWO63 as real) <= v * 100.0 <= TWO63 as real - 1.0 ==>
      -0.005 <= RestoreTurnover(FixedTurnover(v)) - v <= 0.005
  {
    if -(TWO63 as real) <= v * 10000.0 <= TWO63 as real - 1.0 { RoundIsNearest(v * 10000.0); }
    if -(TWO63 as real) <= v * 100.0 <= TWO63 as real - 1.0 { RoundIsNearest(v * 100.0); }
  }

  /** What was stored as fixed point comes back as the same fixed point. */
  lemma FixedIsStable(n: int64)
    ensures FixedPrice(RestorePrice(n)) == n && FixedTurnover(RestoreTurnover(n)) == n
  {
    RoundOfInteger(n, RestorePrice(n) * PRICE_SCALE);
    RoundOfInteger(n, RestoreTurnover(n) * TURNOVER_SCALE);
  }

  // ----- records of fields -----

  /** One field of a record. A string has to be one the machine can hold. */
  datatype Field = Str(text: seq<octet>) | UInt(u: uint64) | SInt(i: int64)

  datatype Kind = AStr | AUInt | ASInt

  predicate Holdable(f: Field)
  {
    f.Str? ==> |f.text| < TWO63
  }

  function KindOf(f: Field): Kind
  {
    match f case Str(_) => AStr case UInt(_) => AUInt case SInt(_) => ASInt
  }

  function Encode(f: Field): (s: seq<octet>)
    ensures s != []
  {
    match f case Str(t) => Text(t) case UInt(u) => VarUint(u) case SInt(i) => VarInt(i)
  }

  function Decode(k: Kind, s: seq<octet>): (r: Read<Field>)
    ensures r.Got? ==> KindOf(r.value) == k && |r.left| < |s|
  {
    match k
    case AStr => (match ReadText(s) case Got(t, left) => Got(Str(t), left) case Fail(e) => Fail(e))
    case AUInt => (match ReadVarUint(s) case Got(u, left) => Got(UInt(u), left) case Fail(e) => Fail(e))
    case ASInt => (match ReadVarInt(s) case Got(i, left) => Got(SInt(i), left) case Fail(e) => Fail(e))
  }

  lemma TextRoundTrip(t: seq<octet>, rest: seq<octet>)
    requires |t| < TWO63
    ensures ReadText(Text(t) + rest) == Got(t, rest)
  {
    assert Text(t) + rest == VarUint(|t|) + (t + rest);
    VarUintRoundTrip(|t|, t + rest);
  }

  lemma TextStump(t: seq<octet>, cut: nat)
    requires |t| < TWO63 && cut < |Text(t)|
    ensures ReadText(Text(t)[..cut]) == Fail(true)
  {
    var head := VarUint(|t|);
    if cut < |head| {
      assert Text(t)[..cut] == head[..cut];
      StumpFails(|t|, cut);
    } else {
      assert Text(t)[..cut] == head + t[..cut - |head|];
      VarUintRoundTrip(|t|, t[..cut - |head|]);
    }
  }

  /** A field reads back whatever follows it, and no proper prefix of it reads at all. */
  /** A length of 2^63 or more is refused for what it is, not taken for a stream that ran out. */
  lemma LongTextRefused(size: uint64, rest: seq<octet>)
    requires size >= 0x8000_0000_0000_0000
    ensures ReadText(VarUint(size) + rest) == Fail(false)
  {
    VarUintRoundTrip(size, rest);
  }

  lemma FieldRoundTrip(f: Field, rest: seq<octet>)
    requires Holdable(f)
    ensures Decode(KindOf(f), Encode(f) + rest) == Got(f, rest)
  {
    match f
    case Str(t) => TextRoundTrip(t, rest);
    case UInt(u) => VarUintRoundTrip(u, rest);
    case SInt(i) =>
      VarUintRoundTrip(ZigZag(i), rest);
      ZigZagIsBijective(i, 0);
  }

  lemma FieldStump(f: Field, cut: nat)
    requires Holdable(f) && cut < |Encode(f)|
    ensures Decode(KindOf(f), Encode(f)[..cut]) == Fail(true)
  {
    match f
    case Str(t) => TextStump(t, cut);
    case UInt(u) => StumpFails(u, cut);
    case SInt(i) => StumpFails(ZigZag(i), cut);
  }

  predicate AllHoldable(fields: seq<Field>)
  {
    forall i :: 0 <= i < |fields| ==> Holdable(fields[i])
  }

  function EncodeAll(fields: seq<Field>): seq<octet>
    decreases |fields|
  {
    if fields == [] then [] else Encode(fields[0]) + EncodeAll(fields[1..])
  }

  function Kinds(fields: seq<Field>): (kinds: seq<Kind>)
    ensures |kinds| == |fields| && forall i :: 0 <= i < |fields| ==> kinds[i] == KindOf(fields[i])
  {
    seq(|fields|, i requires 0 <= i < |fields| => KindOf(fields[i]))
  }

  function DecodeAll(kinds: seq<Kind>, s: seq<octet>): (r: Read<seq<Field>>)
    ensures r.Got? ==> Kinds(r.value) == kinds && |r.left| + |kinds| <= |s|
    decreases |kinds|
  {
    if kinds == [] then Got([], s)
    else match Decode(kinds[0], s)
      case Fail(e) => Fail(e)
      case Got(f, left) =>
        match DecodeAll(kinds[1..], left)
        case Fail(e) => Fail(e)
        case Got(fs, end) =>
          KindsFirst(f, fs, kinds);
          Got([f] + fs, end)
  }

  lemma KindsFirst(f: Field, fs: seq<Field>, kinds: seq<Kind>)
    requires kinds != [] && KindOf(f) == kinds[0] && Kinds(fs) == kinds[1..]
    ensures Kinds([f] + fs) == kinds
  {}

  lemma FieldsConcat(a: seq<Field>, b: seq<Field>)
    ensures Kinds(a + b) == Kinds(a) + Kinds(b)
    ensures AllHoldable(a) && AllHoldable(b) ==> AllHoldable(a + b)
  {}

  lemma {:induction false} DecodeMore(fields: seq<Field>, s: seq<octet>, more: seq<octet>)
    requires fields != [] && Decode(KindOf(fields[0]), s) == Got(fields[0], more)
    ensures DecodeAll(Kinds(fields), s) == match DecodeAll(Kinds(fields[1..]), more)
      case Fail(e) => Fail(e)
      case Got(fs, end) => Got([fields[0]] + fs, end)
  {
    assert Kinds(fields)[1..] == Kinds(fields[1..]);
  }

  /** A record of fields reads back exactly, whatever follows it. */
  lemma {:induction false} RecordRoundTrip(fields: seq<Field>, rest: seq<octet>)
    requires AllHoldable(fields)
    ensures DecodeAll(Kinds(fields), EncodeAll(fields) + rest) == Got(fields, rest)
    decreases |fields|
  {
    if fields == [] {
      assert EncodeAll(fields) + rest == rest;
    } else {
      var more := EncodeAll(fields[1..]) + rest;
      assert EncodeAll(fields) + rest == Encode(fields[0]) + more;
      FieldRoundTrip(fields[0], more);
      DecodeMore(fields, Encode(fields[0]) + more, more);
      RecordRoundTrip(fields[1..], rest);
      assert [fields[0]] + fields[1..] == fields;
    }
  }

  /** A record cut anywhere before its end does not read. */
  lemma {:induction false} RecordStump(fields: seq<Field>, cut: nat)
    requires AllHoldable(fields) && cut < |EncodeAll(fields)|
    ensures DecodeAll(Kinds(fields), EncodeAll(fields)[..cut]) == Fail(true)
    decreases |fields|
  {
    var head := Encode(fields[0]);
    if cut < |head| {
      assert EncodeAll(fields)[..cut] == head[..cut];
      FieldStump(fields[0], cut);
    } else {
      var less := cut - |head|;
      assert EncodeAll(fields)[..cut] == head + EncodeAll(fields[1..])[..less];
      FieldRoundTrip(fields[0], EncodeAll(fields[1..])[..less]);
      DecodeMore(fields, EncodeAll(fields)[..cut], EncodeAll(fields[1..])[..less]);
      RecordStump(fields[1..], less);
    }
  }

  // What a field holds, or nothing when it is of another kind.
  function StrOf(f: Field): seq<octet> { if f.Str? then f.text else [] }
  function UIntOf(f: Field): uint64 { if f.UInt? then f.u else 0 }
  function SIntOf(f: Field): int64 { if f.SInt? then f.i else 0 }

  // ----- counted lists -----

  /** A layout and a reader that undo each other on a: whatever follows, and never on less. */
  ghost predicate Codes<A>(lay: A -> seq<octet>, read: seq<octet> -> Read<A>, a: A)
  {
    && (forall rest :: read(lay(a) + rest) == Got(a, rest))
    && (forall cut :: 0 <= cut < |lay(a)| ==> read(lay(a)[..cut]) == Fail(true))
  }

  function ReadMany<A>(read: seq<octet> -> Read<A>, n: nat, s: seq<octet>): (r: Read<seq<A>>)
    ensures r.Got? ==> |r.value| == n
    decreases n, s
  {
    if n == 0 then Got([], s)
    else match read(s)
      case Fail(e) => Fail(e)
      case Got(a, left) =>
        match ReadMany(read, n - 1, left)
        case Fail(e) => Fail(e)
        case Got(more, end) => Got([a] + more, end)
  }

  /** Reading n items while folding them into a state. */
  function FoldMany<A, S>(read: seq<octet> -> Read<A>, step: (S, A) -> S, n: nat, s: seq<octet>, state: S): Read<S>
    decreases n, s
  {
    if n == 0 then Got(state, s)
    else match read(s)
      case Fail(e) => Fail(e)
      case Got(a, left) => FoldMany(read, step, n - 1, left, step(state, a))
  }

  lemma {:induction false} FoldTurn<A, S>(read: seq<octet> -> Read<A>, step: (S, A) -> S, n: nat, s: seq<octet>, state: S,
                                          m: nat, left: seq<octet>, next: S, whole: Read<S>)
    requires n == m + 1 && FoldMany(read, step, n, s, state) == whole
    requires read(s).Got? ==> left == read(s).left && next == step(state, read(s).value)
    ensures read(s).Fail? ==> whole.Fail?
    ensures read(s).Got? ==> FoldMany(read, step, m, left, next) == whole
  {}

  function FoldLeft<A, S>(step: (S, A) -> S, state: S, items: seq<A>): S
    decreases |items|
  {
    if items == [] then state else FoldLeft(step, step(state, items[0]), items[1..])
  }

  lemma {:induction false} FoldManyIsFold<A, S>(
      read: seq<octet> -> Read<A>, step: (S, A) -> S, n: nat, s: seq<octet>, state: S)
    ensures FoldMany(read, step, n, s, state) == match ReadMany(read, n, s)
      case Fail(e) => Fail(e)
      case Got(items, left) => Got(FoldLeft(step, state, items), left)
    decreases n, s
  {
    if n > 0 && read(s).Got? { FoldManyIsFold(read, step, n - 1, read(s).left, step(state, read(s).value)); }
  }

  lemma {:induction false} ManyRoundTrip<A>(lay: A -> seq<octet>, read: seq<octet> -> Read<A>, items: seq<A>, rest: seq<octet>)
    requires forall i :: 0 <= i < |items| ==> Codes(lay, read, items[i])
    ensures ReadMany(read, |items|, Joined(lay, items) + rest) == Got(items, rest)
    decreases |items|
  {
    if items == [] {
      assert Joined(lay, items) + rest == rest;
    } else {
      assert Codes(lay, read, items[0]);
      var more := Joined(lay, items[1..]) + rest;
      Regroup(lay(items[0]), Joined(lay, items[1..]), rest);
      ManyRoundTrip(lay, read, items[1..], rest);
      assert [items[0]] + items[1..] == items;
    }
  }

  lemma {:induction false} ManyStump<A>(lay: A -> seq<octet>, read: seq<octet> -> Read<A>, items: seq<A>, cut: nat)
    requires forall i :: 0 <= i < |items| ==> Codes(lay, read, items[i])
    requires cut < |Joined(lay, items)|
    ensures ReadMany(read, |items|, Joined(lay, items)[..cut]) == Fail(true)
    decreases |items|
  {
    var head := lay(items[0]);
    assert Codes(lay, read, items[0]);
    if cut < |head| {
      assert Joined(lay, items)[..cut] == head[..cut];
    } else {
      var less := cut - |head|;
      assert Joined(lay, items)[..cut] == head + Joined(lay, items[1..])[..less];
      ManyStump(lay, read, items[1..], less);
    }
  }

  /** A list with its length in front. */
  function Counted<A>(lay: A -> seq<octet>, items: seq<A>): seq<octet>
  {
    VarUint(|items|) + Joined(lay, items)
  }

  function ReadCounted<A>(read: seq<octet> -> Read<A>, s: seq<octet>): Read<seq<A>>
  {
    match ReadVarUint(s)
    case Fail(e) => Fail(e)
    case Got(n, left) => ReadMany(read, n, left)
  }

  lemma {:induction false} CountedRoundTrip<A>(lay: A -> seq<octet>, read: seq<octet> -> Read<A>, items: seq<A>, rest: seq<octet>)
    requires |items| < TWO64 && forall i :: 0 <= i < |items| ==> Codes(lay, read, items[i])
    ensures ReadCounted(read, Counted(lay, items) + rest) == Got(items, rest)
  {
    var more := Joined(lay, items) + rest;
    assert Counted(lay, items) + rest == VarUint(|items|) + more;
    VarUintRoundTrip(|items|, more);
    ManyRoundTrip(lay, read, items, rest);
  }

  lemma {:induction false} CountedStump<A>(lay: A -> seq<octet>, read: seq<octet> -> Read<A>, items: seq<A>, cut: nat)
    requires |items| < TWO64 && forall i :: 0 <= i < |items| ==> Codes(lay, read, items[i])
    requires cut < |Counted(lay, items)|
    ensures ReadCounted(read, Counted(lay, items)[..cut]) == Fail(true)
  {
    var head := VarUint(|items|);
    if cut < |head| {
      assert Counted(lay, items)[..cut] == head[..cut];
      StumpFails(|items|, cut);
    } else {
      var less := cut - |head|;
      assert Counted(lay, items)[..cut] == head + Joined(lay, items)[..less];
      VarUintRoundTrip(|items|, Joined(lay, items)[..less]);
      ManyStump(lay, read, items, less);
    }
  }

  /** A named list. */
  datatype Section<A> = Section(name: seq<octet>, items: seq<A>)

  function SectionBytes<A>(lay: A -> seq<octet>, s: Section<A>): seq<octet>
  {
    Text(s.name) + Counted(lay, s.items)
  }

  function ReadSection<A>(read: seq<octet> -> Read<A>, s: seq<octet>): Read<Section<A>>
  {
    match ReadText(s)
    case Fail(e) => Fail(e)
    case Got(name, left) =>
      match ReadCounted(read, left)
      case Fail(e) => Fail(e)
      case Got(items, end) => Got(Section(name, items), end)
  }

  lemma {:induction false} SectionRoundTrip<A>(lay: A -> seq<octet>, read: seq<octet> -> Read<A>, s: Section<A>, rest: seq<octet>)
    requires |s.name| < TWO63 && |s.items| < TWO64 && forall i :: 0 <= i < |s.items| ==> Codes(lay, read, s.items[i])
    ensures ReadSection(read, SectionBytes(lay, s) + rest) == Got(s, rest)
  {
    var more := Counted(lay, s.items) + rest;
    assert SectionBytes(lay, s) + rest == Text(s.name) + more;
    TextRoundTrip(s.name, more);
    CountedRoundTrip(lay, read, s.items, rest);
  }

  lemma {:induction false} SectionStump<A>(lay: A -> seq<octet>, read: seq<octet> -> Read<A>, s: Section<A>, cut: nat)
    requires |s.name| < TWO63 && |s.items| < TWO64 && forall i :: 0 <= i < |s.items| ==> Codes(lay, read, s.items[i])
    requires cut < |SectionBytes(lay, s)|
    ensures ReadSection(read, SectionBytes(lay, s)[..cut]) == Fail(true)
  {
    var head := Text(s.name);
    if cut < |head| {
      assert SectionBytes(lay, s)[..cut] == head[..cut];
      TextStump(s.name, cut);
    } else {
      var less := cut - |head|;
      assert SectionBytes(lay, s)[..cut] == head + Counted(lay, s.items)[..less];
      TextRoundTrip(s.name, Counted(lay, s.items)[..less]);
      CountedStump(lay, read, s.items, less);
    }
  }

  // ----- streams -----

  lemma {:induction false} EncodeNext(before: seq<octet>, fields: seq<Field>)
    requires fields != []
    ensures before + EncodeAll(fields) == (before + Encode(fields[0])) + EncodeAll(fields[1..])
  {}

  class OutputStream {
    var bytes: seq<octet>

    constructor ()
      ensures bytes == []
    {
      bytes := [];
    }

    method PutVarUint(v: uint64)
      modifies this
      ensures bytes == old(bytes) + VarUint(v)
    {
      var value: nat := v;
      while value >= 128
        invariant bytes + VarUint(value) == old(bytes) + VarUint(v)
      {
        Regroup(bytes, [FromNat(value % 128 + 128)], VarUint(value / 128));
        bytes := bytes + [FromNat(value % 128 + 128)];
        value := value / 128;
      }
      bytes := bytes + [FromNat(value)];
    }

    method PutVarInt(v: int64)
      modifies this
      ensures bytes == old(bytes) + VarInt(v)
    {
      PutVarUint(ZigZag(v));
    }

    method PutField(f: Field)
      requires Holdable(f)
      modifies this
      ensures bytes == old(bytes) + Encode(f)
    {
      match f
      case Str(t) => PutText(t);
      case UInt(u) => PutVarUint(u);
      case SInt(i) => PutVarInt(i);
    }

    method PutFields(fields: seq<Field>)
      requires AllHoldable(fields)
      modifies this
      ensures bytes == old(bytes) + EncodeAll(fields)
    {
      var rest := fields;
      while rest != []
        invariant AllHoldable(rest)
        invariant bytes + EncodeAll(rest) == old(bytes) + EncodeAll(fields)
      {
        ghost var before := bytes;
        PutField(rest[0]);
        EncodeNext(before, rest);
        rest := rest[1..];
      }
    }

    method PutText(s: seq<octet>)
      requires |s| < TWO64
      modifies this
      ensures bytes == old(bytes) + Text(s)
    {
      PutVarUint(|s|);
      bytes := bytes + s;
    }
  }

  class InputStream {
    /** What has not been read yet. */
    var left: seq<octet>

    constructor (bytes: seq<octet>)
      ensures left == bytes
    {
      left := bytes;
    }

    method GetVarUint() returns (ok: bool, ranOut: bool, value: uint64)
      modifies this
      ensures ReadVarUint(old(left)) == if ok then Got(value, left) else Fail(ranOut)
    {
      value := 0;
      var shift := 0;
      while shift < 64
        invariant shift % 7 == 0 && (shift < 64 ==> value < Pow2(shift))
        invariant ReadGroups(left, shift, value) == ReadVarUint(old(left))
        decreases 64 - shift
      {
        if left == [] { return false, true, 0; }
        var ch := left[0];
        left := left[1..];
        JoinFits(value, Group(ch), shift);
        value := value + Placed(Group(ch), shift);
        if Ends(ch) { return true, false, value; }
        shift := shift + 7;
      }
      return false, false, 0;
    }

    method GetVarInt() returns (ok: bool, ranOut: bool, value: int64)
      modifies this
      ensures ReadVarInt(old(left)) == if ok then Got(value, left) else Fail(ranOut)
    {
      var u;
      ok, ranOut, u := GetVarUint();
      value := UnZigZag(u);
    }

    method GetText() returns (ok: bool, ranOut: bool, text: seq<octet>)
      modifies this
      ensures ReadText(old(left)) == if ok then Got(text, left) else Fail(ranOut)
    {
      var size;
      ok, ranOut, size := GetVarUint();
      text := [];
      if !ok { return; }
      if size >= TWO63 { return false, false, []; }
      if |left| < size { return false, true, []; }
      text, left := left[..size], left[size..];
    }

    method GetField(k: Kind) returns (ok: bool, ranOut: bool, f: Field)
      modifies this
      ensures Decode(k, old(left)) == if ok then Got(f, left) else Fail(ranOut)
    {
      match k
      case AStr =>
        var t;
        ok, ranOut, t := GetText();
        f := Str(t);
      case AUInt =>
        var u;
        ok, ranOut, u := GetVarUint();
        f := UInt(u);
      case ASInt =>
        var i;
        ok, ranOut, i := GetVarInt();
        f := SInt(i);
    }

    method GetFields(kinds: seq<Kind>) returns (ok: bool, ranOut: bool, fields: seq<Field>)
      modifies this
      ensures DecodeAll(kinds, old(left)) == if ok then Got(fields, left) else Fail(ranOut)
    {
      fields := [];
      var rest := kinds;
      ghost var whole := DecodeAll(kinds, left);
      FollowingNone(whole);
      while rest != []
        invariant Following(fields, DecodeAll(rest, left)) == whole
      {
        FollowingField(fields, rest, left);
        var f;
        ok, ranOut, f := GetField(rest[0]);
        if !ok { return; }
        fields, rest := fields + [f], rest[1..];
      }
      assert fields + [] == fields;
      ok, ranOut := true, false;
    }
  }

  /** Fields read, and the outcome of reading more. */
  function Following(fields: seq<Field>, r: Read<seq<Field>>): Read<seq<Field>>
  {
    match r case Got(fs, left) => Got(fields + fs, left) case Fail(e) => Fail(e)
  }

  lemma FollowingNone(r: Read<seq<Field>>)
    ensures Following([], r) == r
  {
    if r.Got? { assert [] + r.value == r.value; }
  }

  lemma {:induction false} FollowingField(fields: seq<Field>, kinds: seq<Kind>, s: seq<octet>)
    requires kinds != []
    ensures Following(fields, DecodeAll(kinds, s)) == match Decode(kinds[0], s)
      case Fail(e) => Fail(e)
      case Got(f, left) => Following(fields + [f], DecodeAll(kinds[1..], left))
  {
    match Decode(kinds[0], s)
    case Fail(_) =>
    case Got(f, left) =>
      match DecodeAll(kinds[1..], left)
      case Fail(_) =>
      case Got(fs, _) => assert fields + ([f] + fs) == fields + [f] + fs;
  }
}
