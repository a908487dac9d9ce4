/** Base64 (section 4 of RFC 4648) as the credential store uses it: three octets to four characters,
    and a decoder that shifts everything through one 32-bit accumulator and never clears it. */
module Base64 {
  import opened Bytes
  import opened Sequences

  // ----- characters -----

  /** The character of a six-bit value: A to Z, a to z, 0 to 9, plus, slash. */
  function Character(d: octet): octet
  {
    if d < 26 then 0x41 + d
    else if d < 52 then 0x61 + (d - 26)
    else if d < 62 then 0x30 + (d - 52)
    else if d == 62 then 0x2B
    else 0x2F
  }

  const PAD: octet := 0x3D

  datatype Decoded = Value(d: octet) | Noise

  function DecodeChar(c: octet): Decoded
  {
    if 0x41 <= c && c <= 0x5A then Value(c - 0x41)
    else if 0x61 <= c && c <= 0x7A then Value(c - 0x61 + 26)
    else if 0x30 <= c && c <= 0x39 then Value(c - 0x30 + 52)
    else if c == 0x2B then Value(62)
    else if c == 0x2F then Value(63)
    else Noise
  }

  /** The alphabet: four runs of consecutive characters, from A to Z, a to z and 0 to 9, and then plus
      and slash. */
  lemma Alphabet(d: octet)
    requires d < 64
    ensures Character(0) == 0x41 && Character(25) == 0x5A && Character(26) == 0x61 && Character(51) == 0x7A
    ensures Character(52) == 0x30 && Character(61) == 0x39 && Character(62) == 0x2B && Character(63) == 0x2F
    ensures d != 25 && d != 51 && d != 61 && d != 62 && d != 63 ==> Character(d + 1) == Character(d) + 1
  {}

  lemma CharacterDecodes(d: octet)
    requires d < 64
    ensures DecodeChar(Character(d)) == Value(d) && Character(d) != PAD
  {}

  // ----- encoding -----

  function First(b0: octet): octet { (b0 >> 2) & 0x3F }
  function Second(b0: octet, b1: octet): octet { ((b0 << 4) | (b1 >> 4)) & 0x3F }
  function Third(b1: octet, b2: octet): octet { ((b1 << 2) | (b2 >> 6)) & 0x3F }
  function Fourth(b2: octet): octet { b2 & 0x3F }

  function At(data: seq<octet>, i: nat): octet
  {
    if i < |data| then data[i] else 0
  }

  /** The four characters of the first up to three octets. */
  function Quartet(data: seq<octet>): (s: seq<octet>)
    requires data != []
    ensures |s| == 4
  {
    var b0, b1, b2 := data[0], At(data, 1), At(data, 2);
    [Character(First(b0)), Character(Second(b0, b1)),
     if |data| > 1 then Character(Third(b1, b2)) else PAD,
     if |data| > 2 then Character(Fourth(b2)) else PAD]
  }

  function Rest(data: seq<octet>): seq<octet>
  {
    if |data| > 3 then data[3..] else []
  }

  function Encode(data: seq<octet>): seq<octet>
    decreases |data|
  {
    if data == [] then [] else Quartet(data) + Encode(Rest(data))
  }

  // ----- decoding -----

  /** The low octet after shifting down by up to five bits. */
  function LowOctet(val: bv32, bits: nat): octet
    requires bits < 6
  {
    if bits == 0 then (val & 0xFF) as octet
    else if bits == 1 then ((val >> 1) & 0xFF) as octet
    else if bits == 2 then ((val >> 2) & 0xFF) as octet
    else if bits == 3 then ((val >> 3) & 0xFF) as octet
    else if bits == 4 then ((val >> 4) & 0xFF) as octet
    else ((val >> 5) & 0xFF) as octet
  }

  function Shifted(val: bv32, d: octet): bv32
  {
    (val << 6) | (d as bv32)
  }

  /** The decoding loop from a given accumulator; bits is how many bits short of an octet it is, less
      one octet. Padding, line breaks and anything else that is no character are passed over. */
  function DecodeFrom(s: seq<octet>, val: bv32, bits: int): seq<octet>
    requires -8 <= bits < 0
    decreases |s|
  {
    if s == [] then []
    else match DecodeChar(s[0])
      case Noise => DecodeFrom(s[1..], val, bits)
      case Value(d) =>
        var next := Shifted(val, d);
        if bits + 6 >= 0
        then [LowOctet(next, bits + 6)] + DecodeFrom(s[1..], next, bits + 6 - 8)
        else DecodeFrom(s[1..], next, bits + 6)
  }

  function Decode(s: seq<octet>): seq<octet>
  {
    DecodeFrom(s, 0, -8)
  }

  // ----- the bits -----

  lemma FirstFacts(val: bv32, b0: octet, b1: octet)
    ensures ((((((val << 6) | (((b0 >> 2) & 0x3F) as bv32)) << 6) | ((((b0 << 4) | (b1 >> 4)) & 0x3F) as bv32)) >> 4) & 0xFF) as octet == b0
  {}

  lemma SecondFacts(val: bv32, b0: octet, b1: octet, b2: octet)
    ensures ((((((val << 6) | ((((b0 << 4) | (b1 >> 4)) & 0x3F) as bv32)) << 6) | ((((b1 << 2) | (b2 >> 6)) & 0x3F) as bv32)) >> 2) & 0xFF) as octet == b1
  {}

  lemma ThirdFacts(val: bv32, b1: octet, b2: octet)
    ensures (((((val << 6) | ((((b1 << 2) | (b2 >> 6)) & 0x3F) as bv32)) << 6) | ((b2 & 0x3F) as bv32)) & 0xFF) as octet == b2
  {}

  lemma FirstOut(val: bv32, b0: octet, b1: octet)
    ensures LowOctet(Shifted(Shifted(val, First(b0)), Second(b0, b1)), 4) == b0
  {
    FirstFacts(val, b0, b1);
  }

  lemma SecondOut(val: bv32, b0: octet, b1: octet, b2: octet)
    ensures LowOctet(Shifted(Shifted(val, Second(b0, b1)), Third(b1, b2)), 2) == b1
  {
    SecondFacts(val, b0, b1, b2);
  }

  lemma ThirdOut(val: bv32, b1: octet, b2: octet)
    ensures LowOctet(Shifted(Shifted(val, Third(b1, b2)), Fourth(b2)), 0) == b2
  {
    ThirdFacts(val, b1, b2);
  }

  lemma SmallFacts(b0: octet, b1: octet, b2: octet)
    ensures First(b0) < 64 && Second(b0, b1) < 64 && Third(b1, b2) < 64 && Fourth(b2) < 64
  {}

  // ----- one character at a time -----

  /** Taking a character that completes no octet. */
  lemma {:induction false} TakeSilent(s: seq<octet>, d: octet, rest: seq<octet>, val: bv32, bits: int)
    requires -8 <= bits < -6 && d < 64 && s == [Character(d)] + rest
    ensures DecodeFrom(s, val, bits) == DecodeFrom(rest, Shifted(val, d), bits + 6)
  {
    CharacterDecodes(d);
    assert s[1..] == rest;
  }

  /** Taking a character that completes one. */
  lemma {:induction false} TakeOctet(s: seq<octet>, d: octet, rest: seq<octet>, val: bv32, bits: int)
    requires -6 <= bits < 0 && d < 64 && s == [Character(d)] + rest
    ensures DecodeFrom(s, val, bits)
      == [LowOctet(Shifted(val, d), bits + 6)] + DecodeFrom(rest, Shifted(val, d), bits - 2)
  {
    CharacterDecodes(d);
    assert s[1..] == rest;
  }

  /** Padding, line breaks and foreign characters change nothing wherever they stand. */
  lemma {:induction false} NoiseIgnored(a: seq<octet>, c: octet, b: seq<octet>, val: bv32, bits: int)
    requires DecodeChar(c) == Noise && -8 <= bits < 0
    ensures DecodeFrom(a + [c] + b, val, bits) == DecodeFrom(a + b, val, bits)
    decreases |a|
  {
    var s, t := a + [c] + b, a + b;
    if a == [] {
      assert s[1..] == b && t == b;
    } else {
      assert s[1..] == a[1..] + [c] + b && t[1..] == a[1..] + b && s[0] == t[0] == a[0];
      match DecodeChar(a[0])
      case Noise => NoiseIgnored(a[1..], c, b, val, bits);
      case Value(d) =>
        NoiseIgnored(a[1..], c, b, Shifted(val, d), if bits + 6 >= 0 then bits - 2 else bits + 6);
    }
  }

  lemma {:induction false} TwoIn(s: seq<octet>, b0: octet, b1: octet, rest: seq<octet>, val: bv32) returns (next: bv32)
    requires s == [Character(First(b0)), Character(Second(b0, b1))] + rest
    ensures next == Shifted(Shifted(val, First(b0)), Second(b0, b1))
    ensures DecodeFrom(s, val, -8) == [b0] + DecodeFrom(rest, next, -4)
  {
    SmallFacts(b0, b1, 0);
    var s1 := [Character(Second(b0, b1))] + rest;
    assert s == [Character(First(b0))] + s1;
    TakeSilent(s, First(b0), s1, val, -8);
    var v1 := Shifted(val, First(b0));
    TakeOctet(s1, Second(b0, b1), rest, v1, -2);
    FirstOut(val, b0, b1);
    next := Shifted(v1, Second(b0, b1));
  }

  lemma ThreeThen(b0: octet, b1: octet, b2: octet, s: seq<octet>)
    ensures [b0] + ([b1] + ([b2] + s)) == [b0, b1, b2] + s
  {}

  /** Four characters give their three octets back, whatever the accumulator held before. */
  lemma {:induction false} FullQuartet(s: seq<octet>, b0: octet, b1: octet, b2: octet, rest: seq<octet>, val: bv32)
    returns (next: bv32)
    requires s == [Character(First(b0)), Character(Second(b0, b1)), Character(Third(b1, b2)), Character(Fourth(b2))] + rest
    ensures DecodeFrom(s, val, -8) == [b0, b1, b2] + DecodeFrom(rest, next, -8)
  {
    SmallFacts(b0, b1, b2);
    var s3 := [Character(Fourth(b2))] + rest;
    var s2 := [Character(Third(b1, b2))] + s3;
    assert s == [Character(First(b0)), Character(Second(b0, b1))] + s2;
    var v2 := TwoIn(s, b0, b1, s2, val);
    TakeOctet(s2, Third(b1, b2), s3, v2, -4);
    SecondOut(Shifted(val, First(b0)), b0, b1, b2);
    var v3 := Shifted(v2, Third(b1, b2));
    TakeOctet(s3, Fourth(b2), rest, v3, -6);
    ThirdOut(v2, b1, b2);
    next := Shifted(v3, Fourth(b2));
    ThreeThen(b0, b1, b2, DecodeFrom(rest, next, -8));
  }

  lemma {:induction false} PadsEnd(pads: seq<octet>, val: bv32, bits: int)
    requires -8 <= bits < 0 && forall i :: 0 <= i < |pads| ==> pads[i] == PAD
    ensures DecodeFrom(pads, val, bits) == []
    decreases |pads|
  {
    if pads != [] { PadsEnd(pads[1..], val, bits); }
  }

  /** The last one or two octets, and the padding after them. */
  lemma {:induction false} ShortQuartet(data: seq<octet>, val: bv32)
    requires 0 < |data| < 3
    ensures DecodeFrom(Quartet(data), val, -8) == data
  {
    var b0, b1, s := data[0], At(data, 1), Quartet(data);
    SmallFacts(b0, b1, 0);
    var s2 := s[2..];
    assert s == [Character(First(b0)), Character(Second(b0, b1))] + s2;
    var v2 := TwoIn(s, b0, b1, s2, val);
    if |data| == 1 {
      PadsEnd(s2, v2, -4);
    } else {
      assert s2 == [Character(Third(b1, 0))] + [PAD];
      TakeOctet(s2, Third(b1, 0), [PAD], v2, -4);
      SecondOut(Shifted(val, First(b0)), b0, b1, 0);
      PadsEnd([PAD], Shifted(v2, Third(b1, 0)), -6);
    }
  }

  lemma {:induction false} DecodeEncoded(data: seq<octet>, val: bv32)
    ensures DecodeFrom(Encode(data), val, -8) == data
    decreases |data|
  {
    if data == [] {
    } else if |data| < 3 {
      assert Encode(data) == Quartet(data) + [] == Quartet(data);
      ShortQuartet(data, val);
    } else {
      var rest := Rest(data);
      var next := FullQuartet(Encode(data), data[0], data[1], data[2], Encode(rest), val);
      DecodeEncoded(rest, next);
      assert data == [data[0], data[1], data[2]] + rest;
    }
  }

  /** Decoding undoes encoding, for every byte string. */
  lemma RoundTrip(data: seq<octet>)
    ensures Decode(Encode(data)) == data
  {
    DecodeEncoded(data, 0);
  }

  /** The encoding by example, two test vectors of the RFC: "foob" and "fo". */
  lemma {:induction false} EncodingExample(foob: seq<octet>, fo: seq<octet>)
    requires foob == [0x66, 0x6F, 0x6F, 0x62] && fo == [0x66, 0x6F]
    ensures Encode(foob) == [0x5A, 0x6D, 0x39, 0x76, 0x59, 0x67, 0x3D, 0x3D]
    ensures Encode(fo) == [0x5A, 0x6D, 0x38, 0x3D]
  {
    assert Rest(foob) == [0x62] && Rest([0x62]) == [] && Rest(fo) == [];
    assert Encode([0x62]) == Quartet([0x62]) + Encode([]);
    assert Encode(fo) == Quartet(fo) + Encode([]);
  }

  lemma {:induction false} EncodedLength(data: seq<octet>)
    ensures |Encode(data)| == (|data| + 2) / 3 * 4
    decreases |data|
  {
    if data != [] { EncodedLength(Rest(data)); }
  }

  // ----- the loops -----

  method EncodeBytes(data: seq<octet>) returns (result: seq<octet>)
    ensures result == Encode(data)
  {
    result := [];
    var rest := data;
    while rest != []
      invariant result + Encode(rest) == Encode(data)
      decreases |rest|
    {
      Regroup(result, Quartet(rest), Encode(Rest(rest)));
      result, rest := result + Quartet(rest), Rest(rest);
    }
  }

  method DecodeBytes(encoded: seq<octet>) returns (result: seq<octet>)
    ensures result == Decode(encoded)
  {
    result := [];
    var rest := encoded;
    var val: bv32, bits := 0, -8;
    while rest != []
      invariant -8 <= bits < 0
      invariant result + DecodeFrom(rest, val, bits) == Decode(encoded)
    {
      var c := rest[0];
      ghost var before, was, from, at := result, rest, val, bits;
      rest := rest[1..];
      match DecodeChar(c)
      case Noise =>
      case Value(d) =>
        val := Shifted(val, d);
        bits := bits + 6;
        if bits >= 0 {
          result := result + [LowOctet(val, bits)];
          bits := bits - 8;
          Regroup(before, [LowOctet(val, bits + 8)], DecodeFrom(rest, val, bits));
        }
    }
  }
}
