/** CRC-32 as the write-ahead log uses it (section 8 of RFC 1952). */
module Crc32 {
  import opened Bytes
  import opened ShiftRegister

  const ONES: bv32 := 0xFFFF_FFFF

  function Xor32(a: bv32, b: bv32): bv32 { a ^ b }
  predicate Odd32(a: bv32) { a & 1 == 1 }
  function Half32(a: bv32): bv32 { a >> 1 }
  function Low32(a: bv32): bv32 { a & 0xFF }
  function High32(a: bv32): bv32 { a & 0xFFFF_FF00 }
  function Down32(a: bv32): bv32 { a >> 8 }
  function Up32(a: bv32): bv32 { a << 8 }
  function Byte32(b: octet): bv32 { b as bv32 }

  function Bits32(): Arith<bv32>
  {
    Arith(Xor32, 0, Odd32, Half32, Low32, High32, Down32, Up32, 0xEDB8_8320, Byte32)
  }

  lemma XorFacts(a: bv32, b: bv32, c: bv32)
    ensures (a ^ b) ^ c == a ^ (b ^ c) && a ^ b == b ^ a && a ^ 0 == a && a ^ a == 0
  {}

  lemma OddFacts(a: bv32, b: bv32)
    ensures (((a ^ b) & 1) == 1) == (((a & 1) == 1) != ((b & 1) == 1))
  {}

  lemma HalfFacts(a: bv32, b: bv32)
    ensures (a ^ b) >> 1 == (a >> 1) ^ (b >> 1)
  {}

  lemma DecideFacts(a: bv32, b: bv32)
    ensures ((a & 1) == 1) == ((b & 1) == 1) && a >> 1 == b >> 1 ==> a == b
    ensures (a >> 1) ^ 0xEDB8_8320 != b >> 1
  {}

  lemma ByteFacts(x: bv32, b: octet)
    ensures (x & 0xFF) ^ (x & 0xFFFF_FF00) == x
    ensures (x & 0xFFFF_FF00) & 0xFF == 0 && (x & 0xFFFF_FF00) >> 8 == x >> 8
    ensures (x ^ (b as bv32)) >> 8 == x >> 8 && (b as bv32) >> 8 == 0
  {}

  lemma LiftFacts(b: octet)
    ensures var w := b as bv32;
      && (w << 8) & 0xFF == 0 && (w << 8) >> 8 == w
      && ((w << 8) << 8) & 0xFF == 0 && ((w << 8) << 8) >> 8 == w << 8
      && (((w << 8) << 8) << 8) & 0xFF == 0 && (((w << 8) << 8) << 8) >> 8 == (w << 8) << 8
  {}

  lemma WordFacts(b0: octet, b1: octet, b2: octet, b3: octet)
    ensures var w := (((b0 as bv32) ^ ((b1 as bv32) << 8)) ^ (((b2 as bv32) << 8) << 8)) ^ ((((b3 as bv32) << 8) << 8) << 8);
      && (w & 0xFF) as octet == b0 && ((w >> 8) & 0xFF) as octet == b1
      && ((w >> 16) & 0xFF) as octet == b2 && (w >> 24) as octet == b3
  {}

  lemma OctetFacts(w: bv32)
    ensures (((((w & 0xFF) as octet) as bv32) ^ ((((w >> 8) & 0xFF) as octet as bv32) << 8))
              ^ (((((w >> 16) & 0xFF) as octet as bv32) << 8) << 8))
              ^ (((((w >> 24) as octet as bv32) << 8) << 8) << 8) == w
  {}

  lemma ShiftFacts(c: bv32)
    ensures (((((((c >> 1) >> 1) >> 1) >> 1) >> 1) >> 1) >> 1) >> 1 == c >> 8
    ensures c & 0xFF == 0 ==>
      && c & 1 == 0 && (c >> 1) & 1 == 0 && ((c >> 1) >> 1) & 1 == 0 && (((c >> 1) >> 1) >> 1) & 1 == 0
      && ((((c >> 1) >> 1) >> 1) >> 1) & 1 == 0 && (((((c >> 1) >> 1) >> 1) >> 1) >> 1) & 1 == 0
      && ((((((c >> 1) >> 1) >> 1) >> 1) >> 1) >> 1) & 1 == 0
      && (((((((c >> 1) >> 1) >> 1) >> 1) >> 1) >> 1) >> 1) & 1 == 0
  {}

  lemma HalfChain(c: bv32, c1: bv32, c2: bv32, c3: bv32, c4: bv32, c5: bv32, c6: bv32, c7: bv32, c8: bv32)
    requires c1 == Half32(c) && c2 == Half32(c1) && c3 == Half32(c2) && c4 == Half32(c3)
    requires c5 == Half32(c4) && c6 == Half32(c5) && c7 == Half32(c6) && c8 == Half32(c7)
    ensures c8 == Down32(c)
    ensures Low32(c) == 0 ==> !Odd32(c) && !Odd32(c1) && !Odd32(c2) && !Odd32(c3)
                              && !Odd32(c4) && !Odd32(c5) && !Odd32(c6) && !Odd32(c7)
  {
    ShiftFacts(c);
  }

  lemma Unrolled<T>(F: Arith<T>, c: T, c1: T, c2: T, c3: T, c4: T, c5: T, c6: T, c7: T, c8: T)
    requires c1 == F.half(c) && c2 == F.half(c1) && c3 == F.half(c2) && c4 == F.half(c3)
    requires c5 == F.half(c4) && c6 == F.half(c5) && c7 == F.half(c6) && c8 == F.half(c7)
    ensures Halves(F, c, 8) == c8
    ensures !F.odd(c) && !F.odd(c1) && !F.odd(c2) && !F.odd(c3) && !F.odd(c4) && !F.odd(c5) && !F.odd(c6) && !F.odd(c7)
      ==> EvenFor(F, c, 8)
  {
    assert Halves(F, c7, 1) == c8;
    assert Halves(F, c6, 2) == c8;
    assert Halves(F, c5, 3) == c8;
    assert Halves(F, c4, 4) == c8;
    assert Halves(F, c3, 5) == c8;
    assert Halves(F, c2, 6) == c8;
    assert Halves(F, c1, 7) == c8;
    if !F.odd(c) && !F.odd(c1) && !F.odd(c2) && !F.odd(c3) && !F.odd(c4) && !F.odd(c5) && !F.odd(c6) && !F.odd(c7) {
      assert EvenFor(F, c7, 1);
      assert EvenFor(F, c6, 2);
      assert EvenFor(F, c5, 3);
      assert EvenFor(F, c4, 4);
      assert EvenFor(F, c3, 5);
      assert EvenFor(F, c2, 6);
      assert EvenFor(F, c1, 7);
    }
  }

  lemma EightHalves(c: bv32)
    ensures Halves(Bits32(), c, 8) == Down32(c)
    ensures Low32(c) == 0 ==> EvenFor(Bits32(), c, 8)
  {
    var c1 := Half32(c);
    var c2 := Half32(c1);
    var c3 := Half32(c2);
    var c4 := Half32(c3);
    var c5 := Half32(c4);
    var c6 := Half32(c5);
    var c7 := Half32(c6);
    var c8 := Half32(c7);
    HalfChain(c, c1, c2, c3, c4, c5, c6, c7, c8);
    Unrolled(Bits32(), c, c1, c2, c3, c4, c5, c6, c7, c8);
  }

  lemma XorObeys(a: bv32, b: bv32, c: bv32)
    ensures Associates(Bits32(), a, b, c)
    ensures Commutes(Bits32(), a, b)
    ensures Cancels(Bits32(), a)
  {
    XorFacts(a, b, c);
  }

  lemma XorsObey()
    ensures XorLaws(Bits32())
  {
    forall a: bv32, b: bv32, c: bv32 ensures Associates(Bits32(), a, b, c) { XorObeys(a, b, c); }
    forall a: bv32, b: bv32 ensures Commutes(Bits32(), a, b) { XorObeys(a, b, 0); }
    forall a: bv32 ensures Cancels(Bits32(), a) { XorObeys(a, 0, 0); }
  }

  lemma NamedHalf(a: bv32, b: bv32)
    ensures Half32(Xor32(a, b)) == Xor32(Half32(a), Half32(b))
  {
    HalfFacts(a, b);
  }

  lemma NamedOdd(a: bv32, b: bv32)
    ensures Odd32(Xor32(a, b)) == (Odd32(a) != Odd32(b))
  {
    OddFacts(a, b);
  }

  lemma NamedDecide(a: bv32, b: bv32)
    ensures Odd32(a) == Odd32(b) && Half32(a) == Half32(b) ==> a == b
    ensures Xor32(Half32(a), 0xEDB8_8320) != Half32(b)
  {
    DecideFacts(a, b);
  }

  lemma HalfObeysXor(a: bv32, b: bv32)
    ensures HalvesXor(Bits32(), a, b)
  {
    NamedHalf(a, b);
    NamedOdd(a, b);
  }

  lemma HalfObeysDecide(a: bv32, b: bv32)
    ensures HalfDecides(Bits32(), a, b)
  {
    NamedDecide(a, b);
  }

  lemma HalvesObey()
    ensures HalfLaws(Bits32())
  {
    forall a: bv32, b: bv32 ensures HalvesXor(Bits32(), a, b) && HalfDecides(Bits32(), a, b) {
      HalfObeysXor(a, b);
      HalfObeysDecide(a, b);
    }
  }

  lemma NamedSplit(x: bv32)
    ensures Xor32(Low32(x), High32(x)) == x && Low32(High32(x)) == 0 && Down32(High32(x)) == Down32(x)
  {
    ByteFacts(x, 0);
  }

  lemma SplitObeys(x: bv32)
    ensures SplitsByte(Bits32(), x)
  {
    NamedSplit(x);
    EightHalves(High32(x));
  }

  lemma ByteObeys(crc: bv32, b: octet)
    ensures ByteFits(Bits32(), crc, b)
  {
    ByteFacts(crc, b);
    EightHalves(Byte32(b));
  }

  lemma BytesObey()
    ensures ByteLaws(Bits32())
  {
    var F := Bits32();
    forall x ensures SplitsByte(F, x) { SplitObeys(x); }
    forall crc, b ensures ByteFits(F, crc, b) { ByteObeys(crc, b); }
  }

  lemma LiftObeys(w: bv32)
    requires Up32(w) & 0xFF == 0 && Up32(w) >> 8 == w
    ensures Lifts(Bits32(), w)
  {
    EightHalves(Up32(w));
  }

  lemma ByteLiftObeys(b: octet)
    ensures BytesLift(Bits32(), b)
  {
    var w := Byte32(b);
    LiftFacts(b);
    LiftObeys(w);
    LiftObeys(Up32(w));
    LiftObeys(Up32(Up32(w)));
  }

  function Word32(b0: octet, b1: octet, b2: octet, b3: octet): bv32
  {
    (((b0 as bv32) ^ ((b1 as bv32) << 8)) ^ (((b2 as bv32) << 8) << 8)) ^ ((((b3 as bv32) << 8) << 8) << 8)
  }

  lemma NamedWordOf(b0: octet, b1: octet, b2: octet, b3: octet)
    ensures Xor32(Xor32(Xor32(Byte32(b0), Up32(Byte32(b1))), Up32(Up32(Byte32(b2)))), Up32(Up32(Up32(Byte32(b3)))))
      == Word32(b0, b1, b2, b3)
  {}

  function Octet0(w: bv32): octet { (w & 0xFF) as octet }
  function Octet1(w: bv32): octet { ((w >> 8) & 0xFF) as octet }
  function Octet2(w: bv32): octet { ((w >> 16) & 0xFF) as octet }
  function Octet3(w: bv32): octet { (w >> 24) as octet }

  lemma OctetsOfWord(b0: octet, b1: octet, b2: octet, b3: octet)
    ensures var w := Word32(b0, b1, b2, b3); Octet0(w) == b0 && Octet1(w) == b1 && Octet2(w) == b2 && Octet3(w) == b3
  {
    WordFacts(b0, b1, b2, b3);
  }

  lemma WordOfOctets(w: bv32)
    ensures Word32(Octet0(w), Octet1(w), Octet2(w), Octet3(w)) == w
  {
    OctetFacts(w);
  }

  lemma NamedWord(a0: octet, a1: octet, a2: octet, a3: octet, b0: octet, b1: octet, b2: octet, b3: octet)
    ensures Word32(a0, a1, a2, a3) == Word32(b0, b1, b2, b3) ==> a0 == b0 && a1 == b1 && a2 == b2 && a3 == b3
  {
    OctetsOfWord(a0, a1, a2, a3);
    OctetsOfWord(b0, b1, b2, b3);
  }

  lemma WordOfIs(b0: octet, b1: octet, b2: octet, b3: octet)
    ensures WordOf(Bits32(), b0, b1, b2, b3) == Word32(b0, b1, b2, b3)
  {
    NamedWordOf(b0, b1, b2, b3);
  }

  lemma WordObeys(a0: octet, a1: octet, a2: octet, a3: octet, b0: octet, b1: octet, b2: octet, b3: octet)
    ensures WordDecides(Bits32(), a0, a1, a2, a3, b0, b1, b2, b3)
  {
    WordOfIs(a0, a1, a2, a3);
    WordOfIs(b0, b1, b2, b3);
    NamedWord(a0, a1, a2, a3, b0, b1, b2, b3);
  }

  lemma WordsObey()
    ensures WordLaws(Bits32())
  {
    var F := Bits32();
    forall b ensures BytesLift(F, b) { ByteLiftObeys(b); }
    forall a0, a1, a2, a3, b0, b1, b2, b3 ensures WordDecides(F, a0, a1, a2, a3, b0, b1, b2, b3) {
      WordObeys(a0, a1, a2, a3, b0, b1, b2, b3);
    }
  }

  /** 32-bit vectors obey every law the register reasoning uses. */
  lemma BitsLaws()
    ensures Laws(Bits32())
  {
    var F := Bits32();
    assert XorLaws(F) by { XorsObey(); }
    assert HalfLaws(F) by { HalvesObey(); }
    assert ByteLaws(F) by { BytesObey(); }
    assert WordLaws(F) by { WordsObey(); }
  }

  // ----- the checksum -----

  function Complement(a: bv32): bv32 { !a }

  /** The checksum as the RFC defines it: a register of ones, the message bits divided in one at
      a time, the remainder complemented. */
  function Remainder(message: seq<octet>): bv32
  {
    Complement(Divide(Bits32(), ONES, MessageBits(Bits32(), message)))
  }

  /** The checksum as the byte loop produces it. */
  function Compute(message: seq<octet>): bv32
  {
    Xor32(AbsorbAll(Bits32(), ONES, message), ONES)
  }

  /** Continuing a checksum over more data. */
  function Update(crc: bv32, data: seq<octet>): bv32
  {
    Complement(AbsorbAll(Bits32(), Complement(crc), data))
  }

  lemma ComplementFacts(a: bv32)
    ensures a ^ 0xFFFF_FFFF == !a && !(!a) == a
  {}

  lemma ComplementIsXor(a: bv32)
    ensures Complement(a) == Xor32(a, ONES) && Complement(Complement(a)) == a
  {
    ComplementFacts(a);
  }

  /** The table-driven checksum is the remainder of the bit-by-bit division, for every message. */
  lemma ComputeIsRemainder(message: seq<octet>)
    ensures Compute(message) == Remainder(message)
  {
    BitsLaws();
    TableLoopDivides(Bits32(), ONES, message);
    ComplementIsXor(AbsorbAll(Bits32(), ONES, message));
  }

  function Turn(c: bv32): bv32 { if c & 1 == 1 then (c >> 1) ^ 0xEDB8_8320 else c >> 1 }

  function EightTurns(c: bv32): bv32 { Turn(Turn(Turn(Turn(Turn(Turn(Turn(Turn(c)))))))) }

  function Next(crc: bv32, b: octet): bv32 { Xor32(EightTurns(Low32(Xor32(crc, Byte32(b)))), Down32(crc)) }

  lemma TurnIsStep(c: bv32)
    ensures Step(Bits32(), c) == Turn(c)
  {}

  lemma EightSteps<T>(F: Arith<T>, c: T, c1: T, c2: T, c3: T, c4: T, c5: T, c6: T, c7: T, c8: T)
    requires c1 == Step(F, c) && c2 == Step(F, c1) && c3 == Step(F, c2) && c4 == Step(F, c3)
    requires c5 == Step(F, c4) && c6 == Step(F, c5) && c7 == Step(F, c6) && c8 == Step(F, c7)
    ensures Steps(F, c, 8) == c8
  {
    assert Steps(F, c7, 1) == c8;
    assert Steps(F, c6, 2) == c8;
    assert Steps(F, c5, 3) == c8;
    assert Steps(F, c4, 4) == c8;
    assert Steps(F, c3, 5) == c8;
    assert Steps(F, c2, 6) == c8;
    assert Steps(F, c1, 7) == c8;
  }

  lemma TurnsAreSteps(c: bv32)
    ensures Steps(Bits32(), c, 8) == EightTurns(c)
  {
    var c1 := Turn(c);
    var c2 := Turn(c1);
    var c3 := Turn(c2);
    var c4 := Turn(c3);
    var c5 := Turn(c4);
    var c6 := Turn(c5);
    var c7 := Turn(c6);
    TurnIsStep(c);
    TurnIsStep(c1);
    TurnIsStep(c2);
    TurnIsStep(c3);
    TurnIsStep(c4);
    TurnIsStep(c5);
    TurnIsStep(c6);
    TurnIsStep(c7);
    EightSteps(Bits32(), c, c1, c2, c3, c4, c5, c6, c7, Turn(c7));
  }

  lemma NextAbsorbs(crc: bv32, b: octet, message: seq<octet>, rest: seq<octet>, next: bv32)
    requires message != [] && message[0] == b && message[1..] == rest && next == Next(crc, b)
    ensures AbsorbAll(Bits32(), crc, message) == AbsorbAll(Bits32(), next, rest)
  {
    NextIsAbsorb(crc, b);
  }

  lemma StepsAbsorb(crc: bv32, b: octet, x: bv32, e: bv32)
    requires x == Low32(Xor32(crc, Byte32(b))) && e == Steps(Bits32(), x, 8)
    ensures Absorb(Bits32(), crc, b) == Xor32(e, Down32(crc))
  {}

  lemma NextIsAbsorb(crc: bv32, b: octet)
    ensures Absorb(Bits32(), crc, b) == Next(crc, b)
  {
    var x := Low32(Xor32(crc, Byte32(b)));
    TurnsAreSteps(x);
    StepsAbsorb(crc, b, x, EightTurns(x));
  }

  lemma FirstDigits()
    ensures AbsorbAll(Bits32(), ONES, [0x31, 0x32, 0x33, 0x34, 0x35, 0x36, 0x37, 0x38, 0x39])
      == AbsorbAll(Bits32(), 0x340A_C5E3, [0x36, 0x37, 0x38, 0x39])
  {
    NextAbsorbs(ONES, 0x31, [0x31, 0x32, 0x33, 0x34, 0x35, 0x36, 0x37, 0x38, 0x39], [0x32, 0x33, 0x34, 0x35, 0x36, 0x37, 0x38, 0x39], 0x7C23_1048);
    NextAbsorbs(0x7C23_1048, 0x32, [0x32, 0x33, 0x34, 0x35, 0x36, 0x37, 0x38, 0x39], [0x33, 0x34, 0x35, 0x36, 0x37, 0x38, 0x39], 0xB0AC_BB32);
    NextAbsorbs(0xB0AC_BB32, 0x33, [0x33, 0x34, 0x35, 0x36, 0x37, 0x38, 0x39], [0x34, 0x35, 0x36, 0x37, 0x38, 0x39], 0x77B7_9C2D);
    NextAbsorbs(0x77B7_9C2D, 0x34, [0x34, 0x35, 0x36, 0x37, 0x38, 0x39], [0x35, 0x36, 0x37, 0x38, 0x39], 0x641C_1F5C);
    NextAbsorbs(0x641C_1F5C, 0x35, [0x35, 0x36, 0x37, 0x38, 0x39], [0x36, 0x37, 0x38, 0x39], 0x340A_C5E3);
  }

  lemma LastDigits()
    ensures AbsorbAll(Bits32(), 0x340A_C5E3, [0x36, 0x37, 0x38, 0x39]) == 0x340B_C6D9
  {
    NextAbsorbs(0x340A_C5E3, 0x36, [0x36, 0x37, 0x38, 0x39], [0x37, 0x38, 0x39], 0xF68D_2C9E);
    NextAbsorbs(0xF68D_2C9E, 0x37, [0x37, 0x38, 0x39], [0x38, 0x39], 0xAFFC_9660);
    NextAbsorbs(0xAFFC_9660, 0x38, [0x38, 0x39], [0x39], 0x651F_2550);
    NextAbsorbs(0x651F_2550, 0x39, [0x39], [], 0x340B_C6D9);
  }

  /** The check value of this checksum: that of the nine digits "123456789". */
  lemma CheckValue()
    ensures Compute([0x31, 0x32, 0x33, 0x34, 0x35, 0x36, 0x37, 0x38, 0x39]) == 0xCBF4_3926
  {
    FirstDigits();
    LastDigits();
  }

  /** A checksum can be resumed: what `update` adds to a finished checksum is what `compute`
      gives over both parts. */
  lemma UpdateResumes(a: seq<octet>, b: seq<octet>)
    ensures Update(Compute(a), b) == Compute(a + b)
    ensures Update(0, b) == Compute(b)
  {
    var r := AbsorbAll(Bits32(), ONES, a);
    AbsorbConcat(Bits32(), ONES, a, b);
    ComplementIsXor(r);
    ComplementIsXor(AbsorbAll(Bits32(), r, b));
    ComplementIsXor(AbsorbAll(Bits32(), ONES, b));
    assert Complement(0) == ONES;
  }

  /** Two messages that differ only inside four adjacent bytes never share a checksum. */
  lemma BurstDetected(pre: seq<octet>, a: seq<octet>, b: seq<octet>, post: seq<octet>)
    requires |a| == |b| <= 4 && a != b
    ensures Compute(pre + a + post) != Compute(pre + b + post)
  {
    BitsLaws();
    BurstChangesRegister(Bits32(), ONES, pre, a, b, post);
    ComplementIsXor(AbsorbAll(Bits32(), ONES, pre + a + post));
    ComplementIsXor(AbsorbAll(Bits32(), ONES, pre + b + post));
  }

  // ----- a message followed by its own checksum -----

  /** The four octets of a checksum, low end first. */
  function Octets(w: bv32): (s: seq<octet>)
    ensures |s| == 4
  {
    [Octet0(w), Octet1(w), Octet2(w), Octet3(w)]
  }

  function FromOctets(s: seq<octet>): bv32
    requires |s| == 4
  {
    Word32(s[0], s[1], s[2], s[3])
  }

  lemma OctetsRoundTrip(w: bv32)
    ensures FromOctets(Octets(w)) == w
  {
    WordOfOctets(w);
  }

  /** A sealed message carries its own checksum in its last four octets. */
  predicate Sealed(message: seq<octet>)
    requires |message| >= 4
  {
    Compute(message[..|message| - 4]) == FromOctets(message[|message| - 4..])
  }

  lemma ChecksumLeavesResidue(r: bv32, b0: octet, b1: octet, b2: octet, b3: octet)
    ensures AbsorbAll(Bits32(), r, [b0, b1, b2, b3]) == Steps(Bits32(), ONES, 32) <==> Word32(b0, b1, b2, b3) == Xor32(r, ONES)
  {
    BitsLaws();
    WordOfIs(b0, b1, b2, b3);
    TrailingChecksum(Bits32(), r, ONES, b0, b1, b2, b3);
  }

  lemma SealedParts(body: seq<octet>, tail: seq<octet>)
    requires |tail| == 4
    ensures Compute(body) == FromOctets(tail) <==> AbsorbAll(Bits32(), ONES, body + tail) == Steps(Bits32(), ONES, 32)
  {
    AbsorbConcat(Bits32(), ONES, body, tail);
    assert tail == [tail[0], tail[1], tail[2], tail[3]];
    ChecksumLeavesResidue(AbsorbAll(Bits32(), ONES, body), tail[0], tail[1], tail[2], tail[3]);
  }

  lemma SealedByRegister(message: seq<octet>)
    requires |message| >= 4
    ensures Sealed(message) <==> AbsorbAll(Bits32(), ONES, message) == Steps(Bits32(), ONES, 32)
  {
    var body, tail := message[..|message| - 4], message[|message| - 4..];
    assert message == body + tail;
    SealedParts(body, tail);
  }

  /** A burst of up to four adjacent bytes anywhere in a sealed message, checksum included,
      breaks the seal. */
  lemma BurstBreaksSeal(pre: seq<octet>, a: seq<octet>, b: seq<octet>, post: seq<octet>)
    requires |a| == |b| <= 4 && a != b && |pre + a + post| >= 4
    requires Sealed(pre + a + post)
    ensures !Sealed(pre + b + post)
  {
    BitsLaws();
    SealedByRegister(pre + a + post);
    SealedByRegister(pre + b + post);
    BurstChangesRegister(Bits32(), ONES, pre, a, b, post);
  }

  // ----- the class -----

  /** The entry the table holds for an octet. */
  function Entry(i: octet): bv32
  {
    Steps(Bits32(), Byte32(i), 8)
  }

  /** The first n entries are in place. */
  ghost predicate Filled(t: seq<bv32>, n: nat)
  {
    |t| == 256 && forall i: octet :: ToNat(i) < n ==> t[ToNat(i)] == Entry(i)
  }

  lemma LookupFacts(x: bv32, b: bv8)
    ensures ((x ^ (b as bv32)) & 0xFF) as bv8 as bv32 == (x ^ (b as bv32)) & 0xFF
  {}

  lemma Lookup(crc: bv32, b: octet)
    ensures Xor32(Entry(Octet0(Xor32(crc, Byte32(b)))), Down32(crc)) == Absorb(Bits32(), crc, b)
  {
    LookupFacts(crc, b);
  }

  lemma TableGrows(before: seq<bv32>, i: nat, c: bv32)
    requires i < 256 && Filled(before, i) && c == Entry(FromNat(i))
    ensures Filled(before[i := c], i + 1)
  {
    var after := before[i := c];
    forall k: octet | ToNat(k) < i + 1 ensures after[ToNat(k)] == Entry(k) { EntryInPlace(before, i, c, k); }
  }

  lemma EntryInPlace(before: seq<bv32>, i: nat, c: bv32, k: octet)
    requires i < 256 && Filled(before, i) && c == Entry(FromNat(i)) && ToNat(k) <= i
    ensures before[i := c][ToNat(k)] == Entry(k)
  {
    FromToNat(k);
  }

  lemma NothingFilled(t: seq<bv32>)
    requires |t| == 256
    ensures Filled(t, 0)
  {}

  /** One turn of the table-building loop. */
  method ShiftOnce(c: bv32) returns (d: bv32)
    ensures d == Step(Bits32(), c)
  {
    d := if c & 1 == 1 then (c >> 1) ^ 0xEDB8_8320 else c >> 1;
  }

  /** The eight turns for one entry. */
  method MakeEntry(i: nat) returns (c: bv32)
    requires i < 256
    ensures c == Entry(FromNat(i))
  {
    c := Byte32(FromNat(i));
    var j := 0;
    while j < 8
      invariant 0 <= j <= 8
      invariant Steps(Bits32(), c, 8 - j) == Entry(FromNat(i))
    {
      c := ShiftOnce(c);
      j := j + 1;
    }
  }

  class CRC32 {
    const t: array<bv32>
    var init: bool

    ghost predicate Valid()
      reads this, t
    {
      t.Length == 256 && (init ==> Filled(t[..], 256))
    }

    constructor ()
      ensures Valid() && fresh(t) && !init
    {
      t := new bv32[256];
      init := false;
    }

    /** Fill the table on first use. */
    method Table()
      requires Valid()
      modifies this, t
      ensures Valid() && init
    {
      if init { return; }
      NothingFilled(t[..]);
      var i := 0;
      while i < 256
        invariant 0 <= i <= 256 && !init && Filled(t[..], i)
      {
        var c := MakeEntry(i);
        TableGrows(t[..], i, c);
        t[i] := c;
        i := i + 1;
      }
      init := true;
    }

    method EntryOf(i: octet) returns (entry: bv32)
      requires Valid() && init
      ensures entry == Entry(i)
    {
      entry := t[ToNat(i)];
    }

    /** One turn of the loop over the message. */
    method AbsorbByte(crc: bv32, b: octet) returns (d: bv32)
      requires Valid() && init
      ensures d == Absorb(Bits32(), crc, b)
    {
      var entry := EntryOf(Octet0(Xor32(crc, Byte32(b))));
      d := Xor32(entry, Down32(crc));
      Lookup(crc, b);
    }

    method AbsorbBytes(start: bv32, data: seq<octet>) returns (crc: bv32)
      requires Valid() && init
      ensures crc == AbsorbAll(Bits32(), start, data)
    {
      crc := start;
      var i := 0;
      while i < |data|
        invariant 0 <= i <= |data|
        invariant AbsorbAll(Bits32(), crc, data[i..]) == AbsorbAll(Bits32(), start, data)
      {
        crc := AbsorbByte(crc, data[i]);
        i := i + 1;
      }
    }

    method ComputeBytes(data: seq<octet>) returns (crc: bv32)
      requires Valid()
      modifies this, t
      ensures Valid() && init && crc == Compute(data)
    {
      Table();
      crc := AbsorbBytes(ONES, data);
      crc := crc ^ ONES;
    }

    method UpdateBytes(start: bv32, data: seq<octet>) returns (crc: bv32)
      requires Valid()
      modifies this, t
      ensures Valid() && init && crc == Update(start, data)
    {
      Table();
      crc := AbsorbBytes(!start, data);
      crc := !crc;
    }
  }
}
