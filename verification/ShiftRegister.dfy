/** A checksum register driven a byte at a time by table, against the same register driven a bit
    at a time, and the error bursts it is certain to detect. The reasoning is about any register
    arithmetic with the laws stated here; module Crc32 shows that 32-bit vectors have them. */
module ShiftRegister {

  /** A shift register: exclusive or, halving (shift right by one), the low bit, the low byte,
      shift right by eight, shift left by eight, and the generator polynomial. */
  datatype Arith<!T> = Arith(
    xor: (T, T) -> T, zero: T, odd: T -> bool, half: T -> T,
    low: T -> T, high: T -> T, down: T -> T, up: T -> T,
    polynomial: T, byte: bv8 -> T)

  // ----- the reference: division one message bit at a time -----

  /** Shift one message bit into the register, low end first: the polynomial is subtracted when
      the bit leaving the register differs from the message bit. */
  function ShiftIn<T>(F: Arith<T>, register: T, bit: bool): T
  {
    if F.odd(register) != bit then F.xor(F.half(register), F.polynomial) else F.half(register)
  }

  function Divide<T>(F: Arith<T>, register: T, bits: seq<bool>): T
    decreases |bits|
  {
    if bits == [] then register else Divide(F, ShiftIn(F, register, bits[0]), bits[1..])
  }

  /** The low n bits of a word, least significant first. */
  function BitsOf<T>(F: Arith<T>, w: T, n: nat): seq<bool>
    decreases n, w
  {
    if n == 0 then [] else [F.odd(w)] + BitsOf(F, F.half(w), n - 1)
  }

  function MessageBits<T>(F: Arith<T>, message: seq<bv8>): seq<bool>
    decreases |message|
  {
    if message == [] then [] else BitsOf(F, F.byte(message[0]), 8) + MessageBits(F, message[1..])
  }

  // ----- the arithmetic of the implementation -----

  /** One turn of the table-building loop. */
  function Step<T>(F: Arith<T>, c: T): T
  {
    if F.odd(c) then F.xor(F.half(c), F.polynomial) else F.half(c)
  }

  function Steps<T>(F: Arith<T>, c: T, n: nat): T
    decreases n, c
  {
    if n == 0 then c else Steps(F, Step(F, c), n - 1)
  }

  function Halves<T>(F: Arith<T>, c: T, n: nat): T
    decreases n, c
  {
    if n == 0 then c else Halves(F, F.half(c), n - 1)
  }

  /** One turn of the loop over the message: the table entry of the low byte, xored with the
      rest of the register. */
  function Absorb<T>(F: Arith<T>, crc: T, b: bv8): T
  {
    F.xor(Steps(F, F.low(F.xor(crc, F.byte(b))), 8), F.down(crc))
  }

  function AbsorbAll<T>(F: Arith<T>, crc: T, message: seq<bv8>): T
    decreases |message|
  {
    if message == [] then crc else AbsorbAll(F, Absorb(F, crc, message[0]), message[1..])
  }

  // ----- the laws -----

  ghost predicate EvenFor<T>(F: Arith<T>, c: T, n: nat)
    decreases n, c
  {
    n == 0 || (!F.odd(c) && EvenFor(F, F.half(c), n - 1))
  }

  predicate Associates<T(==)>(F: Arith<T>, a: T, b: T, c: T) { F.xor(F.xor(a, b), c) == F.xor(a, F.xor(b, c)) }
  predicate Commutes<T(==)>(F: Arith<T>, a: T, b: T) { F.xor(a, b) == F.xor(b, a) }
  predicate Cancels<T(==)>(F: Arith<T>, a: T) { F.xor(a, F.zero) == a && F.xor(a, a) == F.zero }

  /** Halving is linear. */
  predicate HalvesXor<T(==)>(F: Arith<T>, a: T, b: T)
  {
    F.odd(F.xor(a, b)) == (F.odd(a) != F.odd(b)) && F.half(F.xor(a, b)) == F.xor(F.half(a), F.half(b))
  }

  /** A word is known from its half and its low bit, even when the half was reduced: the
      polynomial's top bit tells the two cases apart. */
  predicate HalfDecides<T(==)>(F: Arith<T>, a: T, b: T)
  {
    && (F.odd(a) == F.odd(b) && F.half(a) == F.half(b) ==> a == b)
    && F.xor(F.half(a), F.polynomial) != F.half(b)
  }

  /** A word is its low byte and the rest; the rest only shifts in eight steps. */
  ghost predicate SplitsByte<T>(F: Arith<T>, x: T)
  {
    F.xor(F.low(x), F.high(x)) == x && EvenFor(F, F.high(x), 8) && Halves(F, F.high(x), 8) == F.down(x)
  }

  /** A byte sits in the low eight bits. */
  ghost predicate ByteFits<T>(F: Arith<T>, crc: T, b: bv8)
  {
    F.down(F.xor(crc, F.byte(b))) == F.down(crc) && Halves(F, F.byte(b), 8) == F.zero
  }

  ghost predicate XorLaws<T(!new)>(F: Arith<T>)
  {
    && (forall a, b, c :: Associates(F, a, b, c))
    && (forall a, b :: Commutes(F, a, b))
    && (forall a :: Cancels(F, a))
  }

  ghost predicate HalfLaws<T(!new)>(F: Arith<T>)
  {
    (forall a, b :: HalvesXor(F, a, b)) && (forall a, b :: HalfDecides(F, a, b))
  }

  ghost predicate ByteLaws<T(!new)>(F: Arith<T>)
  {
    (forall x :: SplitsByte(F, x)) && (forall crc, b :: ByteFits(F, crc, b))
  }

  /** Four bytes fit side by side in a word. */
  ghost predicate WordLaws<T(!new)>(F: Arith<T>)
  {
    && (forall b :: BytesLift(F, b))
    && (forall a0, a1, a2, a3, b0, b1, b2, b3 :: WordDecides(F, a0, a1, a2, a3, b0, b1, b2, b3))
  }

  ghost predicate BytesLift<T>(F: Arith<T>, b: bv8)
  {
    Lifts(F, F.byte(b)) && Lifts(F, F.up(F.byte(b))) && Lifts(F, F.up(F.up(F.byte(b))))
  }

  ghost predicate WordDecides<T>(F: Arith<T>, a0: bv8, a1: bv8, a2: bv8, a3: bv8, b0: bv8, b1: bv8, b2: bv8, b3: bv8)
  {
    WordOf(F, a0, a1, a2, a3) == WordOf(F, b0, b1, b2, b3) ==> a0 == b0 && a1 == b1 && a2 == b2 && a3 == b3
  }

  /** Shifting w up by a byte clears the low byte, and eight halvings undo it. */
  ghost predicate Lifts<T>(F: Arith<T>, w: T)
  {
    EvenFor(F, F.up(w), 8) && Halves(F, F.up(w), 8) == w
  }

  /** The little-endian word of four bytes. */
  function WordOf<T>(F: Arith<T>, b0: bv8, b1: bv8, b2: bv8, b3: bv8): T
  {
    F.xor(F.xor(F.xor(F.byte(b0), F.up(F.byte(b1))), F.up(F.up(F.byte(b2)))), F.up(F.up(F.up(F.byte(b3)))))
  }

  ghost predicate Laws<T(!new)>(F: Arith<T>)
  {
    XorLaws(F) && HalfLaws(F) && ByteLaws(F) && WordLaws(F)
  }

  // ----- steps are linear and injective -----

  lemma StepIsLinear<T(!new)>(F: Arith<T>, a: T, b: T)
    requires XorLaws(F) && HalfLaws(F)
    ensures Step(F, F.xor(a, b)) == F.xor(Step(F, a), Step(F, b))
  {
    var x, y, p := F.half(a), F.half(b), F.polynomial;
    assert HalvesXor(F, a, b);
    SwapLast(F, x, p, y);
    CancelCommon(F, x, y, p);
  }

  lemma CancelCommon<T(!new)>(F: Arith<T>, x: T, y: T, p: T)
    requires XorLaws(F)
    ensures F.xor(F.xor(x, p), F.xor(y, p)) == F.xor(x, y)
  {
    assert Associates(F, x, p, F.xor(y, p));
    assert Commutes(F, y, p);
    assert Associates(F, p, p, y);
    assert Cancels(F, p) && Cancels(F, y) && Commutes(F, F.zero, y);
  }

  lemma SwapLast<T(!new)>(F: Arith<T>, x: T, p: T, y: T)
    requires XorLaws(F)
    ensures F.xor(F.xor(x, p), y) == F.xor(F.xor(x, y), p)
    ensures F.xor(x, F.xor(y, p)) == F.xor(F.xor(x, y), p)
  {
    assert Commutes(F, p, y) && Associates(F, x, p, y) && Associates(F, x, y, p);
  }

  lemma {:induction false} StepsAreLinear<T(!new)>(F: Arith<T>, a: T, b: T, n: nat)
    requires XorLaws(F) && HalfLaws(F)
    ensures Steps(F, F.xor(a, b), n) == F.xor(Steps(F, a, n), Steps(F, b, n))
    decreases n, a
  {
    if n > 0 {
      StepIsLinear(F, a, b);
      StepsAreLinear(F, Step(F, a), Step(F, b), n - 1);
    }
  }

  lemma XorCancel<T(!new)>(F: Arith<T>, a: T, b: T, p: T)
    requires XorLaws(F) && F.xor(a, p) == F.xor(b, p)
    ensures a == b
  {
    assert Associates(F, a, p, p) && Associates(F, b, p, p) && Cancels(F, p) && Cancels(F, a) && Cancels(F, b);
  }

  lemma StepIsInjective<T(!new)>(F: Arith<T>, a: T, b: T)
    requires XorLaws(F) && HalfLaws(F) && Step(F, a) == Step(F, b)
    ensures a == b
  {
    assert HalfDecides(F, a, b) && HalfDecides(F, b, a);
    if F.odd(a) && F.odd(b) { XorCancel(F, F.half(a), F.half(b), F.polynomial); }
  }

  lemma {:induction false} StepsAreInjective<T(!new)>(F: Arith<T>, a: T, b: T, n: nat)
    requires XorLaws(F) && HalfLaws(F) && Steps(F, a, n) == Steps(F, b, n)
    ensures a == b
    decreases n, a
  {
    if n > 0 {
      StepsAreInjective(F, Step(F, a), Step(F, b), n - 1);
      StepIsInjective(F, a, b);
    }
  }

  lemma {:induction false} EvenStepsHalve<T>(F: Arith<T>, c: T, n: nat)
    requires EvenFor(F, c, n)
    ensures Steps(F, c, n) == Halves(F, c, n)
    decreases n, c
  {
    if n > 0 { EvenStepsHalve(F, F.half(c), n - 1); }
  }

  // ----- the table loop is the bitwise division -----

  /** One table lookup advances the register by eight steps. */
  lemma AbsorbIsEightSteps<T(!new)>(F: Arith<T>, crc: T, b: bv8)
    requires XorLaws(F) && HalfLaws(F) && ByteLaws(F)
    ensures Absorb(F, crc, b) == Steps(F, F.xor(crc, F.byte(b)), 8)
  {
    var x := F.xor(crc, F.byte(b));
    assert SplitsByte(F, x) && ByteFits(F, crc, b);
    StepsAreLinear(F, F.low(x), F.high(x), 8);
    EvenStepsHalve(F, F.high(x), 8);
  }

  lemma OneBit<T(!new)>(F: Arith<T>, r: T, w: T)
    requires XorLaws(F) && HalfLaws(F)
    ensures Step(F, F.xor(r, w)) == F.xor(ShiftIn(F, r, F.odd(w)), F.half(w))
  {
    assert HalvesXor(F, r, w);
    SwapLast(F, F.half(r), F.polynomial, F.half(w));
  }

  /** Shifting in the low n bits of w is n steps on register xor w, once w itself is gone. */
  lemma {:induction false} BitsAreSteps<T(!new)>(F: Arith<T>, r: T, w: T, n: nat)
    requires XorLaws(F) && HalfLaws(F)
    ensures Steps(F, F.xor(r, w), n) == F.xor(Divide(F, r, BitsOf(F, w, n)), Halves(F, w, n))
    decreases n, r
  {
    if n > 0 {
      OneBit(F, r, w);
      assert BitsOf(F, w, n)[1..] == BitsOf(F, F.half(w), n - 1);
      BitsAreSteps(F, ShiftIn(F, r, F.odd(w)), F.half(w), n - 1);
    }
  }

  lemma {:induction false} DivideConcat<T>(F: Arith<T>, r: T, a: seq<bool>, b: seq<bool>)
    ensures Divide(F, r, a + b) == Divide(F, Divide(F, r, a), b)
    decreases |a|
  {
    if a == [] {
      assert a + b == b;
    } else {
      assert (a + b)[1..] == a[1..] + b;
      DivideConcat(F, ShiftIn(F, r, a[0]), a[1..], b);
    }
  }

  /** The table loop over a message is the division of its bits. */
  lemma {:induction false} TableLoopDivides<T(!new)>(F: Arith<T>, crc: T, message: seq<bv8>)
    requires XorLaws(F) && HalfLaws(F) && ByteLaws(F)
    ensures AbsorbAll(F, crc, message) == Divide(F, crc, MessageBits(F, message))
    decreases |message|
  {
    if message != [] {
      var w := F.byte(message[0]);
      AbsorbIsEightSteps(F, crc, message[0]);
      BitsAreSteps(F, crc, w, 8);
      assert ByteFits(F, crc, message[0]) && Cancels(F, Divide(F, crc, BitsOf(F, w, 8)));
      DivideConcat(F, crc, BitsOf(F, w, 8), MessageBits(F, message[1..]));
      TableLoopDivides(F, Absorb(F, crc, message[0]), message[1..]);
    }
  }

  lemma {:induction false} AbsorbConcat<T>(F: Arith<T>, crc: T, a: seq<bv8>, b: seq<bv8>)
    ensures AbsorbAll(F, crc, a + b) == AbsorbAll(F, AbsorbAll(F, crc, a), b)
    decreases |a|
  {
    if a == [] {
      assert a + b == b;
    } else {
      assert (a + b)[1..] == a[1..] + b;
      AbsorbConcat(F, Absorb(F, crc, a[0]), a[1..], b);
    }
  }

  // ----- error detection -----

  lemma {:induction false} AbsorbIsInjective<T(!new)>(F: Arith<T>, a: T, b: T, message: seq<bv8>)
    requires XorLaws(F) && HalfLaws(F) && ByteLaws(F)
    requires AbsorbAll(F, a, message) == AbsorbAll(F, b, message)
    ensures a == b
    decreases |message|
  {
    if message != [] {
      var w := F.byte(message[0]);
      AbsorbIsInjective(F, Absorb(F, a, message[0]), Absorb(F, b, message[0]), message[1..]);
      AbsorbIsEightSteps(F, a, message[0]);
      AbsorbIsEightSteps(F, b, message[0]);
      StepsAreInjective(F, F.xor(a, w), F.xor(b, w), 8);
      XorCancel(F, a, b, w);
    }
  }

  lemma {:induction false} StepsAdd<T>(F: Arith<T>, c: T, m: nat, n: nat)
    ensures Steps(F, Steps(F, c, m), n) == Steps(F, c, m + n)
    decreases m
  {
    if m > 0 { StepsAdd(F, Step(F, c), m - 1, n); }
  }

  lemma UpSteps<T(!new)>(F: Arith<T>, w: T)
    requires Lifts(F, w)
    ensures Steps(F, F.up(w), 8) == w
  {
    EvenStepsHalve(F, F.up(w), 8);
  }

  /** A byte absorbed after n steps might as well have been xored in before, n bits higher. */
  lemma AbsorbEarlier<T(!new)>(F: Arith<T>, s: T, n: nat, b: bv8, w: T)
    requires XorLaws(F) && HalfLaws(F) && ByteLaws(F) && Steps(F, w, n) == F.byte(b)
    ensures Absorb(F, Steps(F, s, n), b) == Steps(F, F.xor(s, w), n + 8)
  {
    AbsorbIsEightSteps(F, Steps(F, s, n), b);
    StepsAreLinear(F, s, w, n);
    StepsAdd(F, F.xor(s, w), n, 8);
  }

  lemma LiftedBytes<T(!new)>(F: Arith<T>, b: bv8)
    requires WordLaws(F)
    ensures var w := F.byte(b);
      && Steps(F, F.up(w), 8) == w
      && Steps(F, F.up(F.up(w)), 16) == w
      && Steps(F, F.up(F.up(F.up(w))), 24) == w
  {
    var w := F.byte(b);
    assert BytesLift(F, b);
    UpSteps(F, w);
    UpSteps(F, F.up(w));
    UpSteps(F, F.up(F.up(w)));
    StepsAdd(F, F.up(F.up(w)), 8, 8);
    StepsAdd(F, F.up(F.up(F.up(w))), 8, 16);
  }

  /** Four bytes act as 32 steps on register xor their little-endian word. */
  lemma FourBytes<T(!new)>(F: Arith<T>, s: T, b0: bv8, b1: bv8, b2: bv8, b3: bv8)
    requires Laws(F)
    ensures AbsorbAll(F, s, [b0, b1, b2, b3]) == Steps(F, F.xor(s, WordOf(F, b0, b1, b2, b3)), 32)
  {
    var w0, w1, w2, w3 := F.byte(b0), F.up(F.byte(b1)), F.up(F.up(F.byte(b2))), F.up(F.up(F.up(F.byte(b3))));
    FourAbsorbs(F, s, b0, b1, b2, b3);
    AbsorbIsEightSteps(F, s, b0);
    LiftedBytes(F, b1);
    LiftedBytes(F, b2);
    LiftedBytes(F, b3);
    ThreeEarlier(F, F.xor(s, w0), b1, b2, b3, w1, w2, w3);
    GatherWord(F, s, w0, w1, w2, w3);
  }

  lemma ThreeEarlier<T(!new)>(F: Arith<T>, s: T, b1: bv8, b2: bv8, b3: bv8, w1: T, w2: T, w3: T)
    requires XorLaws(F) && HalfLaws(F) && ByteLaws(F)
    requires Steps(F, w1, 8) == F.byte(b1) && Steps(F, w2, 16) == F.byte(b2) && Steps(F, w3, 24) == F.byte(b3)
    ensures Absorb(F, Absorb(F, Absorb(F, Steps(F, s, 8), b1), b2), b3) == Steps(F, F.xor(F.xor(F.xor(s, w1), w2), w3), 32)
  {
    AbsorbEarlier(F, s, 8, b1, w1);
    AbsorbEarlier(F, F.xor(s, w1), 16, b2, w2);
    AbsorbEarlier(F, F.xor(F.xor(s, w1), w2), 24, b3, w3);
  }

  lemma FourAbsorbs<T>(F: Arith<T>, s: T, b0: bv8, b1: bv8, b2: bv8, b3: bv8)
    ensures AbsorbAll(F, s, [b0, b1, b2, b3]) == Absorb(F, Absorb(F, Absorb(F, Absorb(F, s, b0), b1), b2), b3)
  {
    AbsorbConcat(F, s, [b0, b1], [b2, b3]);
    assert [b0, b1] + [b2, b3] == [b0, b1, b2, b3];
    TwoAbsorbs(F, s, b0, b1);
    TwoAbsorbs(F, AbsorbAll(F, s, [b0, b1]), b2, b3);
  }

  lemma TwoAbsorbs<T>(F: Arith<T>, s: T, a: bv8, b: bv8)
    ensures AbsorbAll(F, s, [a, b]) == Absorb(F, Absorb(F, s, a), b)
  {
    assert [a, b][1..] == [b] && [b][1..] == [];
    assert AbsorbAll(F, Absorb(F, s, a), [b]) == AbsorbAll(F, Absorb(F, Absorb(F, s, a), b), []);
  }

  lemma GatherWord<T(!new)>(F: Arith<T>, s: T, a: T, b: T, c: T, d: T)
    requires XorLaws(F)
    ensures F.xor(F.xor(F.xor(F.xor(s, a), b), c), d) == F.xor(s, F.xor(F.xor(F.xor(a, b), c), d))
  {
    assert Associates(F, s, a, b) && Associates(F, s, F.xor(a, b), c) && Associates(F, s, F.xor(F.xor(a, b), c), d);
  }

  lemma WordWindowDecides<T(!new)>(F: Arith<T>, s: T, v: T, w: T)
    requires XorLaws(F) && HalfLaws(F) && Steps(F, F.xor(s, v), 32) == Steps(F, F.xor(s, w), 32)
    ensures v == w
  {
    StepsAreInjective(F, F.xor(s, v), F.xor(s, w), 32);
    assert Commutes(F, s, v) && Commutes(F, s, w);
    XorCancel(F, v, w, s);
  }

  lemma FourDecide<T(!new)>(F: Arith<T>, s: T, a0: bv8, a1: bv8, a2: bv8, a3: bv8, b0: bv8, b1: bv8, b2: bv8, b3: bv8)
    requires Laws(F) && AbsorbAll(F, s, [a0, a1, a2, a3]) == AbsorbAll(F, s, [b0, b1, b2, b3])
    ensures a0 == b0 && a1 == b1 && a2 == b2 && a3 == b3
  {
    FourBytes(F, s, a0, a1, a2, a3);
    FourBytes(F, s, b0, b1, b2, b3);
    WordWindowDecides(F, s, WordOf(F, a0, a1, a2, a3), WordOf(F, b0, b1, b2, b3));
    assert WordDecides(F, a0, a1, a2, a3, b0, b1, b2, b3);
  }

  lemma FullWindowDecides<T(!new)>(F: Arith<T>, s: T, x: seq<bv8>, y: seq<bv8>)
    requires Laws(F) && |x| == |y| == 4 && AbsorbAll(F, s, x) == AbsorbAll(F, s, y)
    ensures x == y
  {
    assert x == [x[0], x[1], x[2], x[3]] && y == [y[0], y[1], y[2], y[3]];
    FourDecide(F, s, x[0], x[1], x[2], x[3], y[0], y[1], y[2], y[3]);
  }

  /** Two different windows of at most four bytes leave different registers. */
  lemma WindowDecides<T(!new)>(F: Arith<T>, s: T, a: seq<bv8>, b: seq<bv8>)
    requires Laws(F) && |a| == |b| <= 4 && AbsorbAll(F, s, a) == AbsorbAll(F, s, b)
    ensures a == b
  {
    var pad: seq<bv8> := seq(4 - |a|, _ => 0);
    AbsorbConcat(F, s, a, pad);
    AbsorbConcat(F, s, b, pad);
    FullWindowDecides(F, s, a + pad, b + pad);
    assert a == (a + pad)[..|a|] && b == (b + pad)[..|a|];
  }

  /** A burst of at most four adjacent bytes always changes the final register. */
  lemma BurstChangesRegister<T(!new)>(F: Arith<T>, s: T, pre: seq<bv8>, a: seq<bv8>, b: seq<bv8>, post: seq<bv8>)
    requires Laws(F) && |a| == |b| <= 4 && a != b
    ensures AbsorbAll(F, s, pre + a + post) != AbsorbAll(F, s, pre + b + post)
  {
    AbsorbConcat(F, s, pre + a, post);
    AbsorbConcat(F, s, pre + b, post);
    AbsorbConcat(F, s, pre, a);
    AbsorbConcat(F, s, pre, b);
    var r := AbsorbAll(F, s, pre);
    if AbsorbAll(F, s, pre + a + post) == AbsorbAll(F, s, pre + b + post) {
      AbsorbIsInjective(F, AbsorbAll(F, r, a), AbsorbAll(F, r, b), post);
      WindowDecides(F, r, a, b);
    }
  }

  /** Feeding the complemented register back through the register itself leaves a constant, and
      no other four bytes do: what makes a trailing checksum checkable as part of the message. */
  lemma TrailingChecksum<T(!new)>(F: Arith<T>, r: T, ones: T, b0: bv8, b1: bv8, b2: bv8, b3: bv8)
    requires Laws(F)
    ensures AbsorbAll(F, r, [b0, b1, b2, b3]) == Steps(F, ones, 32) <==> WordOf(F, b0, b1, b2, b3) == F.xor(r, ones)
  {
    var w := WordOf(F, b0, b1, b2, b3);
    FourBytes(F, r, b0, b1, b2, b3);
    assert Associates(F, r, r, ones) && Cancels(F, r) && Commutes(F, F.zero, ones) && Cancels(F, ones);
    if Steps(F, F.xor(r, w), 32) == Steps(F, ones, 32) {
      StepsAreInjective(F, F.xor(r, w), ones, 32);
      assert Associates(F, r, r, w) && Commutes(F, F.zero, w) && Cancels(F, w);
    }
  }
}
