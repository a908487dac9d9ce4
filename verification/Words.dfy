/** Powers of two, the bitwise masks of the ring buffers, and the slots that counters select. */
module Words {
  import opened Int64

  function Pow2(k: nat): (r: nat)
    ensures r > 0
  {
    if k == 0 then 1 else 2 * Pow2(k - 1)
  }

  lemma WordIsPow2()
    ensures Pow2(64) == TWO64
  {
    Pow2Value();
    var k := 32;
    Pow2Add(k, k);
  }

  lemma Pow2Value()
    ensures Pow2(32) == 0x1_0000_0000
  {
    var k := 8;
    assert Pow2(8) == 256;
    Pow2Add(k, k);
    Pow2Add(2 * k, 2 * k);
  }

  lemma {:induction false} Pow2Add(a: nat, b: nat)
    ensures Pow2(a + b) == Pow2(a) * Pow2(b)
  {
    if a > 0 {
      Pow2Add(a - 1, b);
      MulAssoc(2, Pow2(a - 1), Pow2(b));
    }
  }

  /** Bitwise `&` of two unsigned words. */
  function And(a: nat, b: nat): nat
  {
    if a == 0 || b == 0 then 0
    else (if a % 2 == 1 && b % 2 == 1 then 1 else 0) + 2 * And(a / 2, b / 2)
  }

  /** Masking with N - 1 is reduction modulo N, for every power of two N. */
  lemma {:induction false} MaskIsMod(x: nat, k: nat)
    ensures And(x, Pow2(k) - 1) == x % Pow2(k)
    decreases k
  {
    if k > 0 {
      MaskIsMod(x / 2, k - 1);
      AndLowBit(x, Pow2(k - 1));
      HalveMod(x, Pow2(k - 1));
    }
  }

  lemma AndLowBit(x: nat, h: nat)
    requires h > 0
    ensures And(x, 2 * h - 1) == x % 2 + 2 * And(x / 2, h - 1)
  {
    assert (2 * h - 1) / 2 == h - 1 && (2 * h - 1) % 2 == 1;
  }

  lemma HalveMod(x: nat, h: nat)
    requires h > 0
    ensures x % (2 * h) == x % 2 + 2 * ((x / 2) % h)
  {
    var y := x / 2;
    var q, r := y / h, y % h;
    assert y == q * h + r;
    assert x == x % 2 + 2 * y;
    assert x == (2 * h) * q + (x % 2 + 2 * r);
    ModIs(x, 2 * h, q, x % 2 + 2 * r);
  }

  /** Uniqueness of quotient and remainder. */
  lemma ModIs(x: int, n: nat, q: int, r: nat)
    requires n > 0 && r < n && x == n * q + r
    ensures x % n == r && x / n == q
  {
    var q', r' := x / n, x % n;
    assert x == n * q' + r';
    assert n * (q - q') == r' - r by { Distribute(n, q, q'); }
    if q < q' {
      Scale(n, q' - q);
    } else if q > q' {
      Scale(n, q - q');
    }
  }

  lemma Distribute(n: int, a: int, b: int)
    ensures n * (a - b) == n * a - n * b && n * (a + b) == n * a + n * b
  {}

  lemma Scale(n: nat, d: nat)
    requires d > 0
    ensures n * d >= n
  {}

  /** The static assertion on ring sizes, (n & (n - 1)) == 0, accepts every power of two... */
  lemma {:induction false} SizeTestAccepts(k: nat)
    ensures And(Pow2(k), Pow2(k) - 1) == 0
  {
    if k > 0 {
      SizeTestAccepts(k - 1);
      AndLowBit(Pow2(k), Pow2(k - 1));
    }
  }

  /** ... and, of the positive numbers, nothing else. */
  lemma {:induction false} SizeTestOnly(n: nat) returns (k: nat)
    requires n > 0 && And(n, n - 1) == 0
    ensures n == Pow2(k)
  {
    k := 0;
    if n > 1 && n % 2 == 1 {
      assert And(n, n - 1) == 2 * And(n / 2, n / 2);
      AndSelf(n / 2);
      assert false;
    } else if n > 1 {
      AndLowBit(n, n / 2);
      var j := SizeTestOnly(n / 2);
      k := j + 1;
    }
  }

  lemma AndSelf(n: nat)
    ensures And(n, n) == n
  {}

  /** A smaller power of two divides a larger one, so reducing twice is reducing once. */
  lemma NestedMod(x: nat, k: nat, w: nat)
    requires k <= w
    ensures (x % Pow2(w)) % Pow2(k) == x % Pow2(k)
  {
    var q := Pow2Divides(k, w);
    ModOfMultiple(x, Pow2(k), q);
  }

  lemma ModOfMultiple(x: nat, n: nat, q: nat)
    requires n > 0 && q > 0 && n * q > 0
    ensures (x % (n * q)) % n == x % n
  {
    var m := n * q;
    var a, r := x / m, x % m;
    var b, s := r / n, r % n;
    assert x == m * a + r;
    assert r == n * b + s;
    assert m * a == n * (q * a) by { MulAssoc(n, q, a); }
    Distribute(n, q * a, b);
    ModIs(x, n, q * a + b, s);
  }

  lemma MulAssoc(a: int, b: int, c: int)
    ensures (a * b) * c == a * (b * c)
  {}

  lemma Pow2Divides(k: nat, w: nat) returns (q: nat)
    requires k <= w
    ensures Pow2(w) == Pow2(k) * q && q > 0
    ensures k < w ==> q >= 2
    decreases w
  {
    if k == w {
      q := 1;
    } else {
      var p := Pow2Divides(k, w - 1);
      q := 2 * p;
      MulAssoc(Pow2(k), 2, p);
      assert Pow2(w) == 2 * (Pow2(k) * p) == Pow2(k) * (2 * p);
    }
  }

  /** The slot of a ring of n that the i-th item uses, counting round the ring. */
  function Slot(i: nat, n: nat): (r: nat)
    requires n > 0
    ensures r < n
    decreases i
  {
    if i < n then i else Slot(i - n, n)
  }

  lemma {:induction false} SlotIsMod(i: nat, n: nat)
    requires n > 0
    ensures Slot(i, n) == i % n
    decreases i
  {
    if i >= n {
      SlotIsMod(i - n, n);
      var q, r := (i - n) / n, (i - n) % n;
      assert i - n == n * q + r;
      Distribute(n, q, 1);
      ModIs(i, n, q + 1, r);
    } else {
      ModIs(i, n, 0, i);
    }
  }

  lemma {:induction false} NextSlot(i: nat, n: nat)
    requires n > 0
    ensures Slot(i + 1, n) == if Slot(i, n) == n - 1 then 0 else Slot(i, n) + 1
    decreases i
  {
    if i >= n {
      NextSlot(i - n, n);
    } else if i == n - 1 {
      assert Slot(n, n) == Slot(0, n);
    }
  }

  /** The masked successor of an index: the next slot round the ring. */
  lemma MaskedNext(i: nat, k: nat)
    ensures And(Slot(i, Pow2(k)) + 1, Pow2(k) - 1) == Slot(i + 1, Pow2(k))
  {
    var n := Pow2(k);
    MaskIsMod(Slot(i, n) + 1, k);
    NextSlot(i, n);
    SlotIsMod(Slot(i, n) + 1, n);
    if Slot(i, n) == n - 1 { assert Slot(n, n) == 0; }
  }

  /** Two items less than n apart that use the same slot are the same item. */
  lemma {:induction false} SameSlot(a: nat, b: nat, n: nat)
    requires n > 0 && a <= b < a + n && Slot(a, n) == Slot(b, n)
    ensures a == b
    decreases a
  {
    if a >= n {
      SameSlot(a - n, b - n, n);
    }
  }

  /** A counter that wraps at m, a multiple of n, still selects the same slot. */
  lemma WrappedSlot(i: nat, k: nat, w: nat)
    requires k <= w
    ensures And(i % Pow2(w), Pow2(k) - 1) == Slot(i, Pow2(k))
  {
    MaskIsMod(i % Pow2(w), k);
    NestedMod(i, k, w);
    SlotIsMod(i, Pow2(k));
  }

  /** Unsigned subtraction modulo m of two slots of a ring of n, n dividing m, reduced
      modulo n, is the distance between the items. */
  lemma SlotDistance(a: nat, b: nat, n: nat, q: nat)
    requires n > 0 && q > 0 && n * q > 0 && b <= a < b + n
    ensures ((Slot(a, n) - Slot(b, n)) % (n * q)) % n == a - b
  {
    var d := Slot(a, n) - Slot(b, n);
    var z := if d < 0 then d + n * q else d;
    Scale(n, q);
    ModIs(d, n * q, if d < 0 then -1 else 0, z);
    SlotDifference(a, b, n);
    var c := if Slot(b, n) <= Slot(a, n) then 0 else 1;
    assert a - b == d + n * c;
    if d < 0 {
      Distribute(n, q, 1);
      ModIs(z, n, q - 1, a - b);
    } else {
      ModIs(z, n, 0, a - b);
    }
  }

  lemma {:induction false} SlotDifference(a: nat, b: nat, n: nat)
    requires n > 0 && b <= a < b + n
    ensures a - b == Slot(a, n) - Slot(b, n) + if Slot(b, n) <= Slot(a, n) then 0 else n
    decreases b
  {
    if b >= n {
      SlotDifference(a - n, b - n, n);
    } else if a >= n {
      assert Slot(a, n) == a - n;
    }
  }
}
