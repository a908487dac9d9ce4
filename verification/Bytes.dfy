/** Octets and little-endian words, as the file formats lay them out. Octets are 8-bit vectors
    because the checksum works on their bits; everything else reads them as numbers. */
module Bytes {
  type octet = bv8

  function ToNat(b: octet): (n: nat)
    ensures n < 256
  {
    b as int
  }

  lemma ToNatIsInjective(a: octet, b: octet)
    requires ToNat(a) == ToNat(b)
    ensures a == b
  {}

  lemma Successor(b: octet)
    requires b != 255
    ensures ToNat(b + 1) == ToNat(b) + 1
  {}

  function FromNat(n: nat): (b: octet)
    requires n < 256
    ensures ToNat(b) == n
  {
    if n == 0 then 0 else
      var p := FromNat(n - 1);
      Successor(p);
      p + 1
  }

  lemma FromToNat(b: octet)
    ensures FromNat(ToNat(b)) == b
  {
    ToNatIsInjective(FromNat(ToNat(b)), b);
  }

  // ----- little-endian words -----

  /** How many values fit in k octets. */
  function Span(k: nat): (n: nat)
    ensures n > 0
  {
    if k == 0 then 1 else 256 * Span(k - 1)
  }

  function Word(n: nat, k: nat): (s: seq<octet>)
    requires n < Span(k)
    ensures |s| == k
    decreases n, k
  {
    if k == 0 then [] else [FromNat(n % 256)] + Word(n / 256, k - 1)
  }

  function Value(s: seq<octet>): (n: nat)
    ensures n < Span(|s|)
    decreases |s|
  {
    if s == [] then 0 else ToNat(s[0]) + 256 * Value(s[1..])
  }

  lemma {:induction false} ValueOfWord(n: nat, k: nat)
    requires n < Span(k)
    ensures Value(Word(n, k)) == n
    decreases n, k
  {
    if k > 0 {
      ValueOfWord(n / 256, k - 1);
      assert Word(n, k)[1..] == Word(n / 256, k - 1);
    }
  }

  /** Little-endian by example. */
  lemma WordExample(n: nat, k: nat)
    requires n == 0x0102 && k == 3 && n < Span(k)
    ensures Word(n, k) == [0x02, 0x01, 0x00]
  {
    ToNatIsInjective(FromNat(n % 256), 0x02);
    ToNatIsInjective(FromNat(n / 256 % 256), 0x01);
    ToNatIsInjective(FromNat(n / 256 / 256 % 256), 0x00);
    assert Word(n / 256 / 256, k - 2) == [FromNat(n / 256 / 256 % 256)] + Word(n / 256 / 256 / 256, k - 3);
  }

  lemma SpanOfWord()
    ensures Span(4) == 0x1_0000_0000 && Span(8) == 0x1_0000_0000_0000_0000
  {
    assert Span(1) == 256 && Span(2) == 0x1_0000 && Span(3) == 0x100_0000;
    assert Span(5) == 0x100_0000_0000 && Span(6) == 0x1_0000_0000_0000 && Span(7) == 0x100_0000_0000_0000;
  }
}
