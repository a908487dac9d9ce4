/** 64-bit machine integers, over unbounded ones. */
module Int64 {
  const TWO63 := 0x8000_0000_0000_0000
  const TWO64 := 0x1_0000_0000_0000_0000

  type int64 = x: int | -TWO63 <= x < TWO63
  type uint64 = x: int | 0 <= x < TWO64

  /** The unsigned reading of a signed word: same bits. */
  function Unsigned(x: int64): uint64
  {
    if x < 0 then x + TWO64 else x
  }

  /** The signed reading of an unsigned word: same bits. */
  function Signed(x: uint64): int64
  {
    if x >= TWO63 then x - TWO64 else x
  }

  /** Unsigned addition and subtraction, which wrap. */
  function Plus(a: uint64, b: uint64): uint64
  {
    if a + b >= TWO64 then a + b - TWO64 else a + b
  }

  function Minus(a: uint64, b: uint64): uint64
  {
    if a >= b then a - b else a - b + TWO64
  }

  lemma SignedUnsigned(x: int64)
    ensures Signed(Unsigned(x)) == x
  {}

  type int32 = x: int | -0x8000_0000 <= x < 0x8000_0000

  /** The low 32 bits, read as a signed number. */
  function Narrow(u: uint64): (r: int32)
    ensures (u - r) % 0x1_0000_0000 == 0
  {
    var low := u % 0x1_0000_0000;
    if low >= 0x8000_0000 then low - 0x1_0000_0000 else low
  }

  function Clamped(n: int32): (r: int32)
    ensures 0 <= r && n <= r && (r == n || r == 0)
  {
    if n < 0 then 0 else n
  }

  lemma NarrowIsExact(n: int32)
    requires n >= 0
    ensures Narrow(n) == n
  {}

  /** Two's complement addition and subtraction. */
  function SPlus(a: int64, b: int64): int64
  {
    Signed(Plus(Unsigned(a), Unsigned(b)))
  }

  function SMinus(a: int64, b: int64): int64
  {
    Signed(Minus(Unsigned(a), Unsigned(b)))
  }

  lemma SMinusPlus(a: int64, b: int64)
    ensures SPlus(b, SMinus(a, b)) == a
    ensures SMinus(a, b) == a - b || SMinus(a, b) == a - b + TWO64 || SMinus(a, b) == a - b - TWO64
  {}
}
