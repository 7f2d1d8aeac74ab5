/**
 Fixed-width machine arithmetic, as the C sources use it: unsigned values wrap,
 a cast to a signed type reinterprets the top bit, and a division whose divisor is zero
 gives zero (RFC 9669, section 4.1, for programs that run as eBPF).
 */
module Words {

  const TWO16 := 0x1_0000
  const TWO20 := 0x10_0000
  const TWO24 := 0x100_0000
  const TWO31 := 0x8000_0000
  const TWO32 := 0x1_0000_0000
  const TWO40 := 0x100_0000_0000
  const TWO64 := 0x1_0000_0000_0000_0000

  type u8 = x: int | 0 <= x < 0x100
  type u16 = x: int | 0 <= x < TWO16
  type u32 = x: int | 0 <= x < TWO32
  type u64 = x: int | 0 <= x < TWO64
  type s32 = x: int | -TWO31 <= x < TWO31

  /** The 32-bit unsigned value of an expression whose exact value is `x`. */
  function U32(x: int): u32 {
    if 0 <= x < TWO32 then x else x % TWO32
  }

  /** The 64-bit unsigned value of an expression whose exact value is `x`. */
  function U64(x: int): u64 {
    if 0 <= x < TWO64 then x else x % TWO64
  }

  /** The 16-bit unsigned value of an expression whose exact value is `x`. */
  function U16(x: int): u16 {
    if 0 <= x < TWO16 then x else x % TWO16
  }

  /** The value stored by an unsigned bit-field that holds `width` values. */
  function Bits(x: int, width: int): (r: nat)
    requires width > 0
  {
    if 0 <= x < width then x else x % width
  }

  /** The signed 32-bit reading of `x`. */
  function S32(x: int): s32 {
    var u := U32(x);
    if u < TWO31 then u else u - TWO32
  }

  /**
   Unsigned division with the eBPF result for a zero divisor. It is written as repeated
   subtraction so that proofs see no nonlinear term until `DivRem` is called for one.
   */
  function Div(x: nat, y: nat): (q: nat)
    ensures q <= x
  {
    if y == 0 || x < y then 0 else 1 + Div(x - y, y)
  }

  /** What the division leaves: all of `x` when the divisor is zero. */
  function Rem(x: nat, y: nat): (r: nat)
    ensures r <= x
  {
    if y == 0 || x < y then x else Rem(x - y, y)
  }

  lemma {:induction false} DivRem(x: nat, y: nat)
    ensures x == Div(x, y) * y + Rem(x, y)
    ensures y > 0 ==> Rem(x, y) < y
    decreases x
  {
    if y > 0 && x >= y {
      DivRem(x - y, y);
      assert Div(x, y) * y == Div(x - y, y) * y + y;
    }
  }

  /** Taking the quotient's share off in 32-bit arithmetic leaves the remainder. */
  lemma TakeShare(x: u32, y: nat)
    ensures U32(x - Div(x, y) * y) == Rem(x, y)
  {
    DivRem(x, y);
  }

  lemma MulMono(n: nat, x: int, y: int)
    requires x <= y
    ensures n * x <= n * y
  {
  }

  /** For a positive divisor these are the usual quotient and remainder. */
  lemma DivIsQuotient(x: nat, y: nat)
    requires y > 0
    ensures Div(x, y) == x / y && Rem(x, y) == x % y
  {
    DivRem(x, y);
    QuotientAtMost(y, Div(x, y), Rem(x, y), x / y, x % y);
    QuotientAtMost(y, x / y, x % y, Div(x, y), Rem(x, y));
  }

  /** Of two ways to write a number as quotient and remainder, neither quotient is the larger. */
  lemma QuotientAtMost(y: nat, q: nat, r: nat, q': nat, r': nat)
    requires r < y && q * y + r >= q' * y + r'
    ensures q' <= q
  {
    assert y * (q + 1) == q * y + y;
    if q < q' {
      MulMono(y, q + 1, q');
    }
  }

  /** `seq1` precedes `seq2` in sequence space. */
  predicate Before(seq1: u32, seq2: u32) {
    S32(seq1 - seq2) < 0
  }

  predicate After(seq2: u32, seq1: u32) {
    Before(seq1, seq2)
  }

  function Min(x: int, y: int): int {
    if x < y then x else y
  }

  function Max(x: int, y: int): int {
    if x > y then x else y
  }
}
