/**
 CUBIC's integer cube root: a table of 64 entries and one Newton-Raphson step.
 */
module CubicRoot {
  import opened Words
  import opened Arith

  /** Rows of eight; entry x is about cbrt(x << 18) - 1, refined by hand in the original. */
  const ROWS: seq<seq<u8>> := [
    [0, 54, 54, 54, 118, 118, 118, 118],
    [123, 129, 134, 138, 143, 147, 151, 156],
    [157, 161, 164, 168, 170, 173, 176, 179],
    [181, 185, 187, 190, 192, 194, 197, 199],
    [200, 202, 204, 206, 209, 211, 213, 215],
    [217, 219, 221, 222, 224, 225, 227, 229],
    [231, 232, 234, 236, 237, 239, 240, 242],
    [244, 245, 246, 248, 250, 251, 252, 254]]

  /** The table `v`. */
  function V(x: nat): nat
    requires x < 64
  {
    ROWS[x / 8][x % 8]
  }

  /**
   What `fls64` computes here: the bit length rounded up to an even number, because the
   last step of the usual search, by one bit, is commented out.
   */
  function EvenBitLength(x: nat): nat {
    if x == 0 then 0 else 2 + EvenBitLength(x / 4)
  }

  /** One Newton-Raphson step from `x`, in 32-bit arithmetic; 341 / 1024 stands for one third. */
  function Newton(a: u64, x: u32): u32 {
    var sum := U32(2 * x + U32(Div(a, U64(x * U32(x - 1)))));
    U32(sum * 341) / 1024
  }

  /** The exponent of the leading part of the root. */
  function Exponent(a: u64): u32 {
    U32(U32(EvenBitLength(a) * 84) / 256 - 1)
  }

  function Root(a: u64): u32 {
    if a < 64 then (V(a) + 35) / 64
    else
      var b := Exponent(a);
      var shift := U32(a / Pow2(b * 3));
      if shift >= 64 then 0
      else Newton(a, U32((V(shift) + 10) * Pow2(b)) / 64)
  }

  // ---------- fls64 ----------

  /** Between two even powers of two. */
  lemma {:induction false} EvenBitLengthBounds(x: nat)
    requires x > 0
    ensures var e := EvenBitLength(x);
            e >= 2 && e % 2 == 0 && Pow2(e - 2) <= x < Pow2(e)
  {
    if x < 4 {
      assert EvenBitLength(x / 4) == 0;
      Pow2Values();
      assert Pow2(0) == 1;
    } else {
      EvenBitLengthBounds(x / 4);
      Pow2Twice(EvenBitLength(x / 4));
      Pow2Twice(EvenBitLength(x / 4) - 2);
    }
  }

  lemma Pow2Twice(n: nat)
    ensures Pow2(n + 2) == 4 * Pow2(n)
  {
    assert Pow2(n + 2) == 2 * Pow2(n + 1);
  }

  /** No other even number lies between the same powers. */
  lemma EvenBitLengthUnique(x: nat, e: nat)
    requires x > 0 && e >= 2 && e % 2 == 0 && Pow2(e - 2) <= x < Pow2(e)
    ensures EvenBitLength(x) == e
  {
    EvenBitLengthBounds(x);
    var d := EvenBitLength(x);
    if d < e {
      Pow2Mono(d, e - 2);
    }
    if e < d {
      Pow2Mono(e, d - 2);
    }
  }

  lemma EvenBitLengthRange(x: u64, lo: nat)
    requires x >= Pow2(lo)
    ensures lo < EvenBitLength(x) <= 64
  {
    EvenBitLengthBounds(x);
    var e := EvenBitLength(x);
    if e <= lo {
      Pow2Mono(e, lo);
    }
    if e > 64 {
      Pow2Mono(64, e - 2);
      Pow2Values();
    }
  }

  /** Shifting by an even number of bits lengthens a number by as many bits. */
  lemma {:induction false} EvenBitLengthShift(x: nat, k: nat)
    requires x > 0 && k % 2 == 0
    ensures EvenBitLength(x * Pow2(k)) == EvenBitLength(x) + k
  {
    if k > 0 {
      EvenBitLengthShift(x, k - 2);
      Pow2Twice(k - 2);
      MulMonoLeft(1, x, Pow2(k - 2));
      EvenBitLengthTimes4(x * Pow2(k - 2));
      MulAssoc(x, Pow2(k - 2), 4);
    }
  }

  lemma EvenBitLengthTimes4(x: nat)
    requires x > 0
    ensures EvenBitLength(x * 4) == EvenBitLength(x) + 2
  {
  }

  /**
   One step of the search: if the `k` leading bits of `x` are all zero (`mask` is 2^(64-k)),
   shift them out and take them off the bit number.
   */
  method SkipZeros(x: u64, num: int, k: nat, p: nat, low: nat, mask: nat) returns (y: u64, n: int)
    requires k % 2 == 0 && p == Pow2(k) && 0 < low <= x && low * p == mask && mask * p == TWO64
    ensures EvenBitLength(y) + n == EvenBitLength(x) + num
    ensures y >= mask
  {
    y, n := x, num;
    if x < mask {
      n := num - k;
      y := ShiftOut(x, k, p, low, mask);
    }
  }

  method ShiftOut(x: u64, k: nat, p: nat, low: nat, mask: nat) returns (y: u64)
    requires k % 2 == 0 && p == Pow2(k) && 0 < low <= x < mask && low * p == mask && mask * p == TWO64
    ensures EvenBitLength(y) == EvenBitLength(x) + k && y >= mask
  {
    EvenBitLengthShift(x, k);
    ProductRange(x, p, low, mask);
    y := U64(x * p);
  }

  lemma ProductRange(x: nat, p: nat, low: nat, high: nat)
    requires low <= x < high
    ensures low * p <= x * p <= high * p - p
  {
    MulMonoLeft(low, x, p);
    MulMonoLeft(x + 1, high, p);
  }

  /** `fls64`: a binary search for the leading bit, by 32, 16, 8, 4 and 2 bits. */
  method Fls64(x0: u64) returns (r: u32)
    ensures r == EvenBitLength(x0)
  {
    if x0 == 0 {
      return 0;
    }
    Pow2Values();
    var x, num := x0, 63;
    x, num := SkipZeros(x, num, 32, 0x1_0000_0000, 1, 0x1_0000_0000);
    x, num := SkipZeros(x, num, 16, 0x1_0000, 0x1_0000_0000, 0x1_0000_0000_0000);
    x, num := SkipZeros(x, num, 8, 0x100, 0x1_0000_0000_0000, 0x100_0000_0000_0000);
    x, num := SkipZeros(x, num, 4, 0x10, 0x100_0000_0000_0000, 0x1000_0000_0000_0000);
    x, num := SkipZeros(x, num, 2, 4, 0x1000_0000_0000_0000, 0x4000_0000_0000_0000);
    assert EvenBitLength(x) == 64 by {
      EvenBitLengthUnique(x, 64);
    }
    EvenBitLengthRange(x0, 0);
    r := num + 1;
  }

  // ---------- the table ----------

  /** A guess `v`, in 64ths, for a leading part `s`: between cbrt(0.99 (s + 1)) and cbrt(2 s). */
  ghost predicate GoodGuess(s: nat, v: nat) {
    && 128 <= v <= 264
    && Cube(v) <= 524288 * s
    && 100 * Cube(v) >= 99 * 262144 * (s + 1)
    && (8 <= s < 32 ==> 100 * Cube(v / 32) >= 53 * (8 * s + 8))
  }

  lemma GoodGuesses(s: nat)
    requires 4 <= s < 64
    ensures GoodGuess(s, V(s) + 10)
  {
    if s < 32 {
      if s < 16 { GoodGuesses0(s); } else { GoodGuesses16(s); }
    } else {
      if s < 48 { GoodGuesses32(s); } else { GoodGuesses48(s); }
    }
  }

  lemma GoodGuesses0(s: nat)
    requires 4 <= s < 16
    ensures GoodGuess(s, V(s) + 10)
  {
    if
    case s == 4 => assert V(4) == 118 && GoodGuess(4, 128);
    case s == 5 => assert V(5) == 118 && GoodGuess(5, 128);
    case s == 6 => assert V(6) == 118 && GoodGuess(6, 128);
    case s == 7 => assert V(7) == 118 && GoodGuess(7, 128);
    case s == 8 => assert V(8) == 123 && GoodGuess(8, 133);
    case s == 9 => assert V(9) == 129 && GoodGuess(9, 139);
    case s == 10 => assert V(10) == 134 && GoodGuess(10, 144);
    case s == 11 => assert V(11) == 138 && GoodGuess(11, 148);
    case s == 12 => assert V(12) == 143 && GoodGuess(12, 153);
    case s == 13 => assert V(13) == 147 && GoodGuess(13, 157);
    case s == 14 => assert V(14) == 151 && GoodGuess(14, 161);
    case s == 15 => assert V(15) == 156 && GoodGuess(15, 166);
  }

  lemma GoodGuesses16(s: nat)
    requires 16 <= s < 32
    ensures GoodGuess(s, V(s) + 10)
  {
    if
    case s == 16 => assert V(16) == 157 && GoodGuess(16, 167);
    case s == 17 => assert V(17) == 161 && GoodGuess(17, 171);
    case s == 18 => assert V(18) == 164 && GoodGuess(18, 174);
    case s == 19 => assert V(19) == 168 && GoodGuess(19, 178);
    case s == 20 => assert V(20) == 170 && GoodGuess(20, 180);
    case s == 21 => assert V(21) == 173 && GoodGuess(21, 183);
    case s == 22 => assert V(22) == 176 && GoodGuess(22, 186);
    case s == 23 => assert V(23) == 179 && GoodGuess(23, 189);
    case s == 24 => assert V(24) == 181 && GoodGuess(24, 191);
    case s == 25 => assert V(25) == 185 && GoodGuess(25, 195);
    case s == 26 => assert V(26) == 187 && GoodGuess(26, 197);
    case s == 27 => assert V(27) == 190 && GoodGuess(27, 200);
    case s == 28 => assert V(28) == 192 && GoodGuess(28, 202);
    case s == 29 => assert V(29) == 194 && GoodGuess(29, 204);
    case s == 30 => assert V(30) == 197 && GoodGuess(30, 207);
    case s == 31 => assert V(31) == 199 && GoodGuess(31, 209);
  }

  lemma GoodGuesses32(s: nat)
    requires 32 <= s < 48
    ensures GoodGuess(s, V(s) + 10)
  {
    if
    case s == 32 => assert V(32) == 200 && GoodGuess(32, 210);
    case s == 33 => assert V(33) == 202 && GoodGuess(33, 212);
    case s == 34 => assert V(34) == 204 && GoodGuess(34, 214);
    case s == 35 => assert V(35) == 206 && GoodGuess(35, 216);
    case s == 36 => assert V(36) == 209 && GoodGuess(36, 219);
    case s == 37 => assert V(37) == 211 && GoodGuess(37, 221);
    case s == 38 => assert V(38) == 213 && GoodGuess(38, 223);
    case s == 39 => assert V(39) == 215 && GoodGuess(39, 225);
    case s == 40 => assert V(40) == 217 && GoodGuess(40, 227);
    case s == 41 => assert V(41) == 219 && GoodGuess(41, 229);
    case s == 42 => assert V(42) == 221 && GoodGuess(42, 231);
    case s == 43 => assert V(43) == 222 && GoodGuess(43, 232);
    case s == 44 => assert V(44) == 224 && GoodGuess(44, 234);
    case s == 45 => assert V(45) == 225 && GoodGuess(45, 235);
    case s == 46 => assert V(46) == 227 && GoodGuess(46, 237);
    case s == 47 => assert V(47) == 229 && GoodGuess(47, 239);
  }

  lemma GoodGuesses48(s: nat)
    requires 48 <= s < 64
    ensures GoodGuess(s, V(s) + 10)
  {
    if
    case s == 48 => assert V(48) == 231 && GoodGuess(48, 241);
    case s == 49 => assert V(49) == 232 && GoodGuess(49, 242);
    case s == 50 => assert V(50) == 234 && GoodGuess(50, 244);
    case s == 51 => assert V(51) == 236 && GoodGuess(51, 246);
    case s == 52 => assert V(52) == 237 && GoodGuess(52, 247);
    case s == 53 => assert V(53) == 239 && GoodGuess(53, 249);
    case s == 54 => assert V(54) == 240 && GoodGuess(54, 250);
    case s == 55 => assert V(55) == 242 && GoodGuess(55, 252);
    case s == 56 => assert V(56) == 244 && GoodGuess(56, 254);
    case s == 57 => assert V(57) == 245 && GoodGuess(57, 255);
    case s == 58 => assert V(58) == 246 && GoodGuess(58, 256);
    case s == 59 => assert V(59) == 248 && GoodGuess(59, 258);
    case s == 60 => assert V(60) == 250 && GoodGuess(60, 260);
    case s == 61 => assert V(61) == 251 && GoodGuess(61, 261);
    case s == 62 => assert V(62) == 252 && GoodGuess(62, 262);
    case s == 63 => assert V(63) == 254 && GoodGuess(63, 264);
  }

  /** The leading part always indexes the upper part of the table, so the guard `shift >= 64` never fires. */
  lemma LeadingPart(a: u64)
    requires a >= 64
    ensures var b := Exponent(a);
            && 1 <= b <= 20
            && 4 <= a / Pow2(b * 3) < 64
            && (b == 1 ==> 8 <= a / Pow2(b * 3) < 32)
  {
    Pow2Values();
    EvenBitLengthBounds(a);
    EvenBitLengthRange(a, 6);
    var e, b := EvenBitLength(a), Exponent(a);
    ExponentRange(e, b);
    PowerRange(a, e, b);
    QuotientRange(a, Pow2(b * 3), 4, 64);
    if b == 1 {
      assert Pow2(3) == 8;
      QuotientRange(a, Pow2(3), 8, 32);
    }
  }

  lemma PowerRange(a: nat, e: nat, b: nat)
    requires 3 * b + 4 <= e <= 3 * b + 6 && Pow2(e - 2) <= a < Pow2(e)
    ensures 4 * Pow2(b * 3) <= a < 64 * Pow2(b * 3)
  {
    Pow2Values();
    Pow2Mono(3 * b + 2, e - 2);
    Pow2Mono(e, 3 * b + 6);
    Pow2Add(3 * b, 2);
    Pow2Add(3 * b, 6);
  }

  lemma ExponentRange(e: nat, b: int)
    requires e % 2 == 0 && 8 <= e <= 64 && b == e * 84 / 256 - 1
    ensures 1 <= b <= 20 && 3 * b + 4 <= e <= 3 * b + 6 && (b == 1 ==> e == 8)
  {
  }

  lemma QuotientRange(a: nat, p: nat, lo: nat, hi: nat)
    requires p > 0 && lo * p <= a < hi * p
    ensures lo <= a / p < hi
  {
    FloorBounds(a, p);
    if a / p < lo {
      MulMonoLeft(a / p + 1, lo, p);
    }
    if a / p >= hi {
      MulMonoLeft(hi, a / p, p);
    }
  }

  // ---------- the guess ----------

  /** The first approximation that `Root` hands to the Newton step. */
  ghost predicate GoodStart(a: nat, x: nat) {
    x >= 4 && Cube(x) <= 2 * a && 53 * a <= 100 * Cube(x)
  }

  /** 2^b times a good guess for the leading part is a good start for the whole number. */
  lemma ScaledGuess(a: nat, s: nat, v: nat, p: nat, x: nat)
    requires 4 <= s < 64 && GoodGuess(s, v) && x == v * p / 64
    requires s * Cube(p) <= a < (s + 1) * Cube(p)
    requires p >= 4 || (p == 2 && 8 <= s < 32)
    ensures GoodStart(a, x)
  {
    FloorBounds(v * p, 64);
    StartNotHigh(a, s, v, p, x);
    if p == 2 {
      assert x == v / 32;
      assert Cube(2) == 8;
    } else {
      MulMonoLeft(128, v, p);
      StartNotLow(a, s, v, p, x);
    }
  }

  lemma StartNotHigh(a: nat, s: nat, v: nat, p: nat, x: nat)
    requires Cube(v) <= 524288 * s && s * Cube(p) <= a && 64 * x <= v * p
    ensures Cube(x) <= 2 * a
  {
    CubeMono(64 * x, v * p);
    CubeScale(64, x);
    CubeScale(v, p);
    MulMonoLeft(Cube(v), 524288 * s, Cube(p));
    MulAssoc(524288, s, Cube(p));
    assert Cube(64) == 262144;
  }

  lemma StartNotLow(a: nat, s: nat, v: nat, p: nat, x: nat)
    requires 100 * Cube(v) >= 25952256 * (s + 1) && a < (s + 1) * Cube(p) && v * p < 64 * (x + 1) && x >= 8
    ensures 53 * a <= 100 * Cube(x)
  {
    CubeMonoStrict(v * p, 64 * (x + 1));
    CubeScale(64, x + 1);
    CubeScale(v, p);
    assert Cube(64) == 262144;
    MulMonoLeft(25952256 * (s + 1), 100 * Cube(v), Cube(p));
    MulAssoc(25952256, s + 1, Cube(p));
    MulAssoc(100, Cube(v), Cube(p));
    assert 100 * Cube(x + 1) >= 99 * a;
    CubeMono(8 * (x + 1), 9 * x);
    CubeScale(8, x + 1);
    CubeScale(9, x);
    assert Cube(8) == 512 && Cube(9) == 729;
  }

  lemma CubeOfSum(c: int, a: int)
    ensures Cube(2 * c + a) == 8 * Cube(c) + 12 * (c * c * a) + 6 * (a * a * c) + Cube(a)
  {
    var s := 2 * c + a;
    var cc, ac, aa := c * c, a * c, a * a;
    assert s * s == 4 * cc + 4 * ac + aa;
    assert cc * a == c * ac && ac * a == aa * c && ac * c == cc * a;
    assert s * s * s == (4 * cc + 4 * ac + aa) * (2 * c + a);
    assert (4 * cc + 4 * ac + aa) * (2 * c + a)
        == 8 * (cc * c) + 4 * (cc * a) + 8 * (ac * c) + 4 * (ac * a) + 2 * (aa * c) + aa * a;
  }

  /** The factor 64000 c^2 - 26047 ac - 4094 a^2. */
  function Quadratic(a: int, c: int): int {
    64000 * (c * c) - 26047 * (a * c) - 4094 * (a * a)
  }

  lemma QuadraticNotNegative(a: nat, c: nat)
    requires 53 * a <= 100 * c
    ensures Quadratic(a, c) >= 0
  {
    ProductOrder(a, c, c);
    ProductOrder(a, c, a);
    MulMonoLeft(0, a, c);
  }

  lemma ProductOrder(a: nat, c: nat, z: nat)
    requires 53 * a <= 100 * c
    ensures 53 * (a * z) <= 100 * (c * z)
  {
    MulMonoLeft(53 * a, 100 * c, z);
    MulAssoc(53, a, z);
    MulAssoc(100, c, z);
  }

  lemma ExpandProduct(a: int, c: int)
    ensures (2 * a - c) * Quadratic(a, c)
            == 154047 * (c * c * a) - 48000 * (a * a * c) - 8188 * (a * a * a) - 64000 * (c * c * c)
  {
    var cc, ac, aa := c * c, a * c, a * a;
    assert (2 * a - c) * Quadratic(a, c) == 2 * (a * Quadratic(a, c)) - c * Quadratic(a, c);
    assert a * Quadratic(a, c) == 64000 * (cc * a) - 26047 * (ac * a) - 4094 * (aa * a);
    assert c * Quadratic(a, c) == 64000 * (cc * c) - 26047 * (ac * c) - 4094 * (aa * c);
    assert cc * a == ac * c && ac * a == aa * c;
  }

  /** 8000 (2c + a)^3 stays below 63^3 a c^2 as long as c lies between 0.53 a and 2 a, because of this difference. */
  lemma Polynomial(a: int, c: int)
    ensures 250047 * (c * c * a) - 8000 * Cube(2 * c + a) == (2 * a - c) * Quadratic(a, c) + 188 * (a * a * a)
  {
    CubeOfSum(c, a);
    ExpandProduct(a, c);
  }

  /** The exact sum 2x + floor(a / (x(x-1))) of the Newton step. */
  function NewtonSum(a: nat, x: nat): nat
    requires x >= 2
  {
    2 * x + Div(a, x * (x - 1))
  }

  /** Never below three times the root: the mean of x, x and a/x^2. */
  lemma NewtonNotLow(a: nat, x: nat)
    requires x >= 2
    ensures 27 * a < Cube(NewtonSum(a, x) + 1)
  {
    var d := x * (x - 1);
    var q := Div(a, d);
    MulMonoLeft(1, x - 1, x);
    DivRem(a, d);
    assert a < d * (q + 1);
    MulMonoLeft(d, x * x, q + 1);
    AmGm(x, q + 1);
  }

  lemma QuotientNotHigh(a: nat, x: nat, q: nat)
    requires GoodStart(a, x) && q * (x * (x - 1)) <= a
    ensures q <= 3 * x
    ensures (q - 3) * (x * x) <= a
  {
    var d := x * (x - 1);
    var xx := x * x;
    assert d == xx - x;
    assert Cube(x) == xx * x && xx * x >= 4 * xx by {
      MulMonoLeft(4, x, xx);
    }
    assert 3 * x * d == 3 * (xx * x) - 3 * xx by {
      MulAssoc(3, x, d);
      assert x * (xx - x) == xx * x - xx;
    }
    MulMonoLeft(0, x - 1, x);
    if q > 3 * x {
      MulMonoLeft(3 * x, q, d);
    }
    MulMonoLeft(q, 3 * x, x);
    assert q * (xx - x) == q * xx - q * x;
    MulAssoc(3, x, x);
  }

  /** Never far above three times the root, from a good start. */
  lemma NewtonNotHigh(a: nat, x: nat)
    requires GoodStart(a, x)
    ensures Cube(20 * (NewtonSum(a, x) - 3)) <= 250047 * a
  {
    var d := x * (x - 1);
    MulMonoLeft(1, x - 1, x);
    DivRem(a, d);
    var q := Div(a, d);
    QuotientNotHigh(a, x, q);
    SumTimesSquare(x, q);
    CubeOfQuotient(a, x, 2 * x + q - 3);
  }

  lemma SumTimesSquare(x: nat, q: int)
    ensures (2 * x + q - 3) * (x * x) == 2 * Cube(x) + (q - 3) * (x * x)
  {
    assert 2 * x * (x * x) == 2 * Cube(x);
  }

  lemma CubeOfQuotient(a: nat, x: nat, z: nat)
    requires GoodStart(a, x) && z * (x * x) <= 2 * Cube(x) + a
    ensures Cube(20 * z) <= 250047 * a
  {
    var xx, c := x * x, Cube(x);
    CubeMono(z * xx, 2 * c + a);
    Polynomial(a, c);
    QuadraticNotNegative(a, c);
    MulMonoLeft(0, 2 * a - c, Quadratic(a, c));
    MulMonoLeft(0, a * a, a);
    CubeScale(z, xx);
    CubeScale(20, z);
    assert 8000 * (Cube(z) * Cube(xx)) <= 250047 * (c * c * a);
    SquareOfCube(x);
    CancelScaled(8000 * Cube(z), 250047 * a, c * c);
    assert 8000 * Cube(z) * (c * c) == 8000 * (Cube(z) * (c * c));
    assert 250047 * a * (c * c) == 250047 * (c * c * a);
    assert Cube(20) == 8000;
  }

  lemma SquareOfCube(x: nat)
    requires x > 0
    ensures Cube(x * x) == Cube(x) * Cube(x) > 0
  {
    assert Cube(x) == x * x * x;
    MulAssoc(x * x, x * x, x * x);
    MulAssoc(x * x * x, x, x * x);
    MulMonoLeft(1, x, x);
    MulMonoLeft(1, x * x, x);
    MulMonoLeft(1, Cube(x), Cube(x));
  }

  lemma CancelScaled(x: int, y: int, k: nat)
    requires k > 0
    ensures x * k <= y * k ==> x <= y
  {
    if x * k <= y * k {
      Cancel(x, y, k);
    }
  }

  // ---------- the root ----------

  /** `Root` on a large argument, freed of every 32-bit and 64-bit reduction. */
  ghost predicate ExactSteps(a: u64, x: nat) {
    && GoodStart(a, x) && x < TWO32
    && x * (x - 1) < TWO64
    && NewtonSum(a, x) * 341 < TWO32
    && Root(a) == NewtonSum(a, x) * 341 / 1024
  }

  /**
   For every 64-bit argument of at least 64 the guard never fires, the divisor of the
   Newton step is positive, and no 32-bit or 64-bit step wraps.
   */
  lemma NoWrap(a: u64) returns (x: nat)
    requires a >= 64
    ensures ExactSteps(a, x)
  {
    x := Start(a);
    StartRange(a, x);
    NewtonSumRange(a, x);
    assert U64(x * U32(x - 1)) == x * (x - 1);
  }

  /** What the table look-up hands to the Newton step is a good start. */
  lemma Start(a: u64) returns (x: nat)
    requires a >= 64
    ensures GoodStart(a, x) && x < TWO32 && Root(a) == Newton(a, x)
  {
    LeadingPart(a);
    var b := Exponent(a);
    var p, s := Pow2(b), a / Pow2(b * 3);
    PowerOfTwoOrMore(b);
    x := StartFrom(a, b, p, s);
    assert Root(a) == Newton(a, U32((V(s) + 10) * p) / 64);
  }

  lemma StartFrom(a: nat, b: nat, p: nat, s: nat) returns (x: nat)
    requires p == Pow2(b) && s == a / Pow2(b * 3) && 4 <= s < 64
    requires 4 <= p <= 0x10_0000 || (p == 2 && 8 <= s < 32)
    ensures (V(s) + 10) * p < TWO32 && x == (V(s) + 10) * p / 64 && x < TWO32
    ensures GoodStart(a, x)
  {
    var v := V(s) + 10;
    GoodGuesses(s);
    x := v * p / 64;
    GuessTimesPower(s, v, p);
    assert s * Cube(p) <= a < (s + 1) * Cube(p) by {
      Pow2Triple(b);
      FloorBounds(a, Cube(p));
    }
    ScaledGuess(a, s, v, p, x);
  }

  lemma GuessTimesPower(s: nat, v: nat, p: nat)
    requires GoodGuess(s, v) && p <= 0x10_0000
    ensures v * p < TWO32
  {
    MulMonoLeft(v, 264, p);
  }

  lemma PowerOfTwoOrMore(b: nat)
    requires 1 <= b <= 20
    ensures if b == 1 then Pow2(b) == 2 else 4 <= Pow2(b) <= 0x10_0000
  {
    Pow2Values();
    if b > 1 {
      Pow2Mono(2, b);
    }
    Pow2Mono(b, 20);
    Pow2Add(16, 4);
  }

  lemma StartRange(a: u64, x: nat)
    requires GoodStart(a, x)
    ensures x < 0x100_0000 && 0 < x * (x - 1) < TWO64
  {
    if x >= 0x100_0000 {
      CubeMono(0x100_0000, x);
    }
    MulMonoLeft(x, 0x100_0000, x - 1);
    MulMonoLeft(1, x - 1, x);
  }

  lemma NewtonSumRange(a: u64, x: nat)
    requires GoodStart(a, x)
    ensures NewtonSum(a, x) < 12_000_003
  {
    NewtonNotHigh(a, x);
    if NewtonSum(a, x) >= 12_000_003 {
      CubeMono(240_000_000, 20 * (NewtonSum(a, x) - 3));
    }
  }

  lemma ScaledMean(a: nat, y: nat)
    requires 27 * a < Cube(y)
    ensures Cube(1023) * a < Cube(341 * y)
  {
    CubeScale(341, y);
    CubeScale(3, 341);
    assert Cube(341) == 39651821 && Cube(1023) == 1070599167;
  }

  lemma ThirdNotLow(a: nat, y: nat, r: nat)
    requires 27 * a < Cube(y + 1) && r == y * 341 / 1024
    ensures Cube(1023) * a < Cube(1024 * (r + 2))
  {
    ScaledMean(a, y + 1);
    CubeMono(341 * (y + 1), 1024 * (r + 2));
  }

  /** Not more than two below 1023/1024 of the real root. */
  lemma RootNotLow(a: u64)
    ensures Cube(1023) * a < Cube(1024 * (Root(a) + 2))
  {
    if a < 64 {
      SmallRoots(a);
    } else {
      var x := NoWrap(a);
      var y, r := NewtonSum(a, x), Root(a);
      NewtonNotLow(a, x);
      ThirdNotLow(a, y, r);
    }
  }

  /** Not more than one above 21/20 of the real root. */
  lemma RootNotHigh(a: u64)
    ensures Root(a) >= 1 ==> Cube(20 * (Root(a) - 1)) <= Cube(21) * a
  {
    if a < 64 {
      SmallRoots(a);
    } else if Root(a) >= 1 {
      var x := NoWrap(a);
      var y, r := NewtonSum(a, x), Root(a);
      NewtonNotHigh(a, x);
      assert 3 * (r - 1) <= y - 3;
      CubeMono(20 * (3 * (r - 1)), 20 * (y - 3));
      CubeScale(3, 20 * (r - 1));
      assert Cube(3) == 27 && Cube(21) == 9261;
    }
  }

  /** Below 64 the table is the answer: floor(cbrt(a) + 0.54), by steps. */
  lemma SmallRoots(a: nat)
    requires a < 64
    ensures Root(a) == if a < 1 then 0 else if a < 4 then 1 else if a < 16 then 2 else if a < 42 then 3 else 4
    ensures Cube(1023) * a < Cube(1024 * (Root(a) + 2))
    ensures Root(a) >= 1 ==> Cube(20 * (Root(a) - 1)) <= Cube(21) * a
  {
    assert Cube(1023) == 1070599167 && Cube(21) == 9261;
    assert Cube(1024 * 2) == 8589934592 && Cube(1024 * 3) == 28991029248 && Cube(1024 * 4) == 68719476736;
    assert Cube(1024 * 5) == 134217728000 && Cube(1024 * 6) == 231928233984;
    assert Cube(20 * 0) == 0 && Cube(20 * 1) == 8000 && Cube(20 * 2) == 64000 && Cube(20 * 3) == 216000;
  }

  /** `r` is the cube root of `a` up to 1/1024 and two units below, and 1/20 and one unit above. */
  ghost predicate ApproximatesRoot(a: nat, r: nat) {
    && Cube(1023) * a < Cube(1024 * (r + 2))
    && (r >= 1 ==> Cube(20 * (r - 1)) <= Cube(21) * a)
  }

  lemma RootApproximates(a: u64)
    ensures ApproximatesRoot(a, Root(a))
  {
    RootNotLow(a);
    RootNotHigh(a);
  }

  /** The computation as the original performs it, on reassigned locals. */
  method CubicRoot(a: u64) returns (x: u32)
    ensures x == Root(a) && ApproximatesRoot(a, x)
  {
    x := Stepwise(a);
    RootApproximates(a);
  }

  method Stepwise(a: u64) returns (x: u32)
    ensures x == Root(a)
  {
    if a < 64 {
      return (V(a) + 35) / 64;
    }
    var b: int := Fls64(a);
    b := U32(U32(b * 84) / 256 - 1);
    assert b == Exponent(a);
    var shift := U32(a / Pow2(b * 3));
    if shift >= 64 {
      return 0;
    }
    x := U32((V(shift) + 10) * Pow2(b)) / 64;
    x := NewtonStep(a, x);
  }

  method NewtonStep(a: u64, x0: u32) returns (x: u32)
    ensures x == Newton(a, x0)
  {
    x := U32(2 * x0 + U32(Div(a, U64(x0 * U32(x0 - 1)))));
    x := U32(x * 341) / 1024;
  }
}
