/**
 Powers of two and cubes: the nonlinear facts the fixed-point code rests on, each
 stated once and proved in isolation.
 */
module Arith {

  function Pow2(n: nat): (p: nat)
    ensures p >= 1
  {
    if n == 0 then 1 else 2 * Pow2(n - 1)
  }

  function Cube(x: int): int {
    x * x * x
  }

  lemma {:induction false} Pow2Add(m: nat, n: nat)
    ensures Pow2(m + n) == Pow2(m) * Pow2(n)
    decreases n
  {
    if n > 0 {
      Pow2Add(m, n - 1);
      assert Pow2(m + n) == 2 * Pow2(m + (n - 1));
      assert Pow2(m) * Pow2(n) == 2 * (Pow2(m) * Pow2(n - 1));
    }
  }

  lemma Pow2Mono(m: nat, n: nat)
    requires m <= n
    ensures Pow2(m) <= Pow2(n)
  {
    Pow2Add(m, n - m);
    assert Pow2(m) * 1 <= Pow2(m) * Pow2(n - m);
  }

  lemma Pow2Triple(b: nat)
    ensures Pow2(3 * b) == Cube(Pow2(b))
  {
    Pow2Add(b, b);
    Pow2Add(2 * b, b);
  }

  lemma {:induction false} Pow2Values()
    ensures Pow2(2) == 4 && Pow2(4) == 16 && Pow2(6) == 64 && Pow2(8) == 0x100
    ensures Pow2(16) == 0x1_0000 && Pow2(32) == 0x1_0000_0000
    ensures Pow2(62) == 0x4000_0000_0000_0000 && Pow2(64) == 0x1_0000_0000_0000_0000
  {
    assert Pow2(1) == 2;
    assert Pow2(2) == 4;
    Pow2Add(2, 2);
    Pow2Add(4, 2);
    Pow2Add(4, 4);
    Pow2Add(8, 8);
    Pow2Add(16, 16);
    Pow2Add(32, 16);
    Pow2Add(48, 8);
    Pow2Add(56, 6);
    Pow2Add(62, 2);
  }

  lemma MulMonoLeft(x: nat, y: nat, z: nat)
    requires x <= y
    ensures x * z <= y * z
  {
  }

  lemma MulAssoc(x: int, y: int, z: int)
    ensures x * (y * z) == x * y * z
  {
  }

  lemma CubeMono(x: nat, y: nat)
    requires x <= y
    ensures Cube(x) <= Cube(y)
  {
    MulMonoLeft(x, y, x);
    MulMonoLeft(x, y, y);
    MulMonoLeft(x * x, y * y, x);
    MulMonoLeft(x, y, y * y);
  }

  lemma CubeMonoStrict(x: nat, y: nat)
    requires x < y
    ensures Cube(x) < Cube(y)
  {
    CubeMono(x + 1, y);
    CubeSucc(x);
  }

  lemma CubeSucc(x: nat)
    ensures Cube(x + 1) == Cube(x) + 3 * (x * x) + 3 * x + 1
    ensures Cube(x + 1) > Cube(x)
  {
  }

  lemma CubeScale(k: int, x: int)
    ensures Cube(k * x) == Cube(k) * Cube(x)
  {
    assert k * x * (k * x) == k * k * (x * x);
    assert k * k * (x * x) * (k * x) == k * k * k * (x * x * x);
  }

  /** The arithmetic-geometric mean of x, x and y, without roots. */
  lemma AmGm(x: nat, y: nat)
    ensures Cube(2 * x + y) >= 27 * (x * x * y)
  {
    assert Cube(2 * x + y) - 27 * (x * x * y) == (x - y) * (x - y) * (8 * x + y);
    SquareTimes(x - y, 8 * x + y);
  }

  lemma SquareTimes(d: int, n: nat)
    ensures d * d * n >= 0
  {
    assert d * d >= 0;
  }

  /** Cancels a positive factor. */
  lemma Cancel(x: int, y: int, k: nat)
    requires k > 0 && x * k <= y * k
    ensures x <= y
  {
    assert (x - y) * k == x * k - y * k;
    if y < x {
      MulMonoLeft(1, x - y, k);
    }
  }

  lemma FloorBounds(x: int, d: nat)
    requires d > 0
    ensures d * (x / d) <= x < d * (x / d) + d
  {
  }
}
