/**
 CUBIC's window curve W(t) = C (t - K)^3 + W_max and K = cbrt(W_max (1 - beta) / C) (section 4.1 of
 RFC 8312), in 64-bit fixed point with times in units of 1/1024 second.
 */
module CubicCurve {
  import opened Words
  import opened Arith
  import opened CubicRoot

  const CUBE_RTT_SCALE := 410
  const CUBE_FACTOR := 2681735677  // 2^40 / 410, rounded down

  /** Windows the code was designed for, and the longest epoch whose cube fits 64 bits. */
  const WINDOW_LIMIT := 1_000_000
  const OFFSET_LIMIT := 355_600
  const TIME_LIMIT := 340 * 1024

  /** C * offs^3, exactly. */
  function Curve(offs: nat): nat {
    CUBE_RTT_SCALE * Cube(offs) / TWO40
  }

  /** The same as the code computes it. */
  function CurveDelta(offs: u64): u32 {
    U32(U64(CUBE_RTT_SCALE * Cube(offs)) / TWO40)
  }

  /** The time at which the curve is back at `lastMax`, for an epoch that starts at `cwnd`. */
  function TimeToOrigin(lastMax: u32, cwnd: u32): u32 {
    Root(U64(CUBE_FACTOR * U32(lastMax - cwnd)))
  }

  /** The window the curve asks for at time `t`. */
  function Target(origin: u32, k: u32, t: u64): u32 {
    if t < k then U32(origin - CurveDelta(k - t)) else U32(origin + CurveDelta(t - k))
  }

  // ---------- no overflow ----------

  lemma CurveMono(x: nat, y: nat)
    requires x <= y
    ensures Curve(x) <= Curve(y)
  {
    CubeMono(x, y);
  }

  lemma CurveFits(offs: nat)
    requires offs <= OFFSET_LIMIT
    ensures CUBE_RTT_SCALE * Cube(offs) < TWO64
    ensures CurveDelta(offs) == Curve(offs) < TWO24
  {
    CubeMono(offs, OFFSET_LIMIT);
    assert Cube(OFFSET_LIMIT) == 44966103616000000;
  }

  /** The distance to the origin, for any two 32-bit windows, never overflows 64 bits. */
  lemma ScaledDistanceFits(lastMax: u32, cwnd: u32)
    ensures CUBE_FACTOR * U32(lastMax - cwnd) < TWO64
  {
  }

  /** For windows below one million the origin is reached in less than 143 seconds. */
  lemma TimeToOriginLimit(lastMax: u32, cwnd: u32)
    requires cwnd <= lastMax < WINDOW_LIMIT
    ensures TimeToOrigin(lastMax, cwnd) <= 145_900
  {
    var a, k := CUBE_FACTOR * (lastMax - cwnd), TimeToOrigin(lastMax, cwnd);
    RootNotHigh(a);
    if k > 145_900 {
      CubeMono(20 * 145_900, 20 * (k - 1));
    }
  }

  // ---------- cubing undoes the root ----------

  /** The root of a positive distance is large, which makes its two units of error small. */
  lemma RootIsLarge(d: nat, k: nat)
    requires d >= 1 && Cube(1023) * (CUBE_FACTOR * d) < Cube(1024 * (k + 2))
    ensures k >= 1386
  {
    if k < 1386 {
      CubeMono(1024 * (k + 2), 1024 * 1387);
    }
  }

  lemma CubeNotLow(d: nat, k: nat)
    requires d >= 1 && Cube(1023) * (CUBE_FACTOR * d) < Cube(1024 * (k + 2))
    ensures 100 * (CUBE_RTT_SCALE * Cube(k)) >= 99 * (TWO40 * d)
  {
    RootIsLarge(d, k);
    CubeMono(650 * (k + 2), 651 * k);
    CubeScale(650, k + 2);
    CubeScale(651, k);
    CubeScale(1024, k + 2);
    assert Cube(650) == 274625000 && Cube(651) == 275894451;
    assert Cube(1024) == 1073741824 && Cube(1023) == 1070599167;
  }

  lemma CubeNotHigh(d: nat, k: nat)
    requires k >= 1386 && Cube(20 * (k - 1)) <= Cube(21) * (CUBE_FACTOR * d)
    ensures 10000 * (CUBE_RTT_SCALE * Cube(k)) <= 11603 * (TWO40 * d)
  {
    CubeMono(1385 * k, 1386 * (k - 1));
    CubeScale(1385, k);
    CubeScale(1386, k - 1);
    CubeScale(20, k - 1);
    assert Cube(1385) == 2656741625 && Cube(1386) == 2662500456;
    assert Cube(20) == 8000 && Cube(21) == 9261;
  }

  /**
   Cube root and cubing undo each other to within -1% and +16.03%: at the start of an
   epoch the curve stands at about the current window.
   */
  lemma CurveInvertsRoot(lastMax: u32, cwnd: u32)
    requires cwnd < lastMax
    ensures var d, at0 := lastMax - cwnd, Curve(TimeToOrigin(lastMax, cwnd));
            99 * d - 100 < 100 * at0 && 10000 * at0 <= 11603 * d
  {
    var d, k := lastMax - cwnd, TimeToOrigin(lastMax, cwnd);
    RootNotLow(CUBE_FACTOR * d);
    RootNotHigh(CUBE_FACTOR * d);
    RootIsLarge(d, k);
    CubeNotLow(d, k);
    CubeNotHigh(d, k);
    FloorBounds(CUBE_RTT_SCALE * Cube(k), TWO40);
  }

  // ---------- the target window ----------

  /**
   A restart at no less than a seventh of the old maximum keeps the whole concave phase
   above zero: the subtraction from the origin never wraps, and the first target is at most
   a little more than the distance from the old maximum away from the current window.
   */
  lemma ConcavePhaseNoWrap(lastMax: u32, cwnd: u32, t: u64)
    requires cwnd < lastMax < WINDOW_LIMIT && lastMax <= 7 * cwnd
    requires t < TimeToOrigin(lastMax, cwnd)
    ensures var k := TimeToOrigin(lastMax, cwnd);
            && CurveDelta(k - t) == Curve(k - t) <= lastMax
            && Target(lastMax, k, t) == lastMax - Curve(k - t)
            && 10000 * (cwnd - Target(lastMax, k, t)) <= 1603 * (lastMax - cwnd)
  {
    var k := TimeToOrigin(lastMax, cwnd);
    TimeToOriginLimit(lastMax, cwnd);
    CurveInvertsRoot(lastMax, cwnd);
    CurveMono(k - t, k);
    CurveFits(k - t);
  }

  /** At no time before the origin does the subtraction wrap. */
  ghost predicate NeverWraps(lastMax: u32, k: u32) {
    forall t: u64 :: t < k ==> Target(lastMax, k, t) == lastMax - Curve(k - t)
  }

  /** Exactly when that is so: the curve at the start of the epoch does not exceed the old maximum. */
  lemma ConcaveWrapsIff(lastMax: u32, cwnd: u32)
    requires cwnd < lastMax < WINDOW_LIMIT
    ensures var k := TimeToOrigin(lastMax, cwnd);
            NeverWraps(lastMax, k) <==> Curve(k) <= lastMax
  {
    var k := TimeToOrigin(lastMax, cwnd);
    TimeToOriginLimit(lastMax, cwnd);
    RootNotLow(CUBE_FACTOR * (lastMax - cwnd));
    RootIsLarge(lastMax - cwnd, k);
    assert 0 <= Target(lastMax, k, 0);
    if Curve(k) <= lastMax {
      forall t: u64 | t < k ensures Target(lastMax, k, t) == lastMax - Curve(k - t) {
        CurveMono(k - t, k);
        CurveFits(k - t);
      }
    }
  }

  /** The value that `Ssthresh` gives after a loss keeps that proportion. */
  lemma RestartKeepsProportion(cwndAtLoss: u32)
    requires cwndAtLoss < WINDOW_LIMIT
    ensures var restart := Max(cwndAtLoss * 717 / 1024, 2);
            cwndAtLoss <= 7 * restart && cwndAtLoss * 1741 / 2048 <= 7 * restart
  {
  }

  /**
   Seven is the best whole factor: an epoch that starts at 64661 packets after a maximum of 484502,
   a factor below eight, asks at once for a window of almost 2^32.
   */
  lemma EightIsTooMuch(lastMax: u32, cwnd: u32)
    requires lastMax == 484502 && cwnd == 64661
    ensures lastMax <= 8 * cwnd
    ensures var k := TimeToOrigin(lastMax, cwnd);
            Curve(k) == lastMax + 1 && Target(lastMax, k, 0) == TWO32 - 1
  {
    var a := CUBE_FACTOR * (lastMax - cwnd);
    WitnessExponent(a);
    WitnessRoot(a);
    var k := TimeToOrigin(lastMax, cwnd);
    assert Cube(109120) == 1299310870528000;
    assert Cube(k) == 1299310870528000;
  }

  lemma WitnessExponent(a: u64)
    requires a == 1125902588367357
    ensures Exponent(a) == 16
  {
    Pow2Values();
    Pow2Add(32, 16);
    Pow2Add(48, 2);
    Pow2Add(48, 4);
    EvenBitLengthUnique(a, 52);
  }

  lemma WitnessRoot(a: u64)
    requires a == 1125902588367357 && Exponent(a) == 16
    ensures Root(a) == 109120
  {
    Pow2Values();
    Pow2Add(32, 16);
    var b := Exponent(a);
    assert Pow2(b * 3) == 0x1_0000_0000_0000 && Pow2(b) == 0x1_0000;
    assert a / Pow2(b * 3) == 4 && V(4) == 118;
    var x: u32 := U32((V(4) + 10) * Pow2(b)) / 64;
    assert x == 131072;
    assert Root(a) == Newton(a, x);
    DivIsQuotient(a, x * (x - 1));
    assert x * (x - 1) == 17179738112;
    assert U32(2 * x + U32(Div(a, U64(x * U32(x - 1))))) == 327680;
  }

  /** After the origin nothing is subtracted; the sum stays far below 2^32. */
  lemma ConvexPhaseNoWrap(origin: u32, k: u32, t: u64)
    requires origin < WINDOW_LIMIT && k <= t <= TIME_LIMIT
    ensures CurveDelta(t - k) == Curve(t - k)
    ensures Target(origin, k, t) == origin + Curve(t - k)
  {
    CurveFits(t - k);
  }

  /** Both phases, as one signed curve. */
  lemma TargetIsCurve(lastMax: u32, cwnd: u32, t: u64)
    requires cwnd < lastMax < WINDOW_LIMIT && lastMax <= 7 * cwnd && t <= TIME_LIMIT
    ensures var k := TimeToOrigin(lastMax, cwnd);
            Target(lastMax, k, t) == if t < k then lastMax - Curve(k - t) else lastMax + Curve(t - k)
  {
    if t < TimeToOrigin(lastMax, cwnd) {
      ConcavePhaseNoWrap(lastMax, cwnd, t);
    } else {
      ConvexPhaseNoWrap(lastMax, TimeToOrigin(lastMax, cwnd), t);
    }
  }

  /** The target never shrinks as time passes. */
  lemma TargetMonotone(lastMax: u32, cwnd: u32, t1: u64, t2: u64)
    requires cwnd < lastMax < WINDOW_LIMIT && lastMax <= 7 * cwnd && t1 <= t2 <= TIME_LIMIT
    ensures var k := TimeToOrigin(lastMax, cwnd);
            Target(lastMax, k, t1) <= Target(lastMax, k, t2)
  {
    var k := TimeToOrigin(lastMax, cwnd);
    TargetIsCurve(lastMax, cwnd, t1);
    TargetIsCurve(lastMax, cwnd, t2);
    if t2 < k {
      CurveMono(k - t2, k - t1);
    } else if k <= t1 {
      CurveMono(t1 - k, t2 - k);
    }
  }

  /** The curve is symmetric around its origin: what it lacks before, it has gained as long after. */
  lemma TargetSymmetric(lastMax: u32, cwnd: u32, s: nat)
    requires cwnd < lastMax < WINDOW_LIMIT && lastMax <= 7 * cwnd
    requires s <= TimeToOrigin(lastMax, cwnd)
    ensures var k := TimeToOrigin(lastMax, cwnd);
            Target(lastMax, k, k - s) + Target(lastMax, k, k + s) == 2 * lastMax
  {
    var k := TimeToOrigin(lastMax, cwnd);
    TimeToOriginLimit(lastMax, cwnd);
    TargetIsCurve(lastMax, cwnd, k - s);
    TargetIsCurve(lastMax, cwnd, k + s);
    assert Curve(0) == 0;
  }
}
