/**
 BBR's fixed-point products: pacing rates in bytes per second and the bandwidth-delay
 product in packets. Bandwidths are in packets per microsecond << 24, gains in 256ths.
 */
module BbrRates {
  import opened Words
  import opened Arith

  const BW_UNIT := TWO24
  const BBR_UNIT := 256
  const MAX_GAIN := 739  // 2 / ln 2
  const RATE_FACTOR := 990_000  // microseconds per second, less the pacing margin of 1%
  const TCP_INIT_CWND := 10
  const NO_RTT: u32 := 0xFFFF_FFFF

  /** Bytes per second, in the order of operations that is meant to avoid overflow. */
  function RateBytesPerSec(rate: u64, mss: u32, gain: u32): u64 {
    U64(U64(U64(rate * mss) * gain) / BBR_UNIT * RATE_FACTOR) / BW_UNIT
  }

  /** ceil(bw * min_rtt * gain), or the initial window when there is no round-trip sample. */
  function Bdp(bw: u32, minRttUs: u32, gain: u32): u32 {
    if minRttUs == NO_RTT then TCP_INIT_CWND
    else U32((U64(U64(bw * minRttUs) * gain) / BBR_UNIT + BW_UNIT - 1) / BW_UNIT)
  }

  lemma ProductAtMost(x: nat, y: nat, xMax: nat, yMax: nat)
    requires x <= xMax && y <= yMax
    ensures 0 <= x * y <= xMax * yMax
  {
    MulMonoLeft(x, xMax, y);
    MulMono(xMax, y, yMax);
  }

  /** Dropping 8 bits first and 24 bits later loses at most one unit of the whole quotient. */
  lemma StagedFloor(p: nat)
    ensures var exact, staged := p * RATE_FACTOR / TWO32, p / BBR_UNIT * RATE_FACTOR / BW_UNIT;
            exact - 1 <= staged <= exact
  {
    var q := p / BBR_UNIT;
    assert BBR_UNIT * q <= p < BBR_UNIT * q + BBR_UNIT;
  }

  /**
   For any 32-bit bandwidth, segments of up to 1500 bytes and gains of up to 2.89 no step overflows 64 bits,
   and the rate is the exact one rounded down, or one byte per second less.
   */
  lemma RateNearExact(bw: u32, mss: u32, gain: u32)
    requires mss <= 1500 && gain <= MAX_GAIN
    ensures bw * mss < TWO64 && bw * mss * gain < TWO64 && bw * mss * gain / BBR_UNIT * RATE_FACTOR < TWO64
    ensures var exact := bw * mss * gain * RATE_FACTOR / TWO32;
            exact - 1 <= RateBytesPerSec(bw, mss, gain) <= exact
  {
    ProductAtMost(bw, mss, TWO32 - 1, 1500);
    ProductAtMost(bw * mss, gain, (TWO32 - 1) * 1500, MAX_GAIN);
    StagedFloor(bw * mss * gain);
  }

  /**
   Rounding up after dropping 8 bits: one packet is lost exactly when what exceeds a multiple of 2^32 is below 2^8.
   */
  lemma StagedCeiling(p: nat)
    ensures (p / BBR_UNIT + BW_UNIT - 1) / BW_UNIT
            == (p + TWO32 - 1) / TWO32 - (if 0 < p % TWO32 < BBR_UNIT then 1 else 0)
  {
    var k, r := p / TWO32, p % TWO32;
    assert p == k * TWO32 + r;
    var q := p / BBR_UNIT;
    assert q == k * BW_UNIT + r / BBR_UNIT;
  }

  /**
   The bandwidth-delay product, when bw * min_rtt * gain fits 64 bits, is the exact ceiling, or one less in
   the case above; it fits the 32-bit result exactly when the product stays 2^32 - 2^8 away from 2^64.
   */
  lemma BdpNearExact(bw: u32, minRttUs: u32, gain: u32)
    requires minRttUs != NO_RTT && bw * minRttUs * gain < TWO64
    ensures var p := bw * minRttUs * gain;
            var staged := (p + TWO32 - 1) / TWO32 - (if 0 < p % TWO32 < BBR_UNIT then 1 else 0);
            && Bdp(bw, minRttUs, gain) == U32(staged)
            && (staged < TWO32 <==> p < TWO64 - TWO32 + BBR_UNIT)
  {
    ProductAtMost(bw, minRttUs, TWO32 - 1, TWO32 - 1);
    StagedCeiling(bw * minRttUs * gain);
    CeilingFits(bw * minRttUs * gain);
  }

  lemma CeilingFits(p: nat)
    requires p < TWO64
    ensures (p / BBR_UNIT + BW_UNIT - 1) / BW_UNIT < TWO32 <==> p < TWO64 - TWO32 + BBR_UNIT
  {
  }
}
