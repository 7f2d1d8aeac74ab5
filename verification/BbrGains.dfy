/**
 What BBR's gains and rates mean: which modes probe, drain and cruise, what a gain cycle averages, and the pacing rate
 that an ACK, the first round-trip time and an idle restart set.
 */
module BbrGains {
  import opened Words
  import opened BbrRates
  import opened Bbr
  import opened BbrFrames
  import opened BbrModes

  /** 2 / ln 2, the smallest gain that doubles the sending rate each round, to within 0.2 percent. */
  predicate Doubling(gain: u32) {
    2885 * BBR_UNIT <= 1000 * gain <= 2890 * BBR_UNIT
  }

  /** Probing above the estimate, draining below it, and cruising at it. */
  ghost predicate PacedByMode(b: Block) {
    match b.mode
    case Startup => Doubling(b.pacingGain)
    case Drain => 0 < b.pacingGain < BBR_UNIT
    case ProbeBw =>
      if b.lt.useBw then b.pacingGain == BBR_UNIT
      else && (b.cycle.idx == 0 ==> 4 * b.pacingGain == 5 * BBR_UNIT)
           && (b.cycle.idx == 1 ==> 4 * b.pacingGain == 3 * BBR_UNIT)
           && (b.cycle.idx >= 2 ==> b.pacingGain == BBR_UNIT)
    case ProbeRtt => b.pacingGain == BBR_UNIT
  }

  /** Two bandwidth-delay products or more, but one in PROBE_RTT. */
  ghost predicate WindowByMode(b: Block) {
    match b.mode
    case Startup => Doubling(b.cwndGain)
    case Drain => Doubling(b.cwndGain)
    case ProbeBw => b.cwndGain == 2 * BBR_UNIT
    case ProbeRtt => b.cwndGain == BBR_UNIT
  }

  lemma GainsByMode(b: Block)
    ensures PacedByMode(UpdateGains(b)) && WindowByMode(UpdateGains(b))
  {
  }

  /** After every ACK, in every state: the gains are those of the mode and phase that the ACK left. */
  lemma AckGains(s: State, rs: Sample, env: Env)
    ensures var b := OnAck(s, rs, env).bbr;
            PacedByMode(b) && WindowByMode(b)
  {
    OnAckFrame(s, rs, env);
    GainsByMode(AfterMinRtt(s, rs, env).bbr);
  }

  /** DRAIN undoes STARTUP: its gain is the largest whose product with STARTUP's does not exceed one. */
  lemma DrainUndoesStartup(s1: State, rs1: Sample, env1: Env, s2: State, rs2: Sample, env2: Env)
    ensures var startup, drain := OnAck(s1, rs1, env1).bbr, OnAck(s2, rs2, env2).bbr;
            startup.mode == Startup && drain.mode == Drain ==>
              startup.pacingGain * drain.pacingGain <= BBR_UNIT * BBR_UNIT < startup.pacingGain * (drain.pacingGain + 1)
  {
    OnAckFrame(s1, rs1, env1);
    OnAckFrame(s2, rs2, env2);
  }

  // ---------- the gain cycle ----------

  function SumGains(blocks: seq<Block>): nat {
    if blocks == [] then 0 else SumGains(blocks[..|blocks| - 1]) + blocks[|blocks| - 1].pacingGain
  }

  /** What one gain cycle has paced at after its first `n` phases. */
  lemma {:induction false} CycleSum(blocks: seq<Block>)
    requires |blocks| <= CYCLE_LEN
    requires forall i :: 0 <= i < |blocks| ==>
               blocks[i].mode == ProbeBw && !blocks[i].lt.useBw && blocks[i].cycle.idx == i && PacedByMode(blocks[i])
    ensures SumGains(blocks) == |blocks| * BBR_UNIT + if |blocks| == 1 then 64 else 0
  {
    if blocks != [] {
      CycleSum(blocks[..|blocks| - 1]);
    }
  }

  /** Over the eight phases of a cycle the flow is paced at the estimate: what phase 0 probes, phase 1 drains. */
  lemma CycleAverages(blocks: seq<Block>)
    requires |blocks| == CYCLE_LEN
    requires forall i :: 0 <= i < |blocks| ==>
               blocks[i].mode == ProbeBw && !blocks[i].lt.useBw && blocks[i].cycle.idx == i && PacedByMode(blocks[i])
    ensures SumGains(blocks) == CYCLE_LEN * BBR_UNIT
  {
    CycleSum(blocks);
  }

  // ---------- the rate that an ACK sets ----------

  /** Bytes per second at this share of the bandwidth, less the pacing margin, rounded down. */
  function ExactRate(bw: u32, mss: u32, gain: u32): nat {
    ProductAtMost(bw, mss, TWO32, TWO32);
    ProductAtMost(bw * mss, gain, TWO32 * TWO32, TWO32);
    bw * mss * gain * 990_000 / TWO32
  }

  lemma RateIsNear(bw: u32, gain: u32, env: Env)
    requires env.mss <= 1500 && gain <= MAX_GAIN
    ensures Min(ExactRate(bw, env.mss, gain) - 1, env.maxPacingRate) <= BwToPacingRate(bw, gain, env)
            <= Min(ExactRate(bw, env.mss, gain), env.maxPacingRate)
  {
    RateNearExact(bw, env.mss, gain);
  }

  /** The bandwidth that a state goes by: the policer's rate while it is in use, the filtered maximum otherwise. */
  function InUse(b: Block): u32 {
    if b.lt.useBw then b.lt.bw else b.maxBw
  }

  lemma SetRate(s: State, bw: u32, gain: u32, env: Env)
    requires env.mss <= 1500 && gain <= MAX_GAIN
    ensures var rate, exact := SetPacingRate(s, bw, gain, env).sk.pacingRate, ExactRate(bw, env.mss, gain);
            && Min(exact - 1, env.maxPacingRate) <= rate
            && (s.bbr.pipe.reached ==> rate <= Min(exact, env.maxPacingRate))
            && (s.bbr.hasSeenRtt || env.srttUs == 0 ==> rate <= Max(s.sk.pacingRate, Min(exact, env.maxPacingRate)))
            && (s.bbr.hasSeenRtt && !s.bbr.pipe.reached ==> rate >= s.sk.pacingRate)
  {
    RateIsNear(bw, gain, env);
  }

  /** The steps of the model leave bandwidth and rate to those that set them. */
  lemma ModelKeepsRate(s: State, rs: Sample, env: Env)
    ensures var m := AfterMinRtt(s, rs, env);
            && m.sk.pacingRate == s.sk.pacingRate && m.bbr.hasSeenRtt == s.bbr.hasSeenRtt
  {
    EstimatesFrame(s, rs, env);
    EstimatesKeepSeen(s, rs, env);
    CheckDrainFrame(UpdateEstimates(s, rs, env), env);
    UpdateMinRttFrame(CheckDrain(UpdateEstimates(s, rs, env), env), rs, env);
  }

  /** A rate that goes by the bandwidth and gain of the block, `before` being the last one. */
  ghost predicate RateSet(rate: u64, before: u64, b: Block, isKnown: bool, env: Env) {
    var exact := ExactRate(InUse(b), env.mss, b.pacingGain);
    && Min(exact - 1, env.maxPacingRate) <= rate
    && (b.pipe.reached ==> rate <= Min(exact, env.maxPacingRate))
    && (isKnown || env.srttUs == 0 ==> rate <= Max(before, Min(exact, env.maxPacingRate)))
    && (isKnown && !b.pipe.reached ==> rate >= before)
  }

  lemma PacedRate(m: State, env: Env)
    requires env.mss <= 1500
    ensures var p := Paced(m, env);
            RateSet(p.sk.pacingRate, m.sk.pacingRate, p.bbr, m.bbr.hasSeenRtt, env)
  {
    var s1 := m.(bbr := UpdateGains(m.bbr));
    SetPacingRateFrame(s1, Bw(s1.bbr), s1.bbr.pacingGain, env);
    SetRate(s1, Bw(s1.bbr), s1.bbr.pacingGain, env);
  }

  /**
   After every ACK the flow is paced at no less than its gain times its bandwidth, to within one byte per second and
   up to the configured maximum, and at exactly that once the pipe has been full. Before, the rate moves only up, and
   only to it.
   */
  lemma AckRate(s: State, rs: Sample, env: Env)
    requires env.mss <= 1500
    ensures var after := OnAck(s, rs, env);
            RateSet(after.sk.pacingRate, s.sk.pacingRate, after.bbr, s.bbr.hasSeenRtt, env)
  {
    ModelKeepsRate(s, rs, env);
    PacedRate(AfterMinRtt(s, rs, env), env);
    AckSetsWindow(s, rs, env);
    var p := BeforeWindow(s, rs, env);
    SetCwndFrame(p, rs.losses, rs.ackedSacked, Bw(p.bbr), p.bbr.cwndGain, env);
  }

  // ---------- the first rate, and the one after an idle period ----------

  /** The smoothed round-trip time in microseconds, one millisecond when there is none. */
  function FirstRtt(env: Env): nat {
    if env.srttUs == 0 then 1000 else Max(env.srttUs / 8, 1)
  }

  /**
   A connection starts at the gain of STARTUP times one window per round-trip time, below 256 packets per microsecond.
   */
  lemma FirstRate(sk: Sock, minRttUs: u32, env: Env)
    requires env.mss <= 1500 && sk.sndCwnd < 256 * FirstRtt(env)
    ensures var s, bw := Init(sk, minRttUs, env), sk.sndCwnd * BW_UNIT / FirstRtt(env);
            && bw < TWO32 && s.bbr.hasSeenRtt == (env.srttUs != 0) && s.sk.sndCwnd == sk.sndCwnd
            && s.sk.sndSsthresh == 0x7FFF_FFFF
            && exists gain: u32 ::
                 && Doubling(gain)
                 && Min(ExactRate(bw, env.mss, gain) - 1, env.maxPacingRate) <= s.sk.pacingRate
                 && s.sk.pacingRate <= Min(ExactRate(bw, env.mss, gain), env.maxPacingRate)
  {
    var rtt := FirstRtt(env);
    DivIsQuotient(sk.sndCwnd * BW_UNIT, rtt);
    WindowRateFits(sk.sndCwnd, rtt);
    var bw: u32 := sk.sndCwnd * BW_UNIT / rtt;
    var gain: u32 := HIGH_GAIN;
    RateIsNear(bw, gain, env);
    assert Doubling(gain);
  }

  lemma WindowRateFits(cwnd: u32, rtt: nat)
    requires rtt > 0 && cwnd < 256 * rtt
    ensures 0 <= cwnd * BW_UNIT / rtt < TWO32
  {
    var q := cwnd * BW_UNIT / rtt;
    if q >= TWO32 {
      MulMono(rtt, TWO32, q);
    }
  }

  /**
   An idle period that the application caused begins a new epoch of ACKs, and in PROBE_BW the flow restarts at the
   estimated bandwidth, whatever the phase; one that it did not cause changes nothing.
   */
  lemma IdleRestart(s: State, env: Env)
    requires s.bbr.mode == ProbeBw && s.bbr.pipe.reached && env.mss <= 1500
    ensures var after := TxStart(s, env);
            if s.sk.appLimited == 0 then after == s
            else
              && after.bbr.idleRestart && after.bbr.agg.epochAcked == 0 && after.bbr.agg.epochMstamp == env.tcpMstamp
              && after.sk.sndCwnd == s.sk.sndCwnd && after.bbr.mode == ProbeBw
              && var exact := ExactRate(InUse(s.bbr), env.mss, BBR_UNIT);
                 Min(exact - 1, env.maxPacingRate) <= after.sk.pacingRate <= Min(exact, env.maxPacingRate)
  {
    if s.sk.appLimited != 0 {
      var s1 := AtIdle(s, env);
      SetPacingRateFrame(s1, Bw(s1.bbr), BBR_UNIT, env);
      SetRate(s1, Bw(s1.bbr), BBR_UNIT, env);
    }
  }

  /** In STARTUP and DRAIN it does that and no more. */
  lemma IdleElsewhere(s: State, env: Env)
    requires s.bbr.mode == Startup || s.bbr.mode == Drain
    ensures var after := TxStart(s, env);
            if s.sk.appLimited == 0 then after == s
            else && after.sk == s.sk
                 && after.bbr == s.bbr.(idleRestart := true,
                                        agg := s.bbr.agg.(epochMstamp := env.tcpMstamp, epochAcked := 0))
  {
  }
}
