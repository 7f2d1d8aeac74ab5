/**
 BBR's state machine over whole runs: counters stay in their bit-fields, the full-pipe verdict is
 final, the modes come in order, and the gain cycle never starts in its draining phase.
 */
module BbrModes {
  import opened Words
  import opened BbrRates
  import opened Bbr
  import opened BbrFrames

  // ---------- invariants, field group by field group ----------

  /** 7 bits: at most 16 rounds while sampling, at most 47 while the long-term rate is in use. */
  ghost predicate LtSane(lt: Lt) {
    && lt.rttCnt <= (if lt.useBw then 47 else 16)
    && (!lt.useBw && !lt.isSampling ==> lt.rttCnt == 0)
  }

  /** 2 bits: the count is three only together with the verdict. */
  ghost predicate PipeSane(p: Pipe) {
    p.cnt <= FULL_BW_CNT && (p.cnt == FULL_BW_CNT ==> p.reached)
  }

  /** 20, 5 and 1 bits. */
  ghost predicate AggSane(a: Agg) {
    a.epochAcked <= ACK_EPOCH_ACKED_MAX && a.winRtts < EXTRA_ACKED_WIN_RTTS && a.winIdx <= 1
  }

  /** DRAIN and PROBE_BW only with a full pipe, STARTUP only without. */
  ghost predicate ModeSane(b: Block) {
    && b.cycle.idx < CYCLE_LEN
    && (b.mode == Drain || b.mode == ProbeBw ==> b.pipe.reached)
    && (b.mode == Startup ==> !b.pipe.reached)
  }

  /**
   10 bits each, at most 2.89; in PROBE_RTT, and in PROBE_BW with a policer detected, packets are paced at the
   estimated rate.
   */
  ghost predicate GainSane(b: Block) {
    && b.pacingGain <= MAX_GAIN && b.cwndGain <= MAX_GAIN
    && (b.mode == ProbeRtt || (b.mode == ProbeBw && b.lt.useBw) ==> b.pacingGain == BBR_UNIT)
  }

  ghost predicate Sane(b: Block) {
    LtSane(b.lt) && PipeSane(b.pipe) && AggSane(b.agg) && ModeSane(b) && GainSane(b)
  }

  lemma LtStaysSane(b: Block, losses: s32, isAppLimited: bool, env: Env)
    requires LtSane(b.lt)
    ensures LtSane(LtSampling(b, losses, isAppLimited, env).lt)
  {
  }

  lemma AggStaysSane(b: Block, sndCwnd: u32, rs: Sample, env: Env)
    requires AggSane(b.agg)
    ensures AggSane(UpdateAggregation(b, sndCwnd, rs, env).agg)
  {
  }

  lemma PipeStaysSane(b: Block, rs: Sample)
    requires PipeSane(b.pipe)
    ensures PipeSane(CheckFullBw(b, rs).pipe) && (b.pipe.reached ==> CheckFullBw(b, rs).pipe == b.pipe)
  {
  }

  lemma EstimatesStaySane(s: State, rs: Sample, env: Env)
    requires Sane(s.bbr)
    ensures var b := UpdateEstimates(s, rs, env).bbr;
            && LtSane(b.lt) && PipeSane(b.pipe) && AggSane(b.agg) && b.cycle.idx < CYCLE_LEN
            && (s.bbr.pipe.reached ==> b.pipe == s.bbr.pipe)
  {
    var b0 := s.bbr.(roundStart := false);
    if rs.delivered >= 0 && rs.intervalUs > 0 {
      LtStaysSane(StartRound(b0, rs, env), rs.losses, rs.isAppLimited, env);
    }
    UpdateBwFrame(s.bbr, rs, env);
    var b1 := UpdateBw(s.bbr, rs, env);
    AggStaysSane(b1, s.sk.sndCwnd, rs, env);
    SmallFrames(b1, s.sk.sndCwnd, rs, env);
    var b2 := UpdateAggregation(b1, s.sk.sndCwnd, rs, env);
    SmallFrames(b2, s.sk.sndCwnd, rs, env);
    var b3 := UpdateCyclePhase(b2, rs, env);
    SmallFrames(b3, s.sk.sndCwnd, rs, env);
    PipeStaysSane(b3, rs);
  }

  // ---------- modes in order ----------

  /**
   0 until the pipe is estimated full, 1 in DRAIN, 2 afterwards. It says at once that the verdict is final,
   that DRAIN is entered only with the verdict and never again, and that STARTUP does not come back.
   */
  function Stage(b: Block): nat {
    if !b.pipe.reached || b.mode == Startup then 0 else if b.mode == Drain then 1 else 2
  }

  /** The invariants on modes, before the full-pipe verdict has taken effect. */
  ghost predicate ModePending(b: Block) {
    b.cycle.idx < CYCLE_LEN && (b.mode == Drain || b.mode == ProbeBw ==> b.pipe.reached)
  }

  lemma EstimatesInOrder(s: State, rs: Sample, env: Env)
    requires Sane(s.bbr)
    ensures ModePending(UpdateEstimates(s, rs, env).bbr)
    ensures Stage(s.bbr) <= Stage(UpdateEstimates(s, rs, env).bbr)
  {
    EstimatesStaySane(s, rs, env);
    EstimatesFrame(s, rs, env);
  }

  lemma DrainInOrder(s: State, env: Env)
    requires ModePending(s.bbr)
    ensures ModeSane(CheckDrain(s, env).bbr)
    ensures Stage(s.bbr) <= Stage(CheckDrain(s, env).bbr)
  {
    CheckDrainFrame(s, env);
  }

  lemma MinRttInOrder(s: State, rs: Sample, env: Env)
    requires ModeSane(s.bbr)
    ensures ModeSane(UpdateMinRtt(s, rs, env).bbr)
    ensures Stage(s.bbr) <= Stage(UpdateMinRtt(s, rs, env).bbr)
  {
    UpdateMinRttFrame(s, rs, env);
  }

  /** One ACK keeps the invariants and does not go back a stage. */
  lemma OnAckInOrder(s: State, rs: Sample, env: Env)
    requires Sane(s.bbr)
    ensures Sane(OnAck(s, rs, env).bbr)
    ensures Stage(s.bbr) <= Stage(OnAck(s, rs, env).bbr)
  {
    EstimatesInOrder(s, rs, env);
    var s1 := UpdateEstimates(s, rs, env);
    DrainInOrder(s1, env);
    var s2 := CheckDrain(s1, env);
    MinRttInOrder(s2, rs, env);
    OnAckFrame(s, rs, env);
    OnAckGroups(s, rs, env);
  }

  lemma OnAckGroups(s: State, rs: Sample, env: Env)
    requires Sane(s.bbr)
    ensures var b := OnAck(s, rs, env).bbr;
            LtSane(b.lt) && PipeSane(b.pipe) && AggSane(b.agg) && GainSane(b)
  {
    EstimatesStaySane(s, rs, env);
    var s1 := UpdateEstimates(s, rs, env);
    CheckDrainFrame(s1, env);
    UpdateMinRttFrame(CheckDrain(s1, env), rs, env);
    OnAckFrame(s, rs, env);
  }

  lemma TxStartInOrder(s: State, env: Env)
    requires Sane(s.bbr)
    ensures Sane(TxStart(s, env).bbr)
    ensures Stage(s.bbr) <= Stage(TxStart(s, env).bbr)
  {
    if s.sk.appLimited != 0 {
      var s1 := AtIdle(s, env);
      if s.bbr.mode == ProbeBw {
        SetPacingRateFrame(s1, Bw(s1.bbr), BBR_UNIT, env);
      } else if s.bbr.mode == ProbeRtt {
        CheckProbeRttDoneFrame(s1, env);
      }
    }
  }

  lemma SetStateInOrder(b: Block, newState: u8, env: Env)
    requires Sane(b)
    ensures Sane(SetState(b, newState, env)) && Stage(b) <= Stage(SetState(b, newState, env))
  {
    if newState == TCP_CA_LOSS {
      var b1 := AtLoss(b);
      LtStaysSane(b1, 1, false, env);
      LtSamplingFrame(b1, 1, false, env);
    }
  }

  lemma StepInOrder(s: State, e: Event, env: Env)
    requires Sane(s.bbr)
    ensures Sane(Step(s, e, env).bbr)
    ensures Stage(s.bbr) <= Stage(Step(s, e, env).bbr)
  {
    match e
    case Ack(rs) => OnAckInOrder(s, rs, env);
    case Idle => TxStartInOrder(s, env);
    case NewState(newState) => SetStateInOrder(s.bbr, newState, env);
    case _ =>
  }

  lemma InitIsSane(sk: Sock, minRttUs: u32, env: Env)
    ensures Sane(Init(sk, minRttUs, env).bbr) && Stage(Init(sk, minRttUs, env).bbr) == 0
  {
  }

  /** Every state of every run satisfies the invariants. */
  lemma {:induction false} RunIsSane(s: State, events: seq<(Event, Env)>)
    requires Sane(s.bbr)
    ensures Sane(Run(s, events).bbr)
  {
    if events != [] {
      var init := events[..|events| - 1];
      RunIsSane(s, init);
      StepInOrder(Run(s, init), events[|events| - 1].0, events[|events| - 1].1);
    }
  }

  /** In every reachable state the counters fit their bit-fields, and DRAIN and PROBE_BW imply a full pipe. */
  lemma ReachableIsSane(sk: Sock, minRttUs: u32, env0: Env, events: seq<(Event, Env)>)
    ensures Sane(Run(Init(sk, minRttUs, env0), events).bbr)
  {
    InitIsSane(sk, minRttUs, env0);
    RunIsSane(Init(sk, minRttUs, env0), events);
  }

  /**
   So in every reachable state the pacing rate is computed without overflow, and is exact or one byte per second less.
   */
  lemma ReachableRateNearExact(sk: Sock, minRttUs: u32, env0: Env, events: seq<(Event, Env)>, mss: u32)
    requires mss <= 1500
    ensures var b := Run(Init(sk, minRttUs, env0), events).bbr;
            var exact := Bw(b) * mss * b.pacingGain * RATE_FACTOR / TWO32;
            exact - 1 <= RateBytesPerSec(Bw(b), mss, b.pacingGain) <= exact
  {
    ReachableIsSane(sk, minRttUs, env0, events);
    var b := Run(Init(sk, minRttUs, env0), events).bbr;
    RateNearExact(Bw(b), mss, b.pacingGain);
  }

  /** Along a run the stage never falls. */
  lemma {:induction false} StageNeverFalls(s: State, events: seq<(Event, Env)>, i: nat)
    requires Sane(s.bbr) && i <= |events|
    ensures Stage(Run(s, events[..i]).bbr) <= Stage(Run(s, events).bbr)
    decreases |events|
  {
    if i == |events| {
      assert events[..i] == events;
    } else {
      var init := events[..|events| - 1];
      assert init[..i] == events[..i];
      StageNeverFalls(s, init, i);
      RunIsSane(s, init);
      StepInOrder(Run(s, init), events[|events| - 1].0, events[|events| - 1].1);
    }
  }

  /**
   DRAIN is one unbroken stretch: once seen and left it does not come back; and after a
   full pipe there is no STARTUP.
   */
  lemma DrainOnce(sk: Sock, minRttUs: u32, env0: Env, events: seq<(Event, Env)>, i: nat, j: nat)
    requires i <= j <= |events|
    ensures var s0 := Init(sk, minRttUs, env0);
            var first, mid, last := Run(s0, events[..i]).bbr, Run(s0, events[..j]).bbr, Run(s0, events).bbr;
            && (first.mode == Drain && last.mode == Drain ==> mid.mode == Drain)
            && (first.pipe.reached ==> last.pipe.reached && last.mode != Startup)
  {
    var s0 := Init(sk, minRttUs, env0);
    InitIsSane(sk, minRttUs, env0);
    RunIsSane(s0, events);
    RunIsSane(s0, events[..i]);
    RunIsSane(s0, events[..j]);
    StageNeverFalls(s0, events, i);
    StageNeverFalls(s0, events, j);
    assert events[..j][..i] == events[..i];
    StageNeverFalls(s0, events[..j], i);
  }

  // ---------- the gain cycle ----------

  /** In PROBE_BW with the gain that drains the queue. */
  predicate Draining(b: Block) {
    b.mode == ProbeBw && b.cycle.idx == 1
  }

  /** The phase before it, or that phase itself. */
  predicate ProbingOrDraining(b: Block) {
    b.mode == ProbeBw && (b.cycle.idx == 0 || b.cycle.idx == 1)
  }

  /** A cycle restarted by the long-term estimator is not advanced by the same ACK. */
  lemma CyclePhaseSource(s: State, rs: Sample, env: Env)
    requires GainSane(s.bbr) && s.bbr.cycle.idx < CYCLE_LEN
    ensures var b := UpdateEstimates(s, rs, env).bbr;
            b.mode == s.bbr.mode && (Draining(b) ==> ProbingOrDraining(s.bbr))
  {
    EstimatesFrame(s, rs, env);
    UpdateBwFrame(s.bbr, rs, env);
    var b2 := BeforeCycle(s, rs, env);
    BeforeCycleFrame(s, rs, env);
    if b2.cycle == s.bbr.cycle {
      CycleAdvance(b2, rs, env);
    } else {
      FreshCycleStays(b2, rs, env);
    }
  }

  /** The state in which the cycle phase is looked at. */
  function BeforeCycle(s: State, rs: Sample, env: Env): Block {
    UpdateAggregation(UpdateBw(s.bbr, rs, env), s.sk.sndCwnd, rs, env)
  }

  lemma BeforeCycleFrame(s: State, rs: Sample, env: Env)
    ensures var b1, b2 := UpdateBw(s.bbr, rs, env), BeforeCycle(s, rs, env);
            b2.mode == b1.mode && b2.cycle == b1.cycle && b2.pacingGain == b1.pacingGain
    ensures UpdateEstimates(s, rs, env).bbr.cycle == UpdateCyclePhase(BeforeCycle(s, rs, env), rs, env).cycle
  {
    SmallFrames(UpdateBw(s.bbr, rs, env), s.sk.sndCwnd, rs, env);
    SmallFrames(UpdateCyclePhase(BeforeCycle(s, rs, env), rs, env), s.sk.sndCwnd, rs, env);
  }

  lemma CycleAdvance(b: Block, rs: Sample, env: Env)
    requires b.cycle.idx < CYCLE_LEN
    ensures var after := UpdateCyclePhase(b, rs, env);
            after.cycle == b.cycle || (b.mode == ProbeBw && after.cycle.idx == (b.cycle.idx + 1) % CYCLE_LEN)
    ensures UpdateCyclePhase(b, rs, env).cycle.idx == 1 && b.mode == ProbeBw ==> b.cycle.idx == 0 || b.cycle.idx == 1
  {
  }

  lemma FreshCycleStays(b: Block, rs: Sample, env: Env)
    requires b.pacingGain == BBR_UNIT && b.cycle.mstamp == env.deliveredMstamp
    ensures UpdateCyclePhase(b, rs, env) == b
  {
    assert StampDelta(env.deliveredMstamp, b.cycle.mstamp) == 0;
  }

  /** The phase with gain 0.75 is only ever reached from the phase with gain 1.25, on any event of any run. */
  lemma DrainingAfterProbing(sk: Sock, minRttUs: u32, env0: Env, events: seq<(Event, Env)>, e: Event, env: Env)
    ensures var before := Run(Init(sk, minRttUs, env0), events);
            Draining(Step(before, e, env).bbr) ==> ProbingOrDraining(before.bbr)
  {
    ReachableIsSane(sk, minRttUs, env0, events);
    var s := Run(Init(sk, minRttUs, env0), events);
    match e
    case Ack(rs) =>
      CyclePhaseSource(s, rs, env);
      var s1 := UpdateEstimates(s, rs, env);
      CheckDrainFrame(s1, env);
      UpdateMinRttFrame(CheckDrain(s1, env), rs, env);
      OnAckFrame(s, rs, env);
    case Idle => TxStartSource(s, env);
    case NewState(newState) =>
      LtSamplingFrame(AtLoss(s.bbr), 1, false, env);
    case _ =>
  }

  lemma TxStartSource(s: State, env: Env)
    ensures Draining(TxStart(s, env).bbr) ==> Draining(s.bbr)
  {
    var s1 := AtIdle(s, env);
    SetPacingRateFrame(s1, Bw(s1.bbr), BBR_UNIT, env);
    CheckProbeRttDoneFrame(s1, env);
  }

  // ---------- excess acknowledged packets ----------

  /**
   The excess over the expectation is never computed below zero, unless the packets of one ACK
   wrap the 32-bit sum; then it is exactly when the wrapped sum stays below the expectation.
   */
  lemma ExcessUnderflow(b: Block, a: Agg, acked: u32, env: Env)
    requires a.epochAcked <= ACK_EPOCH_ACKED_MAX
    ensures var expected, sum := ExpectedAcked(b, a, env), a.epochAcked + acked;
            var counted := if EpochEnds(a, expected, acked) then 0 else expected;
            CountAcked(b, a, acked, env).0.epochAcked < counted
            <==> (a.epochAcked > expected && TWO32 <= sum < TWO32 + TWO20 && sum - TWO32 < expected)
  {
  }

  /** A sample that is counted, with no loss. */
  predicate Lossless(rs: Sample, acked: u32) {
    rs.delivered >= 0 && rs.intervalUs > 0 && rs.losses == 0 && !rs.isAppLimited && rs.ackedSacked == acked
  }

  /** The excess that the ACK computes in this state. */
  function ExcessOf(s: State, rs: Sample, env: Env): u32 {
    var b := UpdateBw(s.bbr, rs, env);
    var a := if b.roundStart then RotateSlots(b.agg) else b.agg;
    CountAcked(b, a, rs.ackedSacked, env).1
  }

  /** The first ACK of a connection counts its packets from now on. */
  lemma FirstAckCounts(s: State, rs: Sample, env: Env)
    requires !s.bbr.lt.useBw && !s.bbr.lt.isSampling && s.bbr.agg.epochAcked == 0 && Lossless(rs, 1000)
    ensures var after := OnAck(s, rs, env).bbr;
            && after.agg.epochAcked == 1000 && after.agg.epochMstamp == env.deliveredMstamp
            && !after.lt.useBw && !after.lt.isSampling
  {
    UpdateBwFrame(s.bbr, rs, env);
    EstimatesFrame(s, rs, env);
    CheckDrainFrame(UpdateEstimates(s, rs, env), env);
    UpdateMinRttFrame(CheckDrain(UpdateEstimates(s, rs, env), env), rs, env);
    OnAckFrame(s, rs, env);
  }

  lemma SecondAckWraps(s: State, rs: Sample, env: Env)
    requires !s.bbr.lt.useBw && !s.bbr.lt.isSampling && Lossless(rs, TWO32 - 900)
    requires s.bbr.agg.epochAcked == 1000 && s.bbr.agg.epochMstamp == 0
    requires env.deliveredMstamp == 500 && env.filteredBw == BW_UNIT
    ensures ExcessOf(s, rs, env) == TWO32 - 400
  {
    var b := UpdateBw(s.bbr, rs, env);
    assert b.maxBw == BW_UNIT && !b.lt.useBw && b.agg == s.bbr.agg;
    var a := if b.roundStart then RotateSlots(b.agg) else b.agg;
    assert ExpectedAcked(b, a, env) == 500;
  }

  /**
   A run from a new connection: one ACK counts 1000 packets, 500 microseconds at a packet per microsecond go by, and
   an ACK for 2^32 - 900 packets leaves 100 counted and an excess of almost 2^32.
   */
  lemma ExcessWraps(sk: Sock, minRttUs: u32, env0: Env, rs1: Sample, env1: Env, rs2: Sample, env2: Env)
    requires Lossless(rs1, 1000) && env1.deliveredMstamp == 0
    requires Lossless(rs2, TWO32 - 900) && env2.deliveredMstamp == 500 && env2.filteredBw == BW_UNIT
    ensures ExcessOf(Run(Init(sk, minRttUs, env0), [(Ack(rs1), env1)]), rs2, env2) == TWO32 - 400
  {
    var s0 := Init(sk, minRttUs, env0);
    InitFrame(sk, minRttUs, env0);
    FirstAckCounts(s0, rs1, env1);
    RunTwo(s0, (Ack(rs1), env1), (Ack(rs2), env2));
    SecondAckWraps(OnAck(s0, rs1, env1), rs2, env2);
  }
}
