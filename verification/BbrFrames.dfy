/**
 Which parts of the state each step of BBR can change. Every lemma about whole callbacks
 is put together from these.
 */
module BbrFrames {
  import opened Words
  import opened BbrRates
  import opened Bbr

  /** A fresh PROBE_BW phase: any but the one with gain 0.75, stamped now. */
  ghost predicate FreshCycle(c: Cycle, env: Env) {
    c.idx < CYCLE_LEN && c.idx != 1 && c.mstamp == env.deliveredMstamp
  }

  lemma ResetProbeBwFrame(b: Block, env: Env)
    ensures var after := ResetProbeBw(b, env);
            after == b.(mode := ProbeBw, cycle := after.cycle) && FreshCycle(after.cycle, env)
  {
  }

  /** What the long-term estimator can change; it restarts gain cycling only in PROBE_BW. */
  ghost predicate LtFrame(b: Block, after: Block, env: Env) {
    && after == b.(lt := after.lt, pacingGain := after.pacingGain, cycle := after.cycle)
    && (after.pacingGain == b.pacingGain || (after.pacingGain == BBR_UNIT && after.lt.useBw))
    && (after.lt.useBw && !b.lt.useBw ==> after.pacingGain == BBR_UNIT)
    && (after.cycle == b.cycle
        || (b.mode == ProbeBw && b.lt.useBw
            && after.pacingGain == b.pacingGain && FreshCycle(after.cycle, env)))
  }

  lemma CountUseFrame(b: Block, env: Env)
    requires b.lt.useBw
    ensures LtFrame(b, LtCountUse(b, env), env)
  {
    ResetProbeBwFrame(b.(lt := ResetLt(b.lt, env)), env);
  }

  lemma EndIntervalFrame(b: Block, lt: Lt, env: Env)
    requires !b.lt.useBw && !lt.useBw
    ensures LtFrame(b, LtEndInterval(b.(lt := lt), env), env)
  {
  }

  lemma LtSamplingFrame(b: Block, losses: s32, isAppLimited: bool, env: Env)
    ensures LtFrame(b, LtSampling(b, losses, isAppLimited, env), env)
  {
    if b.lt.useBw {
      CountUseFrame(b, env);
    } else {
      var lt := if b.lt.isSampling then b.lt else ResetLtInterval(b.lt, env).(isSampling := true);
      EndIntervalFrame(b, if b.roundStart then lt.(rttCnt := Bits(lt.rttCnt + 1, 128)) else lt, env);
    }
  }

  lemma UpdateBwFrame(b: Block, rs: Sample, env: Env)
    ensures var after := UpdateBw(b, rs, env);
            && after.mode == b.mode && after.agg == b.agg && after.pipe == b.pipe && after.probe == b.probe
            && after.idleRestart == b.idleRestart && after.prevCaState == b.prevCaState
            && (after.pacingGain == b.pacingGain || (after.pacingGain == BBR_UNIT && after.lt.useBw))
            && (after.lt.useBw && !b.lt.useBw ==> after.pacingGain == BBR_UNIT)
            && (after.cycle == b.cycle
                || (b.mode == ProbeBw && b.lt.useBw
                    && after.pacingGain == b.pacingGain && FreshCycle(after.cycle, env)))
  {
    if rs.delivered >= 0 && rs.intervalUs > 0 {
      LtSamplingFrame(StartRound(b.(roundStart := false), rs, env), rs.losses, rs.isAppLimited, env);
    }
  }

  lemma CheckDrainFrame(s: State, env: Env)
    ensures var after := CheckDrain(s, env);
            && after.sk == s.sk.(sndSsthresh := after.sk.sndSsthresh)
            && after.bbr == s.bbr.(mode := after.bbr.mode, cycle := after.bbr.cycle)
            && (if s.bbr.mode == Drain || (s.bbr.mode == Startup && s.bbr.pipe.reached)
                then (after.bbr.mode == Drain && after.bbr.cycle == s.bbr.cycle)
                     || (after.bbr.mode == ProbeBw && FreshCycle(after.bbr.cycle, env))
                else after == s)
  {
    ResetProbeBwFrame(s.bbr.(mode := Drain), env);
  }

  lemma CheckProbeRttDoneFrame(s: State, env: Env)
    ensures var after := CheckProbeRttDone(s, env);
            && after.sk == s.sk.(sndCwnd := after.sk.sndCwnd)
            && after.bbr == s.bbr.(mode := after.bbr.mode, cycle := after.bbr.cycle,
                                   probe := s.bbr.probe.(minRttStamp := after.bbr.probe.minRttStamp))
            && (if ProbeRttDone(s.bbr, env)
                then && after.sk.sndCwnd == Max(s.sk.sndCwnd, s.bbr.probe.priorCwnd)
                     && after.bbr.probe.minRttStamp == env.now
                     && (if s.bbr.pipe.reached then after.bbr.mode == ProbeBw && FreshCycle(after.bbr.cycle, env)
                         else after.bbr.mode == Startup && after.bbr.cycle == s.bbr.cycle)
                else after == s)
  {
    ResetProbeBwFrame(s.bbr.(probe := s.bbr.probe.(minRttStamp := env.now)), env);
  }

  /** What staying in PROBE_RTT for one ACK can do. */
  lemma StayFrame(s: State, env: Env)
    requires s.bbr.mode == ProbeRtt
    ensures var after := StayInProbeRtt(s, env);
            && after.sk == s.sk.(sndCwnd := after.sk.sndCwnd, appLimited := after.sk.appLimited)
            && after.bbr == s.bbr.(mode := after.bbr.mode, cycle := after.bbr.cycle, probe := after.bbr.probe,
                                   nextRttDelivered := after.bbr.nextRttDelivered)
            && after.bbr.probe.priorCwnd == s.bbr.probe.priorCwnd
            && after.bbr.probe.minRttUs == s.bbr.probe.minRttUs
            && (if after.bbr.mode == ProbeRtt
                then && after.sk.sndCwnd == s.sk.sndCwnd && after.bbr.cycle == s.bbr.cycle
                     && after.bbr.probe.minRttStamp == s.bbr.probe.minRttStamp
                     && (after.bbr.probe.doneStamp == s.bbr.probe.doneStamp
                         || (s.bbr.probe.doneStamp == 0 && env.inFlight <= CWND_MIN_TARGET
                             && after.bbr.probe.doneStamp == U32(env.now + env.probeJiffies)))
                else && ProbeRttDone(s.bbr, env) && after.bbr.probe.doneStamp == s.bbr.probe.doneStamp
                     && after.sk.sndCwnd == Max(s.sk.sndCwnd, s.bbr.probe.priorCwnd)
                     && after.bbr.probe.minRttStamp == env.now
                     && (if s.bbr.pipe.reached then after.bbr.mode == ProbeBw && FreshCycle(after.bbr.cycle, env)
                         else after.bbr.mode == Startup && after.bbr.cycle == s.bbr.cycle))
  {
    if s.bbr.probe.doneStamp != 0 {
      var limit := U32(env.delivered + env.inFlight);
      var s1 := s.(sk := s.sk.(appLimited := if limit == 0 then 1 else limit));
      var s2 := if s1.bbr.roundStart then s1.(bbr := s1.bbr.(probe := s1.bbr.probe.(roundDone := true))) else s1;
      CheckProbeRttDoneFrame(s2, env);
    }
  }

  /** What the PROBE_RTT step can do: nothing to the mode, enter, stay, or leave. */
  lemma UpdateMinRttFrame(s: State, rs: Sample, env: Env)
    ensures var after := UpdateMinRtt(s, rs, env);
            && after.sk == s.sk.(sndCwnd := after.sk.sndCwnd, appLimited := after.sk.appLimited)
            && after.bbr == s.bbr.(mode := after.bbr.mode, cycle := after.bbr.cycle, probe := after.bbr.probe,
                                   nextRttDelivered := after.bbr.nextRttDelivered, idleRestart := after.bbr.idleRestart)
            && (if s.bbr.mode != ProbeRtt && !EntersProbeRtt(s.bbr, env)
                then && after.bbr.mode == s.bbr.mode && after.bbr.cycle == s.bbr.cycle
                     && after.sk.sndCwnd == s.sk.sndCwnd
                     && after.bbr.probe.priorCwnd == s.bbr.probe.priorCwnd
                else after.bbr.mode == ProbeRtt
                     || (if s.bbr.pipe.reached then after.bbr.mode == ProbeBw && FreshCycle(after.bbr.cycle, env)
                         else after.bbr.mode == Startup))
            && (after.bbr.mode == ProbeRtt ==> after.sk.sndCwnd == s.sk.sndCwnd && after.bbr.cycle == s.bbr.cycle)
  {
    var s1 := s.(bbr := TakeMinRtt(s.bbr, rs, FilterExpired(s.bbr, env), env));
    var s2 := if EntersProbeRtt(s.bbr, env) then EnterProbeRtt(s1) else s1;
    if s2.bbr.mode == ProbeRtt {
      StayFrame(s2, env);
    }
  }

  lemma SetPacingRateFrame(s: State, bw: u32, gain: u32, env: Env)
    ensures var after := SetPacingRate(s, bw, gain, env);
            && after.sk == s.sk.(pacingRate := after.sk.pacingRate)
            && after.bbr == s.bbr.(hasSeenRtt := after.bbr.hasSeenRtt)
  {
  }

  lemma SetCwndFrame(s: State, losses: s32, acked: u32, bw: u32, gain: u32, env: Env)
    ensures var after := SetCwnd(s, losses, acked, bw, gain, env);
            && after.sk == s.sk.(sndCwnd := after.sk.sndCwnd)
            && after.bbr == s.bbr.(prevCaState := after.bbr.prevCaState,
                                   packetConservation := after.bbr.packetConservation,
                                   nextRttDelivered := after.bbr.nextRttDelivered)
            && (s.bbr.mode == ProbeRtt ==> after.sk.sndCwnd <= CWND_MIN_TARGET)
  {
  }

  /** The state after the steps that can change the mode. */
  function AfterMinRtt(s: State, rs: Sample, env: Env): State {
    UpdateMinRtt(CheckDrain(UpdateEstimates(s, rs, env), env), rs, env)
  }

  /** What follows those steps sets gains, pacing and the window, and nothing else that matters. */
  lemma OnAckFrame(s: State, rs: Sample, env: Env)
    ensures var m, after := AfterMinRtt(s, rs, env), OnAck(s, rs, env);
            && after.bbr.mode == m.bbr.mode && after.bbr.lt == m.bbr.lt && after.bbr.agg == m.bbr.agg
            && after.bbr.pipe == m.bbr.pipe && after.bbr.probe == m.bbr.probe && after.bbr.cycle == m.bbr.cycle
            && after.bbr.pacingGain == UpdateGains(m.bbr).pacingGain
            && after.bbr.cwndGain == UpdateGains(m.bbr).cwndGain
            && after.bbr.idleRestart == m.bbr.idleRestart
            && (m.bbr.mode == ProbeRtt ==> after.sk.sndCwnd <= CWND_MIN_TARGET)
  {
    var s1 := UpdateModel(s, rs, env);
    SetPacingRateFrame(s1, Bw(s1.bbr), s1.bbr.pacingGain, env);
    var s2 := SetPacingRate(s1, Bw(s1.bbr), s1.bbr.pacingGain, env);
    SetCwndFrame(s2, rs.losses, rs.ackedSacked, Bw(s1.bbr), s1.bbr.cwndGain, env);
  }

  /** The state after gains and pacing rate have been set. */
  function Paced(m: State, env: Env): State {
    var s1 := m.(bbr := UpdateGains(m.bbr));
    SetPacingRate(s1, Bw(s1.bbr), s1.bbr.pacingGain, env)
  }

  lemma PacedFrame(m: State, env: Env)
    ensures var after := Paced(m, env);
            && after.sk == m.sk.(pacingRate := after.sk.pacingRate)
            && after.bbr == m.bbr.(hasSeenRtt := after.bbr.hasSeenRtt, pacingGain := after.bbr.pacingGain,
                                   cwndGain := after.bbr.cwndGain)
  {
    var s1 := m.(bbr := UpdateGains(m.bbr));
    SetPacingRateFrame(s1, Bw(s1.bbr), s1.bbr.pacingGain, env);
  }

  /** The state that the window update of an ACK starts from. */
  function BeforeWindow(s: State, rs: Sample, env: Env): State {
    Paced(AfterMinRtt(s, rs, env), env)
  }

  /** The window update of an ACK starts from that state and goes by its bandwidth and gain. */
  lemma AckSetsWindow(s: State, rs: Sample, env: Env)
    ensures var p := BeforeWindow(s, rs, env);
            OnAck(s, rs, env) == SetCwnd(p, rs.losses, rs.ackedSacked, Bw(p.bbr), p.bbr.cwndGain, env)
  {
    var s1 := UpdateModel(s, rs, env);
    SetPacingRateFrame(s1, Bw(s1.bbr), s1.bbr.pacingGain, env);
  }

  lemma SmallFrames(b: Block, sndCwnd: u32, rs: Sample, env: Env)
    ensures UpdateAggregation(b, sndCwnd, rs, env) == b.(agg := UpdateAggregation(b, sndCwnd, rs, env).agg)
    ensures UpdateCyclePhase(b, rs, env) == b.(cycle := UpdateCyclePhase(b, rs, env).cycle)
    ensures CheckFullBw(b, rs) == b.(pipe := CheckFullBw(b, rs).pipe)
  {
  }

  lemma EstimatesFrame(s: State, rs: Sample, env: Env)
    ensures var after := UpdateEstimates(s, rs, env);
            && after.sk == s.sk && after.bbr.mode == s.bbr.mode && after.bbr.probe == s.bbr.probe
            && after.bbr.idleRestart == s.bbr.idleRestart && after.bbr.prevCaState == s.bbr.prevCaState
            && after.bbr.lt == UpdateBw(s.bbr, rs, env).lt
            && after.bbr.agg == UpdateAggregation(UpdateBw(s.bbr, rs, env), s.sk.sndCwnd, rs, env).agg
  {
    UpdateBwFrame(s.bbr, rs, env);
    var b1 := UpdateBw(s.bbr, rs, env);
    SmallFrames(b1, s.sk.sndCwnd, rs, env);
    var b2 := UpdateAggregation(b1, s.sk.sndCwnd, rs, env);
    SmallFrames(b2, s.sk.sndCwnd, rs, env);
    SmallFrames(UpdateCyclePhase(b2, rs, env), s.sk.sndCwnd, rs, env);
  }

  lemma EstimatesKeepSeen(s: State, rs: Sample, env: Env)
    ensures UpdateEstimates(s, rs, env).bbr.hasSeenRtt == s.bbr.hasSeenRtt
  {
    LtSamplingFrame(StartRound(s.bbr.(roundStart := false), rs, env), rs.losses, rs.isAppLimited, env);
    var b1 := UpdateBw(s.bbr, rs, env);
    SmallFrames(b1, s.sk.sndCwnd, rs, env);
    var b2 := UpdateAggregation(b1, s.sk.sndCwnd, rs, env);
    SmallFrames(b2, s.sk.sndCwnd, rs, env);
    SmallFrames(UpdateCyclePhase(b2, rs, env), s.sk.sndCwnd, rs, env);
  }

  /** A run of two events, step by step. */
  lemma RunTwo(s: State, first: (Event, Env), second: (Event, Env))
    ensures Run(s, [first]) == Step(s, first.0, first.1)
    ensures Run(s, [first, second]) == Step(Step(s, first.0, first.1), second.0, second.1)
  {
    assert [first, second][..1] == [first];
    assert [first][..0] == [];
  }

  lemma InitFrame(sk: Sock, minRttUs: u32, env: Env)
    ensures var b := Init(sk, minRttUs, env).bbr;
            && b == FRESH.(nextRttDelivered := env.delivered, probe := Probe(minRttUs, env.now, 0, false, 0),
                           lt := ResetLt(FRESH.lt, env), agg := FRESH.agg.(epochMstamp := env.tcpMstamp),
                           hasSeenRtt := b.hasSeenRtt)
  {
  }
}
