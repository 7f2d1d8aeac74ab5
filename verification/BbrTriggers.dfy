/**
 Exactly when BBR's state machine moves: what ends DRAIN and the phases of the gain cycle, what begins and ends a
 visit to PROBE_RTT, and what bandwidth it goes by.
 */
module BbrTriggers {
  import opened Words
  import opened BbrRates
  import opened Bbr
  import opened BbrFrames
  import opened BbrModes
  import opened BbrProbeRtt
  import opened BbrRecovery
  import opened BbrGrowth
  import opened BbrCycle

  // ---------- packets in the network and in the path ----------

  /** Microseconds until the next segment departs. */
  function Wait(env: Env): nat {
    if env.wstampNs > env.clockCacheNs then (env.wstampNs - env.clockCacheNs) / 1000 else 0
  }

  /**
   What is in flight, with a burst more while pacing above the estimate, less what is delivered until the next
   departure.
   */
  function InNet(b: Block, inflight: nat, env: Env): nat {
    Max(0, inflight + (if b.pacingGain > BBR_UNIT then env.tsoSegsGoal else 0) - Bw(b) * Wait(env) / BW_UNIT)
  }

  lemma NetInPackets(b: Block, inflight: u32, env: Env)
    requires inflight + env.tsoSegsGoal < TWO32 && Bw(b) * Wait(env) < TWO32 * BW_UNIT
    ensures PacketsInNetAtEdt(b, inflight, env) == InNet(b, inflight, env)
  {
    assert Bw(b) * Wait(env) / BW_UNIT < TWO32;
  }

  /** The packets that fill the path at this bandwidth and gain, with room for three bursts. */
  lemma FillInPackets(b: Block, bw: u32, gain: u32, env: Env, product: nat)
    requires product == bw * b.probe.minRttUs * gain < TWO64 - TWO32 + BBR_UNIT && b.probe.minRttUs != NO_RTT
    requires PathPackets(product) + 3 * env.tsoSegsGoal + 3 < TWO32
    ensures Inflight(b, bw, gain, env)
            == EvenUp(PathPackets(product) + 3 * env.tsoSegsGoal)
               + if b.mode == ProbeBw && b.cycle.idx == 0 then 2 else 0
  {
    PathInPackets(bw, b.probe.minRttUs, gain, product);
    BudgetInPackets(b, PathPackets(product), env);
  }

  /** The clock does not run ahead so far, and the window does not grow so large, that the count wraps. */
  ghost predicate NetFits(b: Block, inflight: u32, env: Env) {
    inflight + env.tsoSegsGoal < TWO32 && Bw(b) * Wait(env) < TWO32 * BW_UNIT
  }

  /** The most that may be in the network at the end of DRAIN. */
  function Fill(b: Block, env: Env): nat {
    Inflight(b, b.maxBw, BBR_UNIT, env)
  }

  // ---------- DRAIN ----------

  /** A state that is to be drained: in DRAIN already, or in STARTUP with the pipe found full. */
  predicate ToDrain(b: Block) {
    b.mode == Drain || (b.mode == Startup && b.pipe.reached)
  }

  /**
   Draining ends exactly when no more is in the network than fills the path; the threshold remembers what that was.
   */
  lemma DrainStep(s: State, env: Env)
    requires ToDrain(s.bbr) && NetFits(s.bbr, env.inFlight, env)
    ensures var after := CheckDrain(s, env);
            var drained := InNet(s.bbr, env.inFlight, env) <= Fill(s.bbr.(mode := Drain), env);
            && after.bbr.mode == (if drained then ProbeBw else Drain)
            && after.sk.sndSsthresh
               == if s.bbr.mode == Startup then Fill(s.bbr.(mode := Drain), env) else s.sk.sndSsthresh
  {
    NetInPackets(s.bbr, env.inFlight, env);
    NetInPackets(s.bbr.(mode := Drain), env.inFlight, env);
    assert InNet(s.bbr.(mode := Drain), env.inFlight, env) == InNet(s.bbr, env.inFlight, env);
  }

  /** The step that may visit PROBE_RTT does nothing else to the mode. */
  lemma MinRttMode(s: State, rs: Sample, env: Env)
    requires !In(s.bbr)
    ensures UpdateMinRtt(s, rs, env).bbr.mode == if EntersProbeRtt(s.bbr, env) then ProbeRtt else s.bbr.mode
  {
  }

  /**
   The ACK that finds a state to be drained: without a visit to PROBE_RTT it ends in PROBE_BW if and only if no more is
   in the network than fills the path, and in DRAIN otherwise.
   */
  lemma DrainEndsIff(s: State, rs: Sample, env: Env)
    requires !In(s.bbr) && !In(OnAck(s, rs, env).bbr)
    requires ToDrain(UpdateEstimates(s, rs, env).bbr)
    requires NetFits(UpdateEstimates(s, rs, env).bbr, env.inFlight, env)
    ensures var b := UpdateEstimates(s, rs, env).bbr;
            OnAck(s, rs, env).bbr.mode
            == if InNet(b, env.inFlight, env) <= Fill(b.(mode := Drain), env) then ProbeBw else Drain
  {
    EstimatesFrame(s, rs, env);
    var s1 := UpdateEstimates(s, rs, env);
    DrainStep(s1, env);
    MinRttMode(CheckDrain(s1, env), rs, env);
    OnAckFrame(s, rs, env);
  }

  // ---------- PROBE_RTT ----------

  /** Ten seconds have passed since the smallest round-trip time was last confirmed. */
  predicate TenSecondsOld(stamp: u32, env: Env) {
    env.now > stamp + 10 * env.hz
  }

  lemma ExpiredIff(b: Block, env: Env)
    requires b.probe.minRttStamp + 10 * env.hz < TWO31 && env.now < TWO31
    ensures FilterExpired(b, env) <==> TenSecondsOld(b.probe.minRttStamp, env)
  {
  }

  lemma ModelEnters(s: State, rs: Sample, env: Env)
    requires !In(s.bbr)
    ensures In(AfterMinRtt(s, rs, env).bbr) <==> FilterExpired(s.bbr, env) && !s.bbr.idleRestart
  {
    EstimatesFrame(s, rs, env);
    var s1 := UpdateEstimates(s, rs, env);
    CheckDrainFrame(s1, env);
    MinRttMode(CheckDrain(s1, env), rs, env);
  }

  lemma AckEnters(s: State, rs: Sample, env: Env)
    requires !In(s.bbr)
    ensures In(OnAck(s, rs, env).bbr) <==> FilterExpired(s.bbr, env) && !s.bbr.idleRestart
  {
    ModelEnters(s, rs, env);
    OnAckFrame(s, rs, env);
  }

  /**
   An ACK enters PROBE_RTT if and only if the minimum is older than ten seconds and the flow does not restart from
   idle.
   */
  lemma EntersIff(s: State, rs: Sample, env: Env)
    requires !In(s.bbr) && s.bbr.probe.minRttStamp + 10 * env.hz < TWO31 && env.now < TWO31
    ensures In(OnAck(s, rs, env).bbr) <==> TenSecondsOld(s.bbr.probe.minRttStamp, env) && !s.bbr.idleRestart
  {
    AckEnters(s, rs, env);
    ExpiredIff(s.bbr, env);
  }

  /** A restart from idle that the application caused, until an ACK for new data. */
  function Restarting(s: State, events: seq<(Event, Env)>): bool {
    if events == [] then s.bbr.idleRestart
    else
      var k := |events| - 1;
      match events[k].0
      case Idle => Run(s, events[..k]).sk.appLimited != 0 || Restarting(s, events[..k])
      case Ack(rs) => rs.delivered <= 0 && Restarting(s, events[..k])
      case _ => Restarting(s, events[..k])
  }

  lemma AckRestarting(s: State, rs: Sample, env: Env)
    ensures OnAck(s, rs, env).bbr.idleRestart == (rs.delivered <= 0 && s.bbr.idleRestart)
  {
    EstimatesFrame(s, rs, env);
    CheckDrainFrame(UpdateEstimates(s, rs, env), env);
    MinRttRestarting(CheckDrain(UpdateEstimates(s, rs, env), env), rs, env);
    OnAckFrame(s, rs, env);
  }

  lemma MinRttRestarting(s: State, rs: Sample, env: Env)
    ensures UpdateMinRtt(s, rs, env).bbr.idleRestart == (rs.delivered <= 0 && s.bbr.idleRestart)
  {
    var s1 := s.(bbr := TakeMinRtt(s.bbr, rs, FilterExpired(s.bbr, env), env));
    var s2 := if EntersProbeRtt(s.bbr, env) then EnterProbeRtt(s1) else s1;
    if In(s2.bbr) {
      StayFrame(s2, env);
    }
  }

  lemma TxStartRestarting(s: State, env: Env)
    ensures TxStart(s, env).bbr.idleRestart == (s.sk.appLimited != 0 || s.bbr.idleRestart)
  {
    if s.sk.appLimited != 0 {
      var s1 := AtIdle(s, env);
      SetPacingRateFrame(s1, Bw(s1.bbr), BBR_UNIT, env);
      CheckProbeRttDoneFrame(s1, env);
    }
  }

  lemma StepRestarting(s: State, e: Event, env: Env)
    ensures Step(s, e, env).bbr.idleRestart
            == match e
               case Idle => s.sk.appLimited != 0 || s.bbr.idleRestart
               case Ack(rs) => rs.delivered <= 0 && s.bbr.idleRestart
               case _ => s.bbr.idleRestart
  {
    match e
    case Ack(rs) => AckRestarting(s, rs, env);
    case Idle => TxStartRestarting(s, env);
    case NewState(newState) => LtSamplingFrame(AtLoss(s.bbr), 1, false, env);
    case _ =>
  }

  /** Over any run, the flag that keeps a flow out of PROBE_RTT. */
  lemma {:induction false} RunRestarting(s: State, events: seq<(Event, Env)>)
    ensures Run(s, events).bbr.idleRestart == Restarting(s, events)
  {
    if events != [] {
      var k := |events| - 1;
      RunRestarting(s, events[..k]);
      StepRestarting(Run(s, events[..k]), events[k].0, events[k].1);
    }
  }

  // ---------- a visit, event by event ----------

  /** A block in which a round trip has just begun, or not. */
  lemma EstimatesRound(s: State, rs: Sample, env: Env)
    ensures UpdateEstimates(s, rs, env).bbr.roundStart == NewRound(s.bbr, rs)
  {
    LtSamplingFrame(StartRound(s.bbr.(roundStart := false), rs, env), rs.losses, rs.isAppLimited, env);
    var b1 := UpdateBw(s.bbr, rs, env);
    SmallFrames(b1, s.sk.sndCwnd, rs, env);
    var b2 := UpdateAggregation(b1, s.sk.sndCwnd, rs, env);
    SmallFrames(b2, s.sk.sndCwnd, rs, env);
    SmallFrames(UpdateCyclePhase(b2, rs, env), s.sk.sndCwnd, rs, env);
  }

  /** An ACK in the mode, `round` saying that a round trip begins with it. */
  ghost predicate VisitMove(s: State, round: bool, env: Env, after: State) {
    var p, q := s.bbr.probe, after.bbr.probe;
    && (!In(after.bbr) <==> p.doneStamp != 0 && After(env.now, p.doneStamp) && (p.roundDone || round))
    && (if p.doneStamp != 0 then q.doneStamp == p.doneStamp && (q.roundDone <==> p.roundDone || round)
        else if env.inFlight <= 4
        then q.doneStamp == U32(env.now + env.probeJiffies) && !q.roundDone
             && after.bbr.nextRttDelivered == env.delivered
        else q.doneStamp == 0)
  }

  lemma StayMoves(s: State, env: Env)
    requires In(s.bbr)
    ensures VisitMove(s, s.bbr.roundStart, env, StayInProbeRtt(s, env))
    ensures var limit := U32(env.delivered + env.inFlight);
            StayInProbeRtt(s, env).sk.appLimited == Max(1, limit)
  {
    var limit := U32(env.delivered + env.inFlight);
    var s1 := s.(sk := s.sk.(appLimited := if limit == 0 then 1 else limit));
    var s2 := if s1.bbr.roundStart then s1.(bbr := s1.bbr.(probe := s1.bbr.probe.(roundDone := true))) else s1;
    CheckProbeRttDoneFrame(s2, env);
  }

  lemma MinRttMoves(s: State, rs: Sample, env: Env)
    requires In(s.bbr)
    ensures VisitMove(s, s.bbr.roundStart, env, UpdateMinRtt(s, rs, env))
    ensures UpdateMinRtt(s, rs, env).sk.appLimited == Max(1, U32(env.delivered + env.inFlight))
  {
    var s1 := s.(bbr := TakeMinRtt(s.bbr, rs, FilterExpired(s.bbr, env), env));
    StayMoves(s1, env);
  }

  /** The outputs of an ACK leave the visit alone, and in the mode the end of the round. */
  lemma OutputsMove(s: State, rs: Sample, env: Env)
    ensures var m, after := AfterMinRtt(s, rs, env), OnAck(s, rs, env);
            && after.bbr.probe == m.bbr.probe && after.bbr.mode == m.bbr.mode && after.sk.appLimited == m.sk.appLimited
            && (after.bbr.nextRttDelivered == m.bbr.nextRttDelivered || after.bbr.nextRttDelivered == env.delivered)
  {
    AckSetsWindow(s, rs, env);
    PacedFrame(AfterMinRtt(s, rs, env), env);
    var p := BeforeWindow(s, rs, env);
    SetCwndFrame(p, rs.losses, rs.ackedSacked, Bw(p.bbr), p.bbr.cwndGain, env);
    RoundEndKept(p, rs.losses, rs.ackedSacked, Bw(p.bbr), p.bbr.cwndGain, env);
  }

  lemma RoundEndKept(p: State, losses: s32, acked: u32, bw: u32, gain: u32, env: Env)
    ensures var after := SetCwnd(p, losses, acked, bw, gain, env).bbr.nextRttDelivered;
            after == p.bbr.nextRttDelivered || after == env.delivered
  {
  }

  /**
   Exactly what an ACK does to a visit. It ends the visit if and only if its end has been set and has passed, and a
   round trip has begun since or begins now; the end is set by the first ACK that finds at most four packets in
   flight, and no other. Meanwhile the flow counts as limited by the application.
   */
  lemma VisitEndsIff(s: State, rs: Sample, env: Env)
    requires In(s.bbr)
    ensures VisitMove(s, NewRound(s.bbr, rs), env, OnAck(s, rs, env))
    ensures OnAck(s, rs, env).sk.appLimited == Max(1, U32(env.delivered + env.inFlight))
  {
    EstimatesRound(s, rs, env);
    EstimatesFrame(s, rs, env);
    var s1 := UpdateEstimates(s, rs, env);
    CheckDrainFrame(s1, env);
    assert CheckDrain(s1, env) == s1;
    MinRttMoves(s1, rs, env);
    OutputsMove(s, rs, env);
  }

  /**
   The ACK that enters the mode sets its end at once if it finds at most four packets in flight, and clears it
   otherwise.
   */
  lemma EntrySetsEnd(s: State, rs: Sample, env: Env)
    requires !In(s.bbr) && In(OnAck(s, rs, env).bbr)
    ensures var after := OnAck(s, rs, env);
            && after.bbr.probe.doneStamp == (if env.inFlight <= 4 then U32(env.now + env.probeJiffies) else 0)
            && (env.inFlight <= 4 ==> !after.bbr.probe.roundDone && after.bbr.nextRttDelivered == env.delivered)
            && after.sk.appLimited == Max(1, U32(env.delivered + env.inFlight))
  {
    EstimatesFrame(s, rs, env);
    var s1 := UpdateEstimates(s, rs, env);
    CheckDrainFrame(s1, env);
    OutputsMove(s, rs, env);
    EntryMoves(CheckDrain(s1, env), rs, env);
  }

  lemma EntryMoves(s: State, rs: Sample, env: Env)
    requires !In(s.bbr) && In(UpdateMinRtt(s, rs, env).bbr)
    ensures var after := UpdateMinRtt(s, rs, env);
            && after.bbr.probe.doneStamp == (if env.inFlight <= 4 then U32(env.now + env.probeJiffies) else 0)
            && (env.inFlight <= 4 ==> !after.bbr.probe.roundDone && after.bbr.nextRttDelivered == env.delivered)
            && after.sk.appLimited == Max(1, U32(env.delivered + env.inFlight))
  {
    MinRttMode(s, rs, env);
    var s1 := s.(bbr := TakeMinRtt(s.bbr, rs, FilterExpired(s.bbr, env), env));
    StayMoves(EnterProbeRtt(s1), env);
  }

  /**
   A restart from idle ends it if and only if the application was the limit and the end has been set and has passed.
   */
  lemma IdleEndsIff(s: State, env: Env)
    requires In(s.bbr)
    ensures !In(TxStart(s, env).bbr)
            <==> s.sk.appLimited != 0 && s.bbr.probe.doneStamp != 0 && After(env.now, s.bbr.probe.doneStamp)
  {
    CheckProbeRttDoneFrame(AtIdle(s, env), env);
  }

  // ---------- the gain cycle ----------

  /** The time from one stamp to the next, and none if they are out of order. */
  function Elapsed(t1: u64, t0: u64): nat {
    if t1 > t0 then t1 - t0 else 0
  }

  /**
   A phase at the estimate lasts one smallest round-trip time; one above it also until losses or a full path; one
   below it at most.
   */
  ghost predicate PhaseOver(b: Block, rs: Sample, env: Env) {
    var isLong := Elapsed(env.deliveredMstamp, b.cycle.mstamp) > b.probe.minRttUs;
    var net := InNet(b, rs.priorInFlight, env);
    if b.pacingGain == BBR_UNIT then isLong
    else if b.pacingGain > BBR_UNIT then isLong && (rs.losses != 0 || net >= Inflight(b, b.maxBw, b.pacingGain, env))
    else isLong || net <= Fill(b, env)
  }

  lemma PhaseOverIff(b: Block, rs: Sample, env: Env)
    requires NetFits(b, rs.priorInFlight, env) && Elapsed(env.deliveredMstamp, b.cycle.mstamp) < TWO32
    ensures NextCyclePhase(b, rs, env) <==> PhaseOver(b, rs, env)
  {
    NetInPackets(b, rs.priorInFlight, env);
  }

  /** In PROBE_BW, with no policed rate running out, an ACK ends the phase if and only if it is over. */
  lemma PhaseEndsIff(s: State, rs: Sample, env: Env)
    requires Sane(s.bbr) && s.bbr.mode == ProbeBw && !Expires(s, Ack(rs), env)
    requires NetFits(BeforeCycle(s, rs, env), rs.priorInFlight, env)
    requires Elapsed(env.deliveredMstamp, s.bbr.cycle.mstamp) < TWO32
    ensures OnAck(s, rs, env).bbr.cycle
            == if PhaseOver(BeforeCycle(s, rs, env), rs, env)
               then Cycle((s.bbr.cycle.idx + 1) % 8, env.deliveredMstamp) else s.bbr.cycle
  {
    UpdateBwCycle(s, rs, env);
    UpdateBwFrame(s.bbr, rs, env);
    BeforeCycleFrame(s, rs, env);
    PhaseOverIff(BeforeCycle(s, rs, env), rs, env);
    OnAckCycle(s, rs, env);
  }

  /** The random start of the cycle reaches every phase but the draining one. */
  lemma StartPhases(b: Block, env: Env, phase: nat)
    requires phase < 8
    ensures (exists r: u32 :: ResetProbeBw(b, env.(rand := r)).cycle == Cycle(phase, env.deliveredMstamp))
            <==> phase != 1
  {
    var r: u32 := if phase == 0 then 0 else if phase == 1 then 0 else 8 - phase;
    assert phase != 1 ==> ResetProbeBw(b, env.(rand := r)).cycle == Cycle(phase, env.deliveredMstamp);
  }

  // ---------- the bandwidth ----------

  lemma UpdateBwTakes(b: Block, rs: Sample, env: Env)
    ensures UpdateBw(b, rs, env).maxBw
            == if rs.delivered >= 0 && rs.intervalUs > 0
                  && (!rs.isAppLimited || rs.delivered * BW_UNIT / rs.intervalUs >= b.maxBw)
               then env.filteredBw else b.maxBw
  {
    if rs.delivered >= 0 && rs.intervalUs > 0 {
      LtSamplingFrame(StartRound(b.(roundStart := false), rs, env), rs.losses, rs.isAppLimited, env);
      DivIsQuotient(rs.delivered * BW_UNIT, rs.intervalUs);
    }
  }

  /** The filter takes every valid sample, except one below its maximum that the application limited. */
  lemma BandwidthTaken(s: State, rs: Sample, env: Env)
    ensures OnAck(s, rs, env).bbr.maxBw
            == if rs.delivered >= 0 && rs.intervalUs > 0
                  && (!rs.isAppLimited || rs.delivered * BW_UNIT / rs.intervalUs >= s.bbr.maxBw)
               then env.filteredBw else s.bbr.maxBw
  {
    UpdateBwTakes(s.bbr, rs, env);
    var b1 := UpdateBw(s.bbr, rs, env);
    SmallFrames(b1, s.sk.sndCwnd, rs, env);
    var b2 := UpdateAggregation(b1, s.sk.sndCwnd, rs, env);
    SmallFrames(b2, s.sk.sndCwnd, rs, env);
    SmallFrames(UpdateCyclePhase(b2, rs, env), s.sk.sndCwnd, rs, env);
    CheckDrainFrame(UpdateEstimates(s, rs, env), env);
    UpdateMinRttFrame(CheckDrain(UpdateEstimates(s, rs, env), env), rs, env);
    PacedFrame(AfterMinRtt(s, rs, env), env);
    AckSetsWindow(s, rs, env);
    var p := BeforeWindow(s, rs, env);
    SetCwndFrame(p, rs.losses, rs.ackedSacked, Bw(p.bbr), p.bbr.cwndGain, env);
  }

  // ---------- the excess of acknowledged packets ----------

  /** Packets expected in this time at this bandwidth. */
  function Expected(b: Block, a: Agg, env: Env): nat {
    Bw(b) * Elapsed(env.deliveredMstamp, a.epochMstamp) / BW_UNIT
  }

  /**
   What an ACK counts: the packets of the epoch, and how many more they are than expected. An epoch that has fallen
   behind, or would outgrow its 20 bits, begins anew with this ACK.
   */
  lemma ExcessIs(b: Block, a: Agg, acked: u32, env: Env)
    requires a.epochAcked <= ACK_EPOCH_ACKED_MAX && a.epochAcked + acked < TWO32
    requires Elapsed(env.deliveredMstamp, a.epochMstamp) < TWO32 && Expected(b, a, env) < TWO32
    ensures var (after, excess), expected := CountAcked(b, a, acked, env), Expected(b, a, env);
            if a.epochAcked <= expected || a.epochAcked + acked >= 0x10_0000
            then && after == a.(epochMstamp := env.deliveredMstamp, epochAcked := Min(0xF_FFFF, acked))
                 && excess == after.epochAcked
            else && after == a.(epochAcked := a.epochAcked + acked)
                 && excess == a.epochAcked + acked - expected
  {
    BandwidthTimeFits(Bw(b), Elapsed(env.deliveredMstamp, a.epochMstamp));
  }

  lemma BandwidthTimeFits(bw: u32, us: nat)
    requires us < TWO32
    ensures 0 <= bw * us < TWO64
  {
    ProductAtMost(bw, us, TWO32 - 1, TWO32 - 1);
  }

  // ---------- restarts of the estimates ----------

  /**
   After an undo or a timeout the full-pipe detector has no reference, so that the next bandwidth it sees counts as
   growth.
   */
  lemma DetectorRestarts(s: State, bw: u32, env: Env)
    requires !s.bbr.pipe.reached
    ensures var undone, lost := Step(s, Undo, env), Step(s, NewState(TCP_CA_LOSS), env);
            && Detect(undone.bbr.pipe, bw) == Pipe(bw, 0, false) && Detect(lost.bbr.pipe, bw) == Pipe(bw, 0, false)
            && undone.sk == s.sk && lost.sk == s.sk
            && !undone.bbr.lt.useBw && !undone.bbr.lt.isSampling
            && lost.bbr.prevCaState == TCP_CA_LOSS && lost.bbr.roundStart
  {
    LtSamplingFrame(AtLoss(s.bbr), 1, false, env);
  }
}
