/**
 BBR's outputs: the window after an ACK and over whole runs, and the pacing rate before the pipe is full.
 */
module BbrWindow {
  import opened Words
  import opened BbrRates
  import opened Bbr
  import opened BbrFrames

  // ---------- the window ----------

  /**
   Outside PROBE_RTT and packet conservation an ACK lets the window grow by no more than the packets it acknowledges,
   never leaves it below four, never cuts it before the pipe is full, and afterwards never leaves it above the target.
   */
  lemma WindowAfterAck(s: State, losses: s32, acked: u32, bw: u32, gain: u32, env: Env)
    requires acked > 0 && s.bbr.mode != ProbeRtt
    requires !RecoverOrRestore(s, losses, acked, env).2 && RecoverOrRestore(s, losses, acked, env).1 + acked < TWO32
    ensures var (b, cwnd, _) := RecoverOrRestore(s, losses, acked, env);
            var next := SetCwnd(s, losses, acked, bw, gain, env).sk.sndCwnd;
            && Min(env.sndCwndClamp, CWND_MIN_TARGET) <= next <= Max(cwnd + acked, CWND_MIN_TARGET)
            && (!b.pipe.reached ==> next >= Min(env.sndCwndClamp, cwnd))
            && (b.pipe.reached ==> next <= Max(TargetCwnd(b, bw, gain, env), CWND_MIN_TARGET))
  {
  }

  /**
   Recovery: entering it conserves packets, one sent per packet acknowledged; while that lasts the window covers
   exactly what is in flight or more; losses are taken off first; and leaving gives back at least the window saved on
   entry.
   */
  lemma RecoveryWindow(s: State, losses: s32, acked: u32, env: Env)
    requires losses >= 0 && s.sk.sndCwnd < TWO31 && env.inFlight + acked < TWO32
    ensures var (b, cwnd, conserve) := RecoverOrRestore(s, losses, acked, env);
            && b.prevCaState == env.caState
            && (env.caState == TCP_CA_RECOVERY && s.bbr.prevCaState != TCP_CA_RECOVERY ==>
                  conserve && cwnd == env.inFlight + acked)
            && (conserve ==> cwnd >= env.inFlight + acked)
            && (s.bbr.prevCaState >= TCP_CA_RECOVERY && env.caState < TCP_CA_RECOVERY ==>
                  !conserve && cwnd >= s.bbr.probe.priorCwnd)
            && (s.bbr.prevCaState == env.caState && !s.bbr.packetConservation ==>
                  cwnd == if losses == 0 then s.sk.sndCwnd else Max(s.sk.sndCwnd - losses, 1))
  {
  }

  // ---------- the window over runs ----------

  /** The largest window that the state may return to: the present one, the saved one, or four packets. */
  function Peak(s: State): nat {
    Max(Max(s.sk.sndCwnd, s.bbr.probe.priorCwnd), CWND_MIN_TARGET)
  }

  lemma UpdateMinRttPeak(s: State, rs: Sample, env: Env)
    ensures Peak(UpdateMinRtt(s, rs, env)) == Peak(s)
  {
    var s1 := s.(bbr := TakeMinRtt(s.bbr, rs, FilterExpired(s.bbr, env), env));
    var s2 := if EntersProbeRtt(s.bbr, env) then EnterProbeRtt(s1) else s1;
    if s2.bbr.mode == ProbeRtt {
      StayFrame(s2, env);
    }
  }

  lemma RecoverPeak(s: State, losses: s32, acked: u32, env: Env)
    requires env.inFlight <= Peak(s)
    ensures var (b, cwnd, conserve) := RecoverOrRestore(s, losses, acked, env);
            cwnd <= Peak(s) + (if conserve then acked else 0)
  {
  }

  lemma SetCwndPeak(s: State, losses: s32, acked: u32, bw: u32, gain: u32, env: Env)
    requires env.inFlight <= Peak(s)
    ensures Peak(SetCwnd(s, losses, acked, bw, gain, env)) <= Peak(s) + acked
  {
    RecoverPeak(s, losses, acked, env);
    SetCwndFrame(s, losses, acked, bw, gain, env);
  }

  lemma ModelPeak(s: State, rs: Sample, env: Env)
    ensures Peak(AfterMinRtt(s, rs, env)) == Peak(s)
  {
    EstimatesFrame(s, rs, env);
    CheckDrainFrame(UpdateEstimates(s, rs, env), env);
    UpdateMinRttPeak(CheckDrain(UpdateEstimates(s, rs, env), env), rs, env);
  }

  lemma BeforeWindowPeak(s: State, rs: Sample, env: Env)
    ensures Peak(BeforeWindow(s, rs, env)) == Peak(s)
  {
    ModelPeak(s, rs, env);
    PacedFrame(AfterMinRtt(s, rs, env), env);
  }

  lemma OnAckPeak(s: State, rs: Sample, env: Env)
    requires env.inFlight <= Peak(s)
    ensures Peak(OnAck(s, rs, env)) <= Peak(s) + rs.ackedSacked
  {
    BeforeWindowPeak(s, rs, env);
    var s1 := UpdateModel(s, rs, env);
    SetCwndPeak(BeforeWindow(s, rs, env), rs.losses, rs.ackedSacked, Bw(s1.bbr), s1.bbr.cwndGain, env);
  }

  // ---------- the pacing rate ----------

  lemma SetPacingRateRises(s: State, bw: u32, gain: u32, env: Env)
    requires !s.bbr.pipe.reached
    ensures var after := SetPacingRate(s, bw, gain, env);
            && after.bbr.hasSeenRtt == (s.bbr.hasSeenRtt || env.srttUs != 0)
            && (after.sk.pacingRate < s.sk.pacingRate ==> !s.bbr.hasSeenRtt && env.srttUs != 0)
  {
  }

  /** One ACK lowers the pacing rate only once the pipe has been full, or when it brings the first round-trip time. */
  lemma AckPacing(s: State, rs: Sample, env: Env)
    ensures var after := OnAck(s, rs, env);
            && (s.bbr.hasSeenRtt ==> after.bbr.hasSeenRtt)
            && (after.sk.pacingRate < s.sk.pacingRate ==>
                  after.bbr.pipe.reached || (!s.bbr.hasSeenRtt && env.srttUs != 0))
  {
    EstimatesFrame(s, rs, env);
    EstimatesKeepSeen(s, rs, env);
    CheckDrainFrame(UpdateEstimates(s, rs, env), env);
    UpdateMinRttFrame(CheckDrain(UpdateEstimates(s, rs, env), env), rs, env);
    var s1 := UpdateModel(s, rs, env);
    assert s1.sk.pacingRate == s.sk.pacingRate && s1.bbr.hasSeenRtt == s.bbr.hasSeenRtt;
    SetPacingRateFrame(s1, Bw(s1.bbr), s1.bbr.pacingGain, env);
    var s2 := SetPacingRate(s1, Bw(s1.bbr), s1.bbr.pacingGain, env);
    SetCwndFrame(s2, rs.losses, rs.ackedSacked, Bw(s1.bbr), s1.bbr.cwndGain, env);
    if !s1.bbr.pipe.reached {
      SetPacingRateRises(s1, Bw(s1.bbr), s1.bbr.pacingGain, env);
    }
  }

  lemma AckKeepsVerdict(s: State, rs: Sample, env: Env)
    ensures s.bbr.pipe.reached ==> OnAck(s, rs, env).bbr.pipe.reached
  {
    UpdateBwFrame(s.bbr, rs, env);
    var b1 := UpdateBw(s.bbr, rs, env);
    SmallFrames(b1, s.sk.sndCwnd, rs, env);
    var b2 := UpdateAggregation(b1, s.sk.sndCwnd, rs, env);
    SmallFrames(b2, s.sk.sndCwnd, rs, env);
    CheckDrainFrame(UpdateEstimates(s, rs, env), env);
    UpdateMinRttFrame(CheckDrain(UpdateEstimates(s, rs, env), env), rs, env);
    OnAckFrame(s, rs, env);
  }

  lemma TxStartOutputs(s: State, env: Env)
    ensures var after := TxStart(s, env);
            && Peak(after) == Peak(s) && after.bbr.pipe == s.bbr.pipe && (s.bbr.hasSeenRtt ==> after.bbr.hasSeenRtt)
            && (s.bbr.hasSeenRtt && !s.bbr.pipe.reached ==> after.sk.pacingRate >= s.sk.pacingRate)
  {
    if s.sk.appLimited != 0 {
      var s1 := AtIdle(s, env);
      SetPacingRateFrame(s1, Bw(s1.bbr), BBR_UNIT, env);
      CheckProbeRttDoneFrame(s1, env);
      if !s.bbr.pipe.reached {
        SetPacingRateRises(s1, Bw(s1.bbr), BBR_UNIT, env);
      }
    }
  }

  // ---------- over runs ----------

  /**
   What was in flight had been allowed by a window, and the kernel does not raise the window or lower the rate itself.
   */
  ghost predicate Tame(s: State, e: Event, env: Env) {
    match e
    case Ack(_) => env.inFlight <= Peak(s)
    case Kernel(sk) => sk.sndCwnd <= Peak(s) && sk.pacingRate >= s.sk.pacingRate
    case _ => true
  }

  ghost predicate TameRun(s: State, events: seq<(Event, Env)>) {
    forall i :: 0 <= i < |events| ==> Tame(Run(s, events[..i]), events[i].0, events[i].1)
  }

  function AckedBy(e: Event): nat {
    if e.Ack? then e.rs.ackedSacked else 0
  }

  function TotalAcked(events: seq<(Event, Env)>): nat {
    if events == [] then 0 else TotalAcked(events[..|events| - 1]) + AckedBy(events[|events| - 1].0)
  }

  /** One event, as far as the window and the rate are concerned. */
  ghost predicate OutputStep(s: State, after: State, acked: nat) {
    && Peak(after) <= Peak(s) + acked
    && (s.bbr.hasSeenRtt ==> after.bbr.hasSeenRtt)
    && (s.bbr.pipe.reached ==> after.bbr.pipe.reached)
    && (s.bbr.hasSeenRtt && !after.bbr.pipe.reached ==> after.sk.pacingRate >= s.sk.pacingRate)
  }

  lemma StepOutputs(s: State, e: Event, env: Env)
    requires Tame(s, e, env)
    ensures OutputStep(s, Step(s, e, env), AckedBy(e))
  {
    match e
    case Ack(rs) =>
      OnAckPeak(s, rs, env);
      AckPacing(s, rs, env);
      AckKeepsVerdict(s, rs, env);
    case Idle => TxStartOutputs(s, env);
    case NewState(newState) =>
      LtSamplingFrame(AtLoss(s.bbr), 1, false, env);
    case _ =>
  }

  /**
   Over any run, through recoveries and visits to PROBE_RTT: no window grows without ACKs. The largest window that the
   flow may have or return to rises by no more than the packets acknowledged; and until the pipe has been full the
   pacing rate does not fall, once a round-trip time has been seen.
   */
  lemma {:induction false} RunOutputs(s: State, events: seq<(Event, Env)>)
    requires TameRun(s, events)
    ensures OutputStep(s, Run(s, events), TotalAcked(events))
  {
    if events != [] {
      var k := |events| - 1;
      var init := events[..k];
      assert forall i :: 0 <= i < k ==> init[..i] == events[..i];
      RunOutputs(s, init);
      StepOutputs(Run(s, init), events[k].0, events[k].1);
    }
  }
}
