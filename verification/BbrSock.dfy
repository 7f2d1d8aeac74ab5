/**
 BBR as the original runs it: each step updates the socket and the control block in
 place, and is proved against its function in `Bbr`.
 */
module BbrSock {
  import opened Words
  import opened BbrRates
  import opened Bbr

  class Socket {
    var sndCwnd: u32
    var sndSsthresh: u32
    var appLimited: u32
    var pacingRate: u64
    /** `struct bbr`, which lives inside the socket (`icsk_ca_priv`). */
    var bbr: Block

    function View(): State
      reads this
    {
      State(Sock(sndCwnd, sndSsthresh, appLimited, pacingRate), bbr)
    }

    constructor (sk: Sock, minRttUs: u32, env: Env)
      ensures View() == Init(sk, minRttUs, env)
    {
      sndCwnd, sndSsthresh, appLimited, pacingRate := sk.sndCwnd, 0x7FFF_FFFF, sk.appLimited, sk.pacingRate;
      bbr := FRESH.(nextRttDelivered := env.delivered, probe := Probe(minRttUs, env.now, 0, false, 0));
      new;
      InitPacingRateInPlace(env);
      ResetLtInPlace(env);
      bbr := bbr.(agg := bbr.agg.(epochMstamp := env.tcpMstamp));
    }

    // ---------- modes ----------

    method AdvanceCyclePhaseInPlace(env: Env)
      modifies this`bbr
      ensures bbr == AdvanceCyclePhase(old(bbr), env)
    {
      bbr := bbr.(cycle := bbr.cycle.(idx := (bbr.cycle.idx + 1) % CYCLE_LEN));
      bbr := bbr.(cycle := bbr.cycle.(mstamp := env.deliveredMstamp));
    }

    method ResetProbeBwInPlace(env: Env)
      modifies this`bbr
      ensures bbr == ResetProbeBw(old(bbr), env)
    {
      bbr := bbr.(mode := ProbeBw);
      bbr := bbr.(cycle := bbr.cycle.(idx := CYCLE_LEN - 1 - env.rand % 7));
      AdvanceCyclePhaseInPlace(env);
    }

    method ResetModeInPlace(env: Env)
      modifies this`bbr
      ensures bbr == ResetMode(old(bbr), env)
    {
      if !bbr.pipe.reached {
        bbr := bbr.(mode := Startup);
      } else {
        ResetProbeBwInPlace(env);
      }
    }

    // ---------- the long-term estimator ----------

    method ResetLtIntervalInPlace(env: Env)
      modifies this`bbr
      ensures bbr == old(bbr).(lt := ResetLtInterval(old(bbr).lt, env))
    {
      bbr := bbr.(lt := bbr.lt.(lastStamp := U32(env.deliveredMstamp / 1000)));
      bbr := bbr.(lt := bbr.lt.(lastDelivered := env.delivered, lastLost := env.lost, rttCnt := 0));
    }

    method ResetLtInPlace(env: Env)
      modifies this`bbr
      ensures bbr == old(bbr).(lt := ResetLt(old(bbr).lt, env))
    {
      bbr := bbr.(lt := bbr.lt.(bw := 0, useBw := false, isSampling := false));
      ResetLtIntervalInPlace(env);
    }

    method LtIntervalDoneInPlace(bw: u32, env: Env)
      modifies this`bbr
      ensures bbr == LtIntervalDone(old(bbr), bw, env)
    {
      if bbr.lt.bw != 0 {
        var diff := Abs(S32(bw - bbr.lt.bw));
        if U32(diff * BBR_UNIT) <= U32(LT_BW_RATIO * bbr.lt.bw)
           || RateBytesPerSec(diff, env.mss, BBR_UNIT) <= LT_BW_DIFF {
          bbr := bbr.(lt := bbr.lt.(bw := U32(bw + bbr.lt.bw) / 2, useBw := true, rttCnt := 0));
          bbr := bbr.(pacingGain := BBR_UNIT);
          return;
        }
      }
      bbr := bbr.(lt := bbr.lt.(bw := bw));
      ResetLtIntervalInPlace(env);
    }

    method LtEndIntervalInPlace(env: Env)
      modifies this`bbr
      ensures bbr == LtEndInterval(old(bbr), env)
    {
      var lost: int := U32(env.lost - bbr.lt.lastLost);
      var delivered: int := U32(env.delivered - bbr.lt.lastDelivered);
      if delivered == 0 || U32(lost * 256) < U32(LT_LOSS_THRESH * delivered) {
        return;
      }
      var t: int := U32(env.deliveredMstamp / 1000 - bbr.lt.lastStamp);
      if S32(t) < 1 {
        return;
      }
      if t >= 0xFFFF_FFFF / 1000 {
        ResetLtInPlace(env);
        return;
      }
      t := t * 1000;
      var bw := Div(U64(delivered * BW_UNIT), t);
      LtIntervalDoneInPlace(U32(bw), env);
    }

    method LtSamplingInPlace(losses: s32, isAppLimited: bool, env: Env)
      modifies this`bbr
      ensures bbr == LtSampling(old(bbr), losses, isAppLimited, env)
    {
      if bbr.lt.useBw {
        if bbr.mode == ProbeBw && bbr.roundStart {
          bbr := bbr.(lt := bbr.lt.(rttCnt := Bits(bbr.lt.rttCnt + 1, 128)));
          if bbr.lt.rttCnt >= LT_BW_MAX_RTTS {
            ResetLtInPlace(env);
            ResetProbeBwInPlace(env);
          }
        }
        return;
      }
      if !bbr.lt.isSampling {
        if losses == 0 {
          return;
        }
        ResetLtIntervalInPlace(env);
        bbr := bbr.(lt := bbr.lt.(isSampling := true));
      }
      if isAppLimited {
        ResetLtInPlace(env);
        return;
      }
      if bbr.roundStart {
        bbr := bbr.(lt := bbr.lt.(rttCnt := Bits(bbr.lt.rttCnt + 1, 128)));
      }
      if bbr.lt.rttCnt < LT_INTVL_MIN_RTTS {
        return;
      }
      if bbr.lt.rttCnt > 4 * LT_INTVL_MIN_RTTS {
        ResetLtInPlace(env);
        return;
      }
      if losses == 0 {
        return;
      }
      LtEndIntervalInPlace(env);
    }

    // ---------- the model ----------

    method StartRoundInPlace(rs: Sample, env: Env)
      modifies this`bbr
      ensures bbr == StartRound(old(bbr), rs, env)
    {
      if !Before(rs.priorDelivered, bbr.nextRttDelivered) {
        bbr := bbr.(nextRttDelivered := env.delivered, rttCnt := U32(bbr.rttCnt + 1));
        bbr := bbr.(roundStart := true, packetConservation := false);
      }
    }

    method UpdateBwInPlace(rs: Sample, env: Env)
      modifies this`bbr
      ensures bbr == UpdateBw(old(bbr), rs, env)
    {
      bbr := bbr.(roundStart := false);
      if rs.delivered < 0 || rs.intervalUs <= 0 {
        return;
      }
      StartRoundInPlace(rs, env);
      LtSamplingInPlace(rs.losses, rs.isAppLimited, env);
      var bw := Div(rs.delivered * BW_UNIT, rs.intervalUs);
      if !rs.isAppLimited || bw >= bbr.maxBw {
        bbr := bbr.(maxBw := env.filteredBw);
      }
    }

    method RotateSlotsInPlace()
      modifies this`bbr
      ensures bbr == old(bbr).(agg := RotateSlots(old(bbr).agg))
    {
      bbr := bbr.(agg := bbr.agg.(winRtts := Min(0x1F, bbr.agg.winRtts + 1)));
      if bbr.agg.winRtts >= EXTRA_ACKED_WIN_RTTS {
        bbr := bbr.(agg := bbr.agg.(winRtts := 0, winIdx := if bbr.agg.winIdx != 0 then 0 else 1));
        bbr := bbr.(agg := if bbr.agg.winIdx == 0 then bbr.agg.(slot0 := 0) else bbr.agg.(slot1 := 0));
      }
    }

    method UpdateAggregationInPlace(rs: Sample, env: Env)
      modifies this`bbr
      ensures bbr == UpdateAggregation(old(bbr), sndCwnd, rs, env)
    {
      if rs.ackedSacked == 0 || rs.delivered < 0 || rs.intervalUs <= 0 {
        return;
      }
      if bbr.roundStart {
        RotateSlotsInPlace();
      }
      var extra := CountAckedInPlace(rs.ackedSacked, env);
      RecordInPlace(Min(extra, sndCwnd));
    }

    method RecordInPlace(extra: u32)
      modifies this`bbr
      ensures bbr == old(bbr).(agg := Record(old(bbr).agg, extra))
    {
      if bbr.agg.winIdx == 0 {
        if extra > bbr.agg.slot0 {
          bbr := bbr.(agg := bbr.agg.(slot0 := U16(extra)));
        }
      } else if extra > bbr.agg.slot1 {
        bbr := bbr.(agg := bbr.agg.(slot1 := U16(extra)));
      }
    }

    method CountAckedInPlace(acked: u32, env: Env) returns (extra: u32)
      modifies this`bbr
      ensures (bbr.agg, extra) == CountAcked(old(bbr), old(bbr).agg, acked, env)
      ensures bbr == old(bbr).(agg := bbr.agg)
    {
      var expected := ExpectedAcked(bbr, bbr.agg, env);
      if bbr.agg.epochAcked <= expected || U32(bbr.agg.epochAcked + acked) >= TWO20 {
        bbr := bbr.(agg := bbr.agg.(epochAcked := 0, epochMstamp := env.deliveredMstamp));
        expected := 0;
      }
      bbr := bbr.(agg := bbr.agg.(epochAcked := Min(ACK_EPOCH_ACKED_MAX, U32(bbr.agg.epochAcked + acked))));
      extra := U32(bbr.agg.epochAcked - expected);
    }

    method UpdateCyclePhaseInPlace(rs: Sample, env: Env)
      modifies this`bbr
      ensures bbr == UpdateCyclePhase(old(bbr), rs, env)
    {
      if bbr.mode == ProbeBw && NextCyclePhase(bbr, rs, env) {
        AdvanceCyclePhaseInPlace(env);
      }
    }

    method CheckFullBwInPlace(rs: Sample)
      modifies this`bbr
      ensures bbr == CheckFullBw(old(bbr), rs)
    {
      if bbr.pipe.reached || !bbr.roundStart || rs.isAppLimited {
        return;
      }
      var thresh := U32(bbr.pipe.fullBw * 320 / 256);
      if bbr.maxBw >= thresh {
        bbr := bbr.(pipe := bbr.pipe.(fullBw := bbr.maxBw, cnt := 0));
        return;
      }
      bbr := bbr.(pipe := bbr.pipe.(cnt := Bits(bbr.pipe.cnt + 1, 4)));
      bbr := bbr.(pipe := bbr.pipe.(reached := bbr.pipe.cnt >= FULL_BW_CNT));
    }

    method CheckDrainInPlace(env: Env)
      modifies this`bbr, this`sndSsthresh
      ensures View() == CheckDrain(old(View()), env)
    {
      if bbr.mode == Startup && bbr.pipe.reached {
        bbr := bbr.(mode := Drain);
        sndSsthresh := Inflight(bbr, bbr.maxBw, BBR_UNIT, env);
      }
      if bbr.mode == Drain
         && PacketsInNetAtEdt(bbr, env.inFlight, env) <= Inflight(bbr, bbr.maxBw, BBR_UNIT, env) {
        ResetProbeBwInPlace(env);
      }
    }

    method SaveCwndInPlace()
      modifies this`bbr
      ensures bbr == SaveCwnd(old(View()))
    {
      if bbr.prevCaState < TCP_CA_RECOVERY && bbr.mode != ProbeRtt {
        bbr := bbr.(probe := bbr.probe.(priorCwnd := sndCwnd));
      } else {
        bbr := bbr.(probe := bbr.probe.(priorCwnd := Max(bbr.probe.priorCwnd, sndCwnd)));
      }
    }

    method CheckProbeRttDoneInPlace(env: Env)
      modifies this`bbr, this`sndCwnd
      ensures View() == CheckProbeRttDone(old(View()), env)
    {
      if !(bbr.probe.doneStamp != 0 && After(env.now, bbr.probe.doneStamp)) {
        return;
      }
      bbr := bbr.(probe := bbr.probe.(minRttStamp := env.now));
      sndCwnd := Max(sndCwnd, bbr.probe.priorCwnd);
      ResetModeInPlace(env);
    }

    method EnterProbeRttInPlace()
      modifies this`bbr
      ensures View() == EnterProbeRtt(old(View()))
    {
      bbr := bbr.(mode := ProbeRtt);
      SaveCwndInPlace();
      bbr := bbr.(probe := bbr.probe.(doneStamp := 0));
    }

    method StayInProbeRttInPlace(env: Env)
      modifies this`bbr, this`sndCwnd, this`appLimited
      ensures View() == StayInProbeRtt(old(View()), env)
    {
      appLimited := U32(env.delivered + env.inFlight);
      if appLimited == 0 {
        appLimited := 1;
      }
      if bbr.probe.doneStamp == 0 && env.inFlight <= CWND_MIN_TARGET {
        bbr := bbr.(probe := bbr.probe.(doneStamp := U32(env.now + env.probeJiffies), roundDone := false));
        bbr := bbr.(nextRttDelivered := env.delivered);
      } else if bbr.probe.doneStamp != 0 {
        if bbr.roundStart {
          bbr := bbr.(probe := bbr.probe.(roundDone := true));
        }
        if bbr.probe.roundDone {
          CheckProbeRttDoneInPlace(env);
        }
      }
    }

    method TakeMinRttInPlace(rs: Sample, filterExpired: bool, env: Env)
      modifies this`bbr
      ensures bbr == TakeMinRtt(old(bbr), rs, filterExpired, env)
    {
      if rs.rttUs >= 0 && (rs.rttUs < bbr.probe.minRttUs || (filterExpired && !rs.isAckDelayed)) {
        bbr := bbr.(probe := bbr.probe.(minRttUs := U32(rs.rttUs), minRttStamp := env.now));
      }
    }

    method UpdateMinRttInPlace(rs: Sample, env: Env)
      modifies this`bbr, this`sndCwnd, this`appLimited
      ensures View() == UpdateMinRtt(old(View()), rs, env)
    {
      var filterExpired := After(env.now, U32(bbr.probe.minRttStamp + MIN_RTT_WIN_SEC * env.hz));
      TakeMinRttInPlace(rs, filterExpired, env);
      if filterExpired && !bbr.idleRestart && bbr.mode != ProbeRtt {
        EnterProbeRttInPlace();
      }
      if bbr.mode == ProbeRtt {
        StayInProbeRttInPlace(env);
      }
      if rs.delivered > 0 {
        bbr := bbr.(idleRestart := false);
      }
    }

    method UpdateGainsInPlace()
      modifies this`bbr
      ensures bbr == UpdateGains(old(bbr))
    {
      match bbr.mode {
        case Startup => bbr := bbr.(pacingGain := HIGH_GAIN, cwndGain := HIGH_GAIN);
        case Drain => bbr := bbr.(pacingGain := DRAIN_GAIN, cwndGain := HIGH_GAIN);
        case ProbeBw =>
          bbr := bbr.(pacingGain := if bbr.lt.useBw then BBR_UNIT else PacingGainOf(bbr.cycle.idx));
          bbr := bbr.(cwndGain := CWND_GAIN);
        case ProbeRtt => bbr := bbr.(pacingGain := BBR_UNIT, cwndGain := BBR_UNIT);
      }
    }

    method UpdateModelInPlace(rs: Sample, env: Env)
      modifies this
      ensures View() == UpdateModel(old(View()), rs, env)
    {
      UpdateBwInPlace(rs, env);
      UpdateAggregationInPlace(rs, env);
      UpdateCyclePhaseInPlace(rs, env);
      CheckFullBwInPlace(rs);
      assert View() == UpdateEstimates(old(View()), rs, env);
      CheckDrainInPlace(env);
      UpdateMinRttInPlace(rs, env);
      UpdateGainsInPlace();
    }

    // ---------- pacing and the window ----------

    method InitPacingRateInPlace(env: Env)
      modifies this`bbr, this`pacingRate
      ensures View() == InitPacingRateFromRtt(old(View()), env)
    {
      var rttUs := 1000;
      if env.srttUs != 0 {
        rttUs := Max(env.srttUs / 8, 1);
        bbr := bbr.(hasSeenRtt := true);
      }
      var bw := Div(U64(sndCwnd * BW_UNIT), rttUs);
      pacingRate := BwToPacingRate(U32(bw), HIGH_GAIN, env);
    }

    method SetPacingRateInPlace(bw: u32, gain: u32, env: Env)
      modifies this`bbr, this`pacingRate
      ensures View() == SetPacingRate(old(View()), bw, gain, env)
    {
      var rate := BwToPacingRate(bw, gain, env);
      if !bbr.hasSeenRtt && env.srttUs != 0 {
        InitPacingRateInPlace(env);
      }
      if bbr.pipe.reached || rate > pacingRate {
        pacingRate := rate;
      }
    }

    method RecoverOrRestoreInPlace(losses: s32, acked: u32, env: Env) returns (newCwnd: u32, conserve: bool)
      modifies this`bbr
      ensures (bbr, newCwnd, conserve) == RecoverOrRestore(old(View()), losses, acked, env)
    {
      var prevState, state := bbr.prevCaState, env.caState;
      var cwnd := sndCwnd;
      if losses > 0 {
        cwnd := Max(S32(cwnd - losses), 1);
      }
      if state == TCP_CA_RECOVERY && prevState != TCP_CA_RECOVERY {
        bbr := bbr.(packetConservation := true, nextRttDelivered := env.delivered);
        cwnd := U32(env.inFlight + acked);
      } else if prevState >= TCP_CA_RECOVERY && state < TCP_CA_RECOVERY {
        cwnd := Max(cwnd, bbr.probe.priorCwnd);
        bbr := bbr.(packetConservation := false);
      }
      bbr := bbr.(prevCaState := state);
      if bbr.packetConservation {
        return Max(cwnd, U32(env.inFlight + acked)), true;
      }
      return cwnd, false;
    }

    method SetCwndInPlace(losses: s32, acked: u32, bw: u32, gain: u32, env: Env)
      modifies this`bbr, this`sndCwnd
      ensures View() == SetCwnd(old(View()), losses, acked, bw, gain, env)
    {
      var cwnd := sndCwnd;
      if acked != 0 {
        var conserve;
        cwnd, conserve := RecoverOrRestoreInPlace(losses, acked, env);
        if !conserve {
          var target := TargetCwnd(bbr, bw, gain, env);
          if bbr.pipe.reached {
            cwnd := Min(U32(cwnd + acked), target);
          } else if cwnd < target || env.delivered < TCP_INIT_CWND {
            cwnd := U32(cwnd + acked);
          }
          cwnd := Max(cwnd, CWND_MIN_TARGET);
        }
      }
      sndCwnd := Min(cwnd, env.sndCwndClamp);
      if bbr.mode == ProbeRtt {
        sndCwnd := Min(sndCwnd, CWND_MIN_TARGET);
      }
    }

    // ---------- the callbacks ----------

    method OnAckInPlace(rs: Sample, env: Env)
      modifies this
      ensures View() == OnAck(old(View()), rs, env)
    {
      UpdateModelInPlace(rs, env);
      var bw := Bw(bbr);
      SetPacingRateInPlace(bw, bbr.pacingGain, env);
      SetCwndInPlace(rs.losses, rs.ackedSacked, bw, bbr.cwndGain, env);
    }

    method CwndEventInPlace(isTxStart: bool, env: Env)
      modifies this
      ensures View() == if isTxStart then TxStart(old(View()), env) else old(View())
    {
      if isTxStart && appLimited != 0 {
        bbr := bbr.(idleRestart := true);
        bbr := bbr.(agg := bbr.agg.(epochMstamp := env.tcpMstamp, epochAcked := 0));
        if bbr.mode == ProbeBw {
          SetPacingRateInPlace(Bw(bbr), BBR_UNIT, env);
        } else if bbr.mode == ProbeRtt {
          CheckProbeRttDoneInPlace(env);
        }
      }
    }

    method UndoCwndInPlace(env: Env) returns (cwnd: u32)
      modifies this`bbr
      ensures bbr == UndoCwnd(old(bbr), env) && cwnd == sndCwnd
    {
      bbr := bbr.(pipe := bbr.pipe.(fullBw := 0, cnt := 0));
      ResetLtInPlace(env);
      cwnd := sndCwnd;
    }

    method SsthreshInPlace() returns (ssthresh: u32)
      modifies this`bbr
      ensures bbr == SaveCwnd(old(View())) && ssthresh == sndSsthresh
    {
      SaveCwndInPlace();
      ssthresh := sndSsthresh;
    }

    method SetStateInPlace(newState: u8, env: Env)
      modifies this`bbr
      ensures bbr == SetState(old(bbr), newState, env)
    {
      if newState == TCP_CA_LOSS {
        bbr := bbr.(prevCaState := TCP_CA_LOSS, pipe := bbr.pipe.(fullBw := 0), roundStart := true);
        LtSamplingInPlace(1, false, env);
      }
    }
  }
}
