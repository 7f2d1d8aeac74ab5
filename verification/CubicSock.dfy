/**
 CUBIC as the original runs it: callbacks that update the socket and the private
 control block in place, each proved against its function in `Cubic`.
 */
module CubicSock {
  import opened Words
  import opened Tcp
  import CubicRoot
  import CubicCurve
  import opened Cubic

  class Socket {
    const tp: TcpSock
    /** `struct bictcp`, which lives inside the socket (`icsk_ca_priv`). */
    var ca: Bictcp

    function View(): State
      reads this, tp
    {
      State(tp.View(), ca)
    }

    constructor (sk: TcpSock, env: Env)
      ensures tp == sk && View() == Init(sk.View(), ZERO, env)
    {
      tp := sk;
      ca := HystartReset(Reset(ZERO), env);
    }

    method ResetInPlace()
      modifies this`ca
      ensures ca == Reset(old(ca))
    {
      ca := ca.(cnt := 0, lastMaxCwnd := 0, lastCwnd := 0, lastTime := 0, bicOriginPoint := 0, bicK := 0);
      ca := ca.(delayMin := 0, epochStart := 0, ackCnt := 0, tcpCwnd := 0, found := false);
    }

    method HystartResetInPlace(env: Env)
      modifies this`ca
      ensures ca == HystartReset(old(ca), env)
    {
      ca := ca.(roundStart := env.clockUs, lastAck := env.clockUs, endSeq := env.sndNxt);
      ca := ca.(currRtt := NO_RTT, sampleCnt := 0);
    }

    /** The part of `bictcp_update` that starts an epoch. */
    method StartEpochInPlace(cwnd: u32, acked: u32, now: u32)
      modifies this`ca
      ensures ca == StartEpoch(old(ca), cwnd, acked, now)
    {
      if ca.epochStart == 0 {
        ca := ca.(epochStart := now, ackCnt := acked, tcpCwnd := cwnd);
        if ca.lastMaxCwnd <= cwnd {
          ca := ca.(bicK := 0, bicOriginPoint := cwnd);
        } else {
          var k := CubicRoot.CubicRoot(U64(CubicCurve.CUBE_FACTOR * U32(ca.lastMaxCwnd - cwnd)));
          ca := ca.(bicK := k, bicOriginPoint := ca.lastMaxCwnd);
        }
      }
    }

    /** The part of `bictcp_update` that evaluates the curve. */
    method PriceInPlace(cwnd: u32, now: u32, hz: hertz)
      modifies this`ca
      ensures ca == old(ca).(cnt := PriceFor(old(ca), cwnd, CurveTarget(old(ca), now, hz)))
    {
      var t: int := U64(S32(now - ca.epochStart) * Div(1_000_000, hz));
      t := U64(t + ca.delayMin);
      t := U64(t * 1024) / 1_000_000;
      var offs := if t < ca.bicK then ca.bicK - t else t - ca.bicK;
      var delta := CubicCurve.CurveDelta(offs);
      var target := if t < ca.bicK then U32(ca.bicOriginPoint - delta) else U32(ca.bicOriginPoint + delta);
      assert target == CurveTarget(old(ca), now, hz);
      if target > cwnd {
        ca := ca.(cnt := Div(cwnd, target - cwnd));
      } else {
        ca := ca.(cnt := U32(100 * cwnd));
      }
      if ca.lastMaxCwnd == 0 && ca.cnt > 20 {
        ca := ca.(cnt := 20);
      }
    }

    /** The part of `bictcp_update` that keeps up with Reno. */
    method TcpFriendlyInPlace(cwnd: u32)
      modifies this`ca
      ensures ca == TcpFriendly(old(ca), cwnd)
    {
      var delta := U32(cwnd * BETA_SCALE) / 8;
      if ca.ackCnt > delta && delta != 0 {
        var n := Div(ca.ackCnt, delta);
        TakeShare(ca.ackCnt, delta);
        ca := ca.(ackCnt := U32(ca.ackCnt - n * delta));
        ca := ca.(tcpCwnd := U32(ca.tcpCwnd + n));
      }
      if ca.tcpCwnd > cwnd {
        var maxCnt := Div(cwnd, ca.tcpCwnd - cwnd);
        if ca.cnt > maxCnt {
          ca := ca.(cnt := maxCnt);
        }
      }
    }

    /** The part of `bictcp_update` that runs at most once per jiffy. */
    method FollowCurveInPlace(cwnd: u32, acked: u32, now: u32, hz: hertz)
      modifies this`ca
      ensures var c := StartEpoch(old(ca).(lastCwnd := cwnd, lastTime := now), cwnd, acked, now);
              ca == c.(cnt := PriceFor(c, cwnd, CurveTarget(c, now, hz)))
    {
      ca := ca.(lastCwnd := cwnd, lastTime := now);
      StartEpochInPlace(cwnd, acked, now);
      PriceInPlace(cwnd, now, hz);
    }

    method UpdateInPlace(cwnd: u32, acked: u32, now: u32, hz: hertz)
      modifies this`ca
      ensures ca == Update(old(ca), cwnd, acked, now, hz)
    {
      ca := ca.(ackCnt := U32(ca.ackCnt + acked));
      if ca.lastCwnd == cwnd && 0 <= S32(now - ca.lastTime) <= hz / 32 {
        return;
      }
      if !(ca.epochStart != 0 && now == ca.lastTime) {
        FollowCurveInPlace(cwnd, acked, now, hz);
      }
      TcpFriendlyInPlace(cwnd);
      ca := ca.(cnt := Max(ca.cnt, 2));
    }

    method CongAvoidInPlace(ack: u32, acked: u32, env: Env)
      modifies this`ca, tp`sndCwnd, tp`sndCwndCnt
      ensures View() == CongAvoid(old(View()), ack, acked, env)
    {
      if !IsCwndLimited(tp.View()) {
        return;
      }
      var left := acked;
      if InSlowStart(tp.View()) {
        if After(ack, ca.endSeq) {
          HystartResetInPlace(env);
        }
        left := tp.SlowStartInPlace(left);
        if left == 0 {
          return;
        }
      }
      UpdateInPlace(tp.sndCwnd, left, env.jiffies, env.hz);
      tp.CongAvoidAiInPlace(ca.cnt, left);
    }

    method RecalcSsthreshInPlace() returns (ssthresh: u32)
      modifies this`ca
      ensures (ca, ssthresh) == RecalcSsthresh(old(View()))
    {
      ca := ca.(epochStart := 0);
      if tp.sndCwnd < ca.lastMaxCwnd {
        ca := ca.(lastMaxCwnd := U32(tp.sndCwnd * (1024 + BETA)) / (2 * 1024));
      } else {
        ca := ca.(lastMaxCwnd := tp.sndCwnd);
      }
      ssthresh := Max(U32(tp.sndCwnd * BETA) / 1024, 2);
    }

    method SetStateInPlace(newState: u8, env: Env)
      modifies this`ca
      ensures ca == SetState(old(ca), newState, env)
    {
      if newState == TCP_CA_LOSS {
        ResetInPlace();
        HystartResetInPlace(env);
      }
    }

    method CwndEventInPlace(isTxStart: bool, env: Env)
      modifies this`ca
      ensures ca == if isTxStart then TxStart(old(ca), env) else old(ca)
    {
      if isTxStart {
        var delta := S32(env.jiffies - env.lsndtime);
        if ca.epochStart != 0 && delta > 0 {
          ca := ca.(epochStart := U32(ca.epochStart + delta));
          if After(ca.epochStart, env.jiffies) {
            ca := ca.(epochStart := env.jiffies);
          }
        }
      }
    }

    method HystartUpdateInPlace(delay: u32, env: Env)
      modifies this`ca, tp`sndSsthresh
      ensures View() == HystartUpdate(old(View()), delay, env)
    {
      if S32(env.clockUs - ca.lastAck) <= HYSTART_ACK_DELTA_US {
        ca := ca.(lastAck := env.clockUs);
        var threshold: int := U32(ca.delayMin + AckDelay(env));
        if env.pacingNone {
          threshold := threshold / 2;
        }
        if U32(env.clockUs - ca.roundStart) > threshold {
          ca := ca.(found := true);
          tp.sndSsthresh := tp.sndCwnd;
        }
      }
      if ca.sampleCnt < HYSTART_MIN_SAMPLES {
        if ca.currRtt > delay {
          ca := ca.(currRtt := delay);
        }
        ca := ca.(sampleCnt := ca.sampleCnt + 1);
      } else if ca.currRtt > U32(ca.delayMin + Min(Max(ca.delayMin / 8, 4000), 16000)) {
        ca := ca.(found := true);
        tp.sndSsthresh := tp.sndCwnd;
      }
    }

    method PktsAckedInPlace(rttUs: s32, env: Env)
      modifies this`ca, tp`sndSsthresh
      ensures View() == PktsAcked(old(View()), rttUs, env)
    {
      if rttUs < 0 {
        return;
      }
      if ca.epochStart != 0 && 0 <= S32(env.jiffies - ca.epochStart) < env.hz {
        return;
      }
      var delay := rttUs;
      if delay == 0 {
        delay := 1;
      }
      if ca.delayMin == 0 || ca.delayMin > delay {
        ca := ca.(delayMin := delay);
      }
      if !ca.found && InSlowStart(tp.View()) && tp.sndCwnd >= HYSTART_LOW_WINDOW {
        HystartUpdateInPlace(delay, env);
      }
    }
  }
}
