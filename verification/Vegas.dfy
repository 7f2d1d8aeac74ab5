/**
 Vegas: two filters over round-trip times and one adjustment of the window per round
 trip, with Reno as the fallback.
 */
module Vegas {
  import opened Words
  import opened Tcp
  import Reno

  const NO_RTT: u32 := 0x7FFF_FFFF
  const ALPHA := 2
  const BETA := 4
  const GAMMA := 1
  const TCP_CA_OPEN := 0
  const TCP_CA_CWR := 2
  const TCP_CA_RECOVERY := 3

  /** `struct vegas`, without the two fields that nothing reads. */
  datatype Block = Block(
    begSndNxt: u32,
    doingVegasNow: bool,
    cntRtt: u16,
    minRtt: u32,
    baseRtt: u32)

  datatype State = State(tp: Tp, vegas: Block)

  /** What a callback reads from the kernel: the next sequence number and the congestion state. */
  datatype Env = Env(sndNxt: u32, caState: u8)

  function Enable(v: Block, env: Env): Block {
    v.(doingVegasNow := true, begSndNxt := env.sndNxt, cntRtt := 0, minRtt := NO_RTT)
  }

  function Init(tp: Tp, v: Block, env: Env): State {
    State(tp, Enable(v.(baseRtt := NO_RTT), env))
  }

  /** A round-trip sample, never zero. */
  function Vrtt(rttUs: s32): u32 {
    U32(rttUs + 1)
  }

  function PktsAcked(v: Block, rttUs: s32): Block {
    if rttUs < 0 then v
    else v.(baseRtt := Min(v.baseRtt, Vrtt(rttUs)), minRtt := Min(v.minRtt, Vrtt(rttUs)), cntRtt := U16(v.cntRtt + 1))
  }

  function SetState(v: Block, caState: u8, env: Env): Block {
    if caState == TCP_CA_OPEN then Enable(v, env) else v.(doingVegasNow := false)
  }

  /** Sending restarts after an idle period. */
  function Restart(v: Block, env: Env): Block {
    Enable(v.(baseRtt := NO_RTT), env)
  }

  predicate InCwndReduction(env: Env) {
    env.caState == TCP_CA_CWR || env.caState == TCP_CA_RECOVERY
  }

  /** The threshold may rise to three quarters of the window, except while the window is being reduced. */
  function CurrentSsthresh(tp: Tp, env: Env): u32 {
    if InCwndReduction(env) then tp.sndSsthresh
    else Max(tp.sndSsthresh, U32(tp.sndCwnd / 2 + tp.sndCwnd / 4))
  }

  /** The packets that the window keeps in queues. */
  function Diff(cwnd: u32, rtt: u32, base: u32): u32 {
    Div(U32(cwnd * U32(rtt - base)), base)
  }

  /** The window that would keep no packet in a queue. */
  function TargetCwnd(cwnd: u32, rtt: u32, base: u32): u64 {
    ProductFits(cwnd, base);
    Div(cwnd * base, rtt)
  }

  lemma ProductFits(x: u32, y: u32)
    ensures 0 <= x * y < TWO64
  {
    MulMono(x, y, TWO32 - 1);
    assert x * (TWO32 - 1) <= (TWO32 - 1) * (TWO32 - 1);
  }

  /** The window and threshold that the comparison of `rtt` with `base` asks for. */
  function Compare(tp: Tp, rtt: u32, base: u32, acked: u32): Tp {
    var diff := Diff(tp.sndCwnd, rtt, base);
    if diff > GAMMA && InSlowStart(tp) then
      SetBoth(tp, Min(tp.sndCwnd, U32(U32(TargetCwnd(tp.sndCwnd, rtt, base)) + 1)))
    else if InSlowStart(tp) then SlowStart(tp, acked).0
    else if diff > BETA then SetBoth(tp, U32(tp.sndCwnd - 1))
    else if diff < ALPHA then tp.(sndCwnd := U32(tp.sndCwnd + 1))
    else tp
  }

  /** A new window that the threshold may not exceed. */
  function SetBoth(tp: Tp, cwnd: u32): Tp {
    tp.(sndCwnd := cwnd, sndSsthresh := Min(tp.sndSsthresh, cwnd))
  }

  /** At least two packets, at most the clamp, and a fresh threshold. */
  function Confine(tp: Tp, env: Env): Tp {
    var cwnd := if tp.sndCwnd < 2 then 2 else if tp.sndCwnd > tp.sndCwndClamp then tp.sndCwndClamp else tp.sndCwnd;
    var c := tp.(sndCwnd := cwnd);
    c.(sndSsthresh := CurrentSsthresh(c, env))
  }

  /** The once-per-round-trip adjustment. */
  function Adjust(tp: Tp, rtt: u32, base: u32, acked: u32, env: Env): Tp {
    Confine(Compare(tp, rtt, base, acked), env)
  }

  /** This ACK ends the round trip. */
  predicate EndsRound(v: Block, ack: u32) {
    v.doingVegasNow && After(ack, v.begSndNxt)
  }

  function CongAvoid(s: State, ack: u32, acked: u32, env: Env): State {
    if !s.vegas.doingVegasNow then s.(tp := Reno.CongAvoid(s.tp, acked))
    else if After(ack, s.vegas.begSndNxt) then
      State(if s.vegas.cntRtt <= 2 then Reno.CongAvoid(s.tp, acked)
            else Adjust(s.tp, s.vegas.minRtt, s.vegas.baseRtt, acked, env),
            s.vegas.(begSndNxt := env.sndNxt, cntRtt := 0, minRtt := NO_RTT))
    else if InSlowStart(s.tp) then s.(tp := SlowStart(s.tp, acked).0)
    else s
  }

  /** `Kernel` stands for everything the kernel does to the window between two callbacks. */
  datatype Event =
    | Acked(ack: u32, acked: u32)
    | Sample(rttUs: s32)
    | NewState(caState: u8)
    | RestartIdle
    | Kernel(tp: Tp)

  function Step(s: State, e: Event, env: Env): State {
    match e
    case Acked(ack, acked) => CongAvoid(s, ack, acked, env)
    case Sample(rttUs) => s.(vegas := PktsAcked(s.vegas, rttUs))
    case NewState(caState) => s.(vegas := SetState(s.vegas, caState, env))
    case RestartIdle => s.(vegas := Restart(s.vegas, env))
    case Kernel(tp) => s.(tp := tp)
  }

  function Run(s: State, events: seq<(Event, Env)>): State {
    if events == [] then s
    else Step(Run(s, events[..|events| - 1]), events[|events| - 1].0, events[|events| - 1].1)
  }

  // ---------- the callbacks in place ----------

  class Socket {
    const tp: TcpSock
    var begSndNxt: u32
    var doingVegasNow: bool
    var cntRtt: u16
    var minRtt: u32
    var baseRtt: u32

    function Vegas(): Block
      reads this
    {
      Block(begSndNxt, doingVegasNow, cntRtt, minRtt, baseRtt)
    }

    function View(): State
      reads this, tp
    {
      State(tp.View(), Vegas())
    }

    constructor (sk: TcpSock, env: Env)
      ensures tp == sk && View() == Init(sk.View(), Block(0, false, 0, 0, 0), env)
    {
      tp := sk;
      baseRtt := NO_RTT;
      doingVegasNow, begSndNxt, cntRtt, minRtt := true, env.sndNxt, 0, NO_RTT;
    }

    method EnableInPlace(env: Env)
      modifies this
      ensures Vegas() == Enable(old(Vegas()), env)
    {
      doingVegasNow := true;
      begSndNxt := env.sndNxt;
      cntRtt := 0;
      minRtt := NO_RTT;
    }

    method PktsAckedInPlace(rttUs: s32)
      modifies this
      ensures Vegas() == PktsAcked(old(Vegas()), rttUs)
    {
      if rttUs < 0 {
        return;
      }
      var vrtt := U32(rttUs + 1);
      if vrtt < baseRtt {
        baseRtt := vrtt;
      }
      minRtt := Min(minRtt, vrtt);
      cntRtt := U16(cntRtt + 1);
    }

    method StateInPlace(caState: u8, env: Env)
      modifies this
      ensures Vegas() == SetState(old(Vegas()), caState, env)
    {
      if caState == TCP_CA_OPEN {
        EnableInPlace(env);
      } else {
        doingVegasNow := false;
      }
    }

    method CwndEventInPlace(restarts: bool, env: Env)
      modifies this
      ensures Vegas() == if restarts then Restart(old(Vegas()), env) else old(Vegas())
    {
      if restarts {
        baseRtt := NO_RTT;
        EnableInPlace(env);
      }
    }

    method AdjustInPlace(rtt: u32, acked: u32, env: Env)
      modifies tp`sndCwnd, tp`sndSsthresh
      ensures tp.View() == Adjust(old(tp.View()), rtt, baseRtt, acked, env)
    {
      CompareInPlace(rtt, acked);
      if tp.sndCwnd < 2 {
        tp.sndCwnd := 2;
      } else if tp.sndCwnd > tp.sndCwndClamp {
        tp.sndCwnd := tp.sndCwndClamp;
      }
      tp.sndSsthresh := CurrentSsthresh(tp.View(), env);
    }

    method CompareInPlace(rtt: u32, acked: u32)
      modifies tp`sndCwnd, tp`sndSsthresh
      ensures tp.View() == Compare(old(tp.View()), rtt, baseRtt, acked)
    {
      var target := TargetCwnd(tp.sndCwnd, rtt, baseRtt);
      var diff := Diff(tp.sndCwnd, rtt, baseRtt);
      if diff > GAMMA && InSlowStart(tp.View()) {
        tp.sndCwnd := Min(tp.sndCwnd, U32(U32(target) + 1));
        tp.sndSsthresh := Min(tp.sndSsthresh, tp.sndCwnd);
      } else if InSlowStart(tp.View()) {
        var left := tp.SlowStartInPlace(acked);
      } else if diff > BETA {
        tp.sndCwnd := U32(tp.sndCwnd - 1);
        tp.sndSsthresh := Min(tp.sndSsthresh, tp.sndCwnd);
      } else if diff < ALPHA {
        tp.sndCwnd := U32(tp.sndCwnd + 1);
      }
    }

    method CongAvoidInPlace(ack: u32, acked: u32, env: Env)
      modifies this, tp`sndCwnd, tp`sndSsthresh, tp`sndCwndCnt
      ensures View() == CongAvoid(old(View()), ack, acked, env)
    {
      if !doingVegasNow {
        Reno.CongAvoidInPlace(tp, acked);
        return;
      }
      if After(ack, begSndNxt) {
        begSndNxt := env.sndNxt;
        if cntRtt <= 2 {
          Reno.CongAvoidInPlace(tp, acked);
        } else {
          AdjustInPlace(minRtt, acked, env);
        }
        cntRtt := 0;
        minRtt := NO_RTT;
      } else if InSlowStart(tp.View()) {
        var left := tp.SlowStartInPlace(acked);
      }
    }
  }
}
