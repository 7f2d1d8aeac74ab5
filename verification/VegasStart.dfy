/**
 Vegas outside its steady state: slow start within and across round trips, the threshold it leaves, and when it is on
 at all.
 */
module VegasStart {
  import opened Words
  import opened Tcp
  import opened Vegas
  import opened VegasRuns
  import Reno

  // ---------- slow start ----------

  function AckedBy(events: seq<(Event, Env)>): nat {
    if events == [] then 0
    else
      AckedBy(events[..|events| - 1])
      + match events[|events| - 1].0 case Acked(_, acked) => acked case _ => 0
  }

  /** A delay sample of any kind, or an ACK that does not pass the right edge. */
  predicate Within(e: Event, edge: u32) {
    match e
    case Sample(_) => true
    case Acked(ack, _) => !After(ack, edge)
    case _ => false
  }

  /** The window of slow start after `packets` have been acknowledged. */
  function Opened(tp: Tp, packets: nat): nat {
    Min(Min(tp.sndSsthresh, tp.sndCwndClamp), tp.sndCwnd + packets)
  }

  lemma SlowStartOpens(tp: Tp, acked: u32, cwnd: u32, packets: nat)
    requires tp.sndCwnd <= tp.sndSsthresh && tp.sndCwnd <= tp.sndCwndClamp && tp.sndCwnd + packets + acked < TWO32
    requires cwnd == Opened(tp, packets)
    ensures var mid := tp.(sndCwnd := cwnd);
            (if InSlowStart(mid) then SlowStart(mid, acked).0 else mid) == tp.(sndCwnd := Opened(tp, packets + acked))
  {
  }

  /**
   Within a round trip that begins in slow start, whatever the delays: every packet acknowledged is a packet of
   window, up to threshold and clamp, and nothing else changes.
   */
  lemma {:induction false} InnerSlowStart(s: State, events: seq<(Event, Env)>)
    requires s.vegas.doingVegasNow && InSlowStart(s.tp) && s.tp.sndCwnd <= s.tp.sndCwndClamp
    requires forall i :: 0 <= i < |events| ==> Within(events[i].0, s.vegas.begSndNxt)
    requires s.tp.sndCwnd + AckedBy(events) < TWO32
    ensures var after := Run(s, events);
            && after.tp == s.tp.(sndCwnd := Opened(s.tp, AckedBy(events)))
            && after.vegas.doingVegasNow && after.vegas.begSndNxt == s.vegas.begSndNxt
  {
    if events != [] {
      var k := |events| - 1;
      InnerSlowStart(s, events[..k]);
      var mid := Run(s, events[..k]);
      if events[k].0.Acked? {
        SlowStartOpens(s.tp, events[k].0.acked, mid.tp.sndCwnd, AckedBy(events[..k]));
      }
    }
  }

  /** With at most one packet queued, the end of a round trip is one more ACK of slow start, and the threshold stays. */
  lemma QuietEnd(tp: Tp, rtt: u32, base: u32, acked: u32, env: Env)
    requires InSlowStart(tp) && Diff(tp.sndCwnd, rtt, base) <= 1
    requires tp.sndCwnd <= tp.sndCwndClamp && tp.sndCwnd + acked < TWO32
    ensures Adjust(tp, rtt, base, acked, env) == tp.(sndCwnd := Max(2, Opened(tp, acked)))
  {
  }

  /** A round trip without queueing, in which every sample is the propagation delay. */
  lemma {:induction false} InnerFilters(s: State, events: seq<(Event, Env)>, base: u32)
    requires RoundStarts(s.vegas, base) && base <= NO_RTT
    requires forall i :: 0 <= i < |events| ==> Inside(events[i].0, s.vegas.begSndNxt, base)
    ensures Run(s, events).vegas == s.vegas.(
              minRtt := if Samples(events) == 0 then NO_RTT else base,
              cntRtt := Samples(events) % TWO16)
  {
    if events != [] {
      var k := |events| - 1;
      InnerFilters(s, events[..k], base);
      CountWraps(Samples(events[..k]));
    }
  }

  /** The packets acknowledged by a whole round trip. */
  function AckedInRound(r: RoundTrip): nat {
    AckedBy(r.inner) + r.acked
  }

  function AckedInRounds(rounds: seq<RoundTrip>): nat {
    if rounds == [] then 0 else AckedInRounds(rounds[..|rounds| - 1]) + AckedInRound(rounds[|rounds| - 1])
  }

  /** A round trip of slow start without queueing adds every packet acknowledged to the window. */
  lemma QuietRound(s: State, r: RoundTrip, base: u32)
    requires RoundStarts(s.vegas, base) && 1 <= base <= NO_RTT && SteadyRound(s, r, base)
    requires 2 <= s.tp.sndCwnd <= s.tp.sndCwndClamp
    requires s.tp.sndCwnd + AckedInRound(r) < s.tp.sndSsthresh
    ensures var after := PlayRound(s, r);
            && after.tp == s.tp.(sndCwnd := Opened(s.tp, AckedInRound(r)))
            && RoundStarts(after.vegas, base) && after.vegas.begSndNxt == r.env.sndNxt
  {
    InnerFilters(s, r.inner, base);
    InnerSlowStart(s, r.inner);
    var mid := Run(s, r.inner);
    QuietEnd(mid.tp, base, base, r.acked, r.env);
    SlowStartOpens(s.tp, r.acked, mid.tp.sndCwnd, AckedBy(r.inner));
  }

  /**
   Over any number of round trips without queueing Vegas stays in slow start: the window is the starting window and
   every packet acknowledged since, up to the clamp, until the threshold is reached.
   */
  lemma {:induction false} QuietRounds(s: State, rounds: seq<RoundTrip>, base: u32)
    requires RoundStarts(s.vegas, base) && 1 <= base <= NO_RTT && SteadyRounds(s, rounds, base)
    requires 2 <= s.tp.sndCwnd <= s.tp.sndCwndClamp
    requires s.tp.sndCwnd + AckedInRounds(rounds) < s.tp.sndSsthresh
    ensures var after := PlayRounds(s, rounds);
            && after.tp == s.tp.(sndCwnd := Opened(s.tp, AckedInRounds(rounds)))
            && RoundStarts(after.vegas, base)
  {
    if rounds != [] {
      var k := |rounds| - 1;
      assert forall i :: 0 <= i < k ==> rounds[..k][..i] == rounds[..i];
      QuietRounds(s, rounds[..k], base);
      QuietRound(PlayRounds(s, rounds[..k]), rounds[k], base);
    }
  }

  // ---------- the threshold ----------

  /**
   After an adjustment the threshold is at least three quarters of the window, but while the window is being reduced
   it does not rise; it never exceeds both its old value and three quarters of the window.
   */
  lemma ThresholdFollows(tp: Tp, rtt: u32, base: u32, acked: u32, env: Env)
    ensures var after := Adjust(tp, rtt, base, acked, env);
            && (if env.caState == TCP_CA_CWR || env.caState == TCP_CA_RECOVERY
                then after.sndSsthresh <= tp.sndSsthresh
                else 4 * after.sndSsthresh >= 3 * after.sndCwnd - 5)
            && (after.sndSsthresh <= tp.sndSsthresh || 4 * after.sndSsthresh <= 3 * after.sndCwnd)
            && (InSlowStart(tp) && Diff(tp.sndCwnd, rtt, base) <= 1 && tp.sndCwnd + acked < TWO32 && tp.sndCwnd > 0 ==>
                  after.sndSsthresh == tp.sndSsthresh)
  {
  }

  // ---------- on and off ----------

  /** On from the beginning; a congestion state switches it, and a restart from idle switches it on. */
  function On(events: seq<(Event, Env)>): bool {
    events == []
    || match events[|events| - 1].0
       case NewState(caState) => caState == TCP_CA_OPEN
       case RestartIdle => true
       case _ => On(events[..|events| - 1])
  }

  /** The right edge of the round: what had been sent when it began. */
  function Edge(s: State, events: seq<(Event, Env)>): u32 {
    if events == [] then s.vegas.begSndNxt
    else
      var init := events[..|events| - 1];
      var (e, env) := events[|events| - 1];
      match e
      case RestartIdle => env.sndNxt
      case NewState(caState) => if caState == TCP_CA_OPEN then env.sndNxt else Edge(s, init)
      case Acked(ack, _) => if On(init) && After(ack, Edge(s, init)) then env.sndNxt else Edge(s, init)
      case _ => Edge(s, init)
  }

  /** Over any run: Vegas is on exactly since the last switch says so, and its round ends where it was sent to. */
  lemma {:induction false} RunOn(s: State, events: seq<(Event, Env)>)
    requires s.vegas.doingVegasNow
    ensures Run(s, events).vegas.doingVegasNow == On(events)
    ensures Run(s, events).vegas.begSndNxt == Edge(s, events)
  {
    if events != [] {
      RunOn(s, events[..|events| - 1]);
    }
  }

  /** What Reno makes of the same events. */
  function RenoRun(tp: Tp, events: seq<(Event, Env)>): Tp {
    if events == [] then tp
    else
      var before := RenoRun(tp, events[..|events| - 1]);
      match events[|events| - 1].0
      case Acked(_, acked) => Reno.CongAvoid(before, acked)
      case Kernel(next) => next
      case _ => before
  }

  /** Between a state that is not open and the next open one, or restart, a Vegas flow is a Reno flow. */
  lemma {:induction false} OffIsReno(s: State, caState: u8, env: Env, events: seq<(Event, Env)>)
    requires caState != TCP_CA_OPEN
    requires forall i :: 0 <= i < |events| ==>
               !events[i].0.RestartIdle? && events[i].0 != NewState(TCP_CA_OPEN)
    ensures var after := Run(Step(s, NewState(caState), env), events);
            after.tp == RenoRun(s.tp, events) && !after.vegas.doingVegasNow
  {
    if events != [] {
      OffIsReno(s, caState, env, events[..|events| - 1]);
    }
  }
}
