/**
 What CUBIC keeps over whole runs: the price of growth, the 1.5x limit per round trip,
 the anchoring of the curve, and that one window of ACKs reaches the target.
 */
module CubicRuns {
  import opened Words
  import opened Tcp
  import opened CubicCurve
  import opened Cubic

  // ---------- the price of a packet ----------

  /** A window that has been looked at has a price of at least two ACKed packets. */
  ghost predicate Priced(ca: Bictcp) {
    ca.lastCwnd != 0 ==> ca.cnt >= 2
  }

  lemma UpdateIsPriced(ca: Bictcp, cwnd: u32, acked: u32, now: u32, hz: hertz)
    requires Priced(ca)
    ensures var after := Update(ca, cwnd, acked, now, hz);
            Priced(after) && (cwnd != 0 ==> after.cnt >= 2)
  {
  }

  lemma StepKeepsPriced(s: State, e: Event, env: Env)
    requires Priced(s.ca)
    ensures Priced(Step(s, e, env).ca)
  {
    match e
    case Acked(ack, acked) =>
      var (s1, left) := AfterSlowStart(s, ack, acked, env);
      UpdateIsPriced(s1.ca, s1.tp.sndCwnd, left, env.jiffies, env.hz);
    case _ =>
  }

  lemma {:induction false} RunKeepsPriced(s: State, events: seq<(Event, Env)>)
    requires Priced(s.ca)
    ensures Priced(Run(s, events).ca)
  {
    if events != [] {
      var init := events[..|events| - 1];
      var (e, env) := events[|events| - 1];
      RunKeepsPriced(s, init);
      StepKeepsPriced(Run(s, init), e, env);
    }
  }

  /**
   After any run from `Init`, with the kernel moving the window as it likes, a non-empty
   window is never grown at a price below two, so that a price of zero never
   reaches the division in `CongAvoidAi`, not even by the early return.
   */
  lemma PriceAtLeastTwo(tp: Tp, ca: Bictcp, env0: Env, events: seq<(Event, Env)>,
                        cwnd: u32, acked: u32, now: u32, hz: hertz)
    requires cwnd >= 1
    ensures var s := Run(Init(tp, ca, env0), events);
            Update(s.ca, cwnd, acked, now, hz).cnt >= 2
  {
    var s0 := Init(tp, ca, env0);
    RunKeepsPriced(s0, events);
    UpdateIsPriced(Run(s0, events).ca, cwnd, acked, now, hz);
  }

  // ---------- at most one packet per two ACKed ----------

  /** A run of ACKs and nothing else. */
  function AckRun(s: State, acks: seq<(u32, Env)>): State {
    if acks == [] then s
    else
      var (acked, env) := acks[|acks| - 1];
      CongAvoid(AckRun(s, acks[..|acks| - 1]), 0, acked, env)
  }

  function AckedBy(acks: seq<(u32, Env)>): nat {
    if acks == [] then 0 else AckedBy(acks[..|acks| - 1]) + acks[|acks| - 1].0
  }

  /** Congestion avoidance with a usable window. */
  ghost predicate Avoiding(s: State) {
    1 <= s.tp.sndCwnd <= s.tp.sndCwndClamp && !InSlowStart(s.tp) && Priced(s.ca)
  }

  lemma AvoidStep(s: State, ack: u32, acked: u32, env: Env)
    requires Avoiding(s) && 2 * s.tp.sndCwnd + s.tp.sndCwndCnt + acked < TWO32
    ensures var after := CongAvoid(s, ack, acked, env);
            && Avoiding(after)
            && s.tp.sndCwnd <= after.tp.sndCwnd
            && 2 * after.tp.sndCwnd + after.tp.sndCwndCnt <= 2 * s.tp.sndCwnd + s.tp.sndCwndCnt + acked
  {
    UpdateIsPriced(s.ca, s.tp.sndCwnd, acked, env.jiffies, env.hz);
    var w := Update(s.ca, s.tp.sndCwnd, acked, env.jiffies, env.hz).cnt;
    CreditLimit(s.tp, w, acked, 2);
    AiNeverShrinks(s.tp, w, acked);
  }

  lemma AiNeverShrinks(tp: Tp, w: u32, acked: u32)
    requires w > 0 && tp.sndCwnd <= tp.sndCwndClamp && tp.sndCwnd + tp.sndCwndCnt + acked < TWO32
    ensures tp.sndCwnd <= CongAvoidAi(tp, w, acked).sndCwnd
  {
    var (cwnd, credit) := PayOut(tp, w);
    assert cwnd + Div(credit + acked, w) <= cwnd + credit + acked;
  }

  /**
   Over any run of ACKs in congestion avoidance, twice the window plus the credit grows
   by no more than the packets acknowledged, and the window never shrinks: a window of W
   packets grows to at most 1.5 W in the round trip that acknowledges W packets.
   */
  lemma {:induction false} GrowthLimit(s: State, acks: seq<(u32, Env)>)
    requires Avoiding(s) && 2 * s.tp.sndCwnd + s.tp.sndCwndCnt + AckedBy(acks) < TWO32
    ensures var after := AckRun(s, acks);
            && Avoiding(after)
            && s.tp.sndCwnd <= after.tp.sndCwnd
            && 2 * after.tp.sndCwnd + after.tp.sndCwndCnt <= 2 * s.tp.sndCwnd + s.tp.sndCwndCnt + AckedBy(acks)
  {
    if acks != [] {
      var init := acks[..|acks| - 1];
      var (acked, env) := acks[|acks| - 1];
      GrowthLimit(s, init);
      AvoidStep(AckRun(s, init), 0, acked, env);
    }
  }

  // ---------- one window of ACKs ----------

  /** The curve is evaluated by this call. */
  predicate Evaluates(ca: Bictcp, cwnd: u32, now: u32, hz: hertz) {
    !RecentlyUpdated(ca, cwnd, now, hz) && !SameJiffy(ca, now)
  }

  /** The target that this call computes. */
  function TargetOf(ca: Bictcp, cwnd: u32, acked: u32, now: u32, hz: hertz): u32 {
    CurveTarget(AtCurve(ca, cwnd, acked, now), now, hz)
  }

  /** The price never exceeds the one that the target asks for, except that it is at least two. */
  lemma PriceOfTarget(ca: Bictcp, cwnd: u32, acked: u32, now: u32, hz: hertz)
    requires Evaluates(ca, cwnd, now, hz) && TargetOf(ca, cwnd, acked, now, hz) > cwnd
    ensures var w, gap := Update(ca, cwnd, acked, now, hz).cnt, TargetOf(ca, cwnd, acked, now, hz) - cwnd;
            w == 2 || 2 <= w <= Div(cwnd, gap)
  {
    var c := AtCurve(ca, cwnd, acked, now);
    var target := CurveTarget(c, now, hz);
    assert PriceFor(c, cwnd, target) <= Div(cwnd, target - cwnd);
  }

  /** If a price fits into the window `gap` times, the window pays for at least `gap` packets. */
  lemma PaysForGap(cwnd: nat, w: nat, gap: nat)
    requires 0 < w <= Div(cwnd, gap) && gap > 0
    ensures Div(cwnd, w) >= gap
  {
    assert gap * w <= cwnd by {
      DivRem(cwnd, gap);
      MulMono(gap, w, Div(cwnd, gap));
    }
    DivRem(cwnd, w);
    QuotientAtMost(w, Div(cwnd, w), Rem(cwnd, w), gap, 0);
  }

  /** At a price of two, or one that fits into the window `gap` times, a window buys half of itself, or the gap. */
  lemma WindowBuysGap(cwnd: nat, w: nat, gap: nat)
    requires gap > 0 && (w == 2 || 2 <= w <= Div(cwnd, gap))
    ensures Div(cwnd, w) >= Min(gap, cwnd / 2)
  {
    if w == 2 {
      DivIsQuotient(cwnd, 2);
    } else {
      PaysForGap(cwnd, w, gap);
    }
  }

  /** Hence one window of ACKed packets at such a price gains half of itself, or the gap. */
  lemma WindowGains(tp: Tp, w: u32, gap: nat, acks: seq<u32>)
    requires gap > 0 && (w == 2 || 2 <= w <= Div(tp.sndCwnd, gap))
    requires 0 < tp.sndCwnd <= tp.sndCwndClamp && 2 * tp.sndCwnd + tp.sndCwndCnt < TWO32
    requires Total(acks) == tp.sndCwnd
    ensures AiRun(tp, w, acks).sndCwnd >= Min(tp.sndCwndClamp, Min(tp.sndCwnd + gap, tp.sndCwnd + tp.sndCwnd / 2))
  {
    WindowBuysGap(tp.sndCwnd, w, gap);
    AiRunGains(tp, w, acks);
  }

  /**
   If the curve's target is above the window, one window of ACKed packets at the
   price just computed, however it is split over calls, takes the window to the target, or
   half a window up, whichever is less; the clamp permitting.
   */
  lemma OneWindowReachesTarget(tp: Tp, ca: Bictcp, acked: u32, now: u32, hz: hertz, acks: seq<u32>)
    requires Evaluates(ca, tp.sndCwnd, now, hz)
    requires TargetOf(ca, tp.sndCwnd, acked, now, hz) > tp.sndCwnd
    requires 0 < tp.sndCwnd <= tp.sndCwndClamp && 2 * tp.sndCwnd + tp.sndCwndCnt < TWO32
    requires Total(acks) == tp.sndCwnd
    ensures var target, w := TargetOf(ca, tp.sndCwnd, acked, now, hz), Update(ca, tp.sndCwnd, acked, now, hz).cnt;
            AiRun(tp, w, acks).sndCwnd >= Min(tp.sndCwndClamp, Min(target, tp.sndCwnd + tp.sndCwnd / 2))
  {
    var w := Update(ca, tp.sndCwnd, acked, now, hz).cnt;
    PriceOfTarget(ca, tp.sndCwnd, acked, now, hz);
    WindowGains(tp, w, TargetOf(ca, tp.sndCwnd, acked, now, hz) - tp.sndCwnd, acks);
  }

  // ---------- the Reno-friendly region ----------

  /**
   The estimate of Reno's window neither makes nor loses acknowledged packets: each packet of window costs the same
   share.
   */
  lemma FriendlyConserves(ca: Bictcp, cwnd: u32)
    requires U32(cwnd * BETA_SCALE) / 8 > 0 && ca.tcpCwnd + ca.ackCnt < TWO32
    ensures var c, perPacket := TcpFriendly(ca, cwnd), U32(cwnd * BETA_SCALE) / 8;
            && (c.tcpCwnd - ca.tcpCwnd) * perPacket + c.ackCnt == ca.ackCnt
            && c.ackCnt <= perPacket
  {
    DivRem(ca.ackCnt, U32(cwnd * BETA_SCALE) / 8);
  }

  /**
   An update that is not answered early leaves a price of two, or one at which a window pays for the gap to Reno's.
   */
  lemma PriceOfReno(ca: Bictcp, cwnd: u32, acked: u32, now: u32, hz: hertz)
    requires !RecentlyUpdated(ca, cwnd, now, hz)
    ensures var c := Update(ca, cwnd, acked, now, hz);
            c.tcpCwnd > cwnd ==> c.cnt == 2 || 2 <= c.cnt <= Div(cwnd, c.tcpCwnd - cwnd)
  {
  }

  /**
   Section 4.2 of RFC 8312: where CUBIC is slower than Reno would be, one window of ACKed packets takes the
   window to Reno's, or half a window up, whichever is less; the clamp permitting.
   */
  lemma OneWindowReachesReno(tp: Tp, ca: Bictcp, acked: u32, now: u32, hz: hertz, acks: seq<u32>)
    requires !RecentlyUpdated(ca, tp.sndCwnd, now, hz)
    requires 0 < tp.sndCwnd <= tp.sndCwndClamp && 2 * tp.sndCwnd + tp.sndCwndCnt < TWO32
    requires Total(acks) == tp.sndCwnd
    ensures var c := Update(ca, tp.sndCwnd, acked, now, hz);
            c.tcpCwnd > tp.sndCwnd ==>
              AiRun(tp, c.cnt, acks).sndCwnd >= Min(tp.sndCwndClamp, Min(c.tcpCwnd, tp.sndCwnd + tp.sndCwnd / 2))
  {
    var c := Update(ca, tp.sndCwnd, acked, now, hz);
    if c.tcpCwnd > tp.sndCwnd {
      PriceOfReno(ca, tp.sndCwnd, acked, now, hz);
      WindowGains(tp, c.cnt, c.tcpCwnd - tp.sndCwnd, acks);
    }
  }

  // ---------- the curve stays anchored ----------

  /** The curve of a running epoch was anchored at a root of a positive distance, or at the window itself. */
  ghost predicate Anchored(ca: Bictcp) {
    && ca.lastMaxCwnd < WINDOW_LIMIT
    && (ca.epochStart != 0 ==>
          && ca.bicOriginPoint < WINDOW_LIMIT
          && (ca.bicK == 0
              || exists c: u32 :: c < ca.bicOriginPoint && ca.bicK == TimeToOrigin(ca.bicOriginPoint, c)))
  }

  /** The windows that CUBIC looks at are below the limit the code was designed for. */
  ghost predicate Designed(s: State, e: Event, env: Env) {
    match e
    case Acked(ack, acked) => AfterSlowStart(s, ack, acked, env).0.tp.sndCwnd < WINDOW_LIMIT
    case Loss => s.tp.sndCwnd < WINDOW_LIMIT
    case _ => true
  }

  ghost predicate DesignedRun(s: State, events: seq<(Event, Env)>) {
    forall i :: 0 <= i < |events| ==> Designed(Run(s, events[..i]), events[i].0, events[i].1)
  }

  lemma StartKeepsAnchored(ca: Bictcp, cwnd: u32, acked: u32, now: u32)
    requires Anchored(ca) && cwnd < WINDOW_LIMIT
    ensures Anchored(StartEpoch(ca, cwnd, acked, now))
  {
    var c := StartEpoch(ca, cwnd, acked, now);
    if ca.epochStart == 0 && cwnd < ca.lastMaxCwnd {
      assert c.bicK == TimeToOrigin(c.bicOriginPoint, cwnd);
    }
  }

  lemma UpdateKeepsAnchored(ca: Bictcp, cwnd: u32, acked: u32, now: u32, hz: hertz)
    requires Anchored(ca) && cwnd < WINDOW_LIMIT
    ensures Anchored(Update(ca, cwnd, acked, now, hz))
  {
    StartKeepsAnchored(ca.(ackCnt := U32(ca.ackCnt + acked), lastCwnd := cwnd, lastTime := now), cwnd, acked, now);
  }

  lemma StepKeepsAnchored(s: State, e: Event, env: Env)
    requires Anchored(s.ca) && Designed(s, e, env)
    ensures Anchored(Step(s, e, env).ca)
  {
    match e
    case Acked(ack, acked) =>
      var (s1, left) := AfterSlowStart(s, ack, acked, env);
      UpdateKeepsAnchored(s1.ca, s1.tp.sndCwnd, left, env.jiffies, env.hz);
    case _ =>
  }

  lemma {:induction false} RunKeepsAnchored(s: State, events: seq<(Event, Env)>)
    requires Anchored(s.ca) && DesignedRun(s, events)
    ensures Anchored(Run(s, events).ca)
  {
    if events != [] {
      var init := events[..|events| - 1];
      var (e, env) := events[|events| - 1];
      assert forall i :: 0 <= i < |init| ==> init[..i] == events[..i];
      RunKeepsAnchored(s, init);
      StepKeepsAnchored(Run(s, init), e, env);
    }
  }

  /** At time `t` the curve of this epoch is computed without any reduction. */
  ghost predicate CurveFitsAt(c: Bictcp, t: nat) {
    var offs := if t < c.bicK then c.bicK - t else t - c.bicK;
    offs < TWO64 && CurveDelta(offs) == Curve(offs) < TWO24
  }

  /**
   In every state that windows below one million can reach, and for 340 seconds of epoch,
   evaluating the curve overflows neither 64 nor 32 bits.
   */
  lemma CurveNeverOverflows(tp: Tp, ca: Bictcp, env0: Env, events: seq<(Event, Env)>, t: nat)
    requires DesignedRun(Init(tp, ca, env0), events) && t <= TIME_LIMIT
    ensures var c := Run(Init(tp, ca, env0), events).ca;
            c.epochStart != 0 ==> CurveFitsAt(c, t)
  {
    var s0 := Init(tp, ca, env0);
    RunKeepsAnchored(s0, events);
    if Run(s0, events).ca.epochStart != 0 {
      AnchoredCurveFits(Run(s0, events).ca, t);
    }
  }

  lemma AnchoredCurveFits(c: Bictcp, t: nat)
    requires Anchored(c) && c.epochStart != 0 && t <= TIME_LIMIT
    ensures CurveFitsAt(c, t)
  {
    AnchoredRootLimit(c);
    CurveFits(if t < c.bicK then c.bicK - t else t - c.bicK);
  }

  lemma AnchoredRootLimit(c: Bictcp)
    requires Anchored(c) && c.epochStart != 0
    ensures c.bicK <= 145_900
  {
    if c.bicK != 0 {
      var w: u32 :| w < c.bicOriginPoint && c.bicK == TimeToOrigin(c.bicOriginPoint, w);
      TimeToOriginLimit(c.bicOriginPoint, w);
    }
  }

  // ---------- the clock ----------

  /**
   The jiffies clock never goes back, stays clear of the sign bit, and is not behind the last transmission; `now` is
   not before it.
   */
  ghost predicate Clock(events: seq<(Event, Env)>, now: nat) {
    && now < TWO31
    && (forall i :: 0 <= i < |events| ==> events[i].1.lsndtime <= events[i].1.jiffies <= now)
    && (forall i, j :: 0 <= i <= j < |events| ==> events[i].1.jiffies <= events[j].1.jiffies)
  }

  lemma UpdateEpoch(ca: Bictcp, cwnd: u32, acked: u32, now: u32, hz: hertz)
    ensures var c := Update(ca, cwnd, acked, now, hz);
            c.epochStart == ca.epochStart || c.epochStart == now
  {
  }

  lemma TxStartEpoch(ca: Bictcp, env: Env)
    requires ca.epochStart <= env.jiffies < TWO31 && env.lsndtime <= env.jiffies
    ensures TxStart(ca, env).epochStart <= env.jiffies
  {
  }

  lemma StepEpoch(s: State, e: Event, env: Env)
    requires s.ca.epochStart <= env.jiffies < TWO31 && env.lsndtime <= env.jiffies
    ensures Step(s, e, env).ca.epochStart <= env.jiffies
  {
    match e
    case Acked(ack, acked) =>
      var (s1, left) := AfterSlowStart(s, ack, acked, env);
      UpdateEpoch(s1.ca, s1.tp.sndCwnd, left, env.jiffies, env.hz);
    case Restart => TxStartEpoch(s.ca, env);
    case _ =>
  }

  /** In every reachable state the epoch did not start in the future. */
  lemma {:induction false} EpochInPast(tp: Tp, ca: Bictcp, env0: Env, events: seq<(Event, Env)>, now: nat)
    requires Clock(events, now)
    ensures Run(Init(tp, ca, env0), events).ca.epochStart <= now
  {
    if events != [] {
      var k := |events| - 1;
      EpochInPast(tp, ca, env0, events[..k], events[k].1.jiffies);
      StepEpoch(Run(Init(tp, ca, env0), events[..k]), events[k].0, events[k].1);
    }
  }

  /** Microseconds since the epoch began, in whole jiffies, plus the smallest delay. */
  function Micros(ca: Bictcp, now: u32, hz: hertz): int {
    (now - ca.epochStart) * Div(1_000_000, hz) + ca.delayMin
  }

  /** The time at which the curve is evaluated is exact for 340 seconds of epoch and delay. */
  lemma ElapsedIsExact(ca: Bictcp, now: u32, hz: hertz)
    requires ca.epochStart <= now < TWO31 && Micros(ca, now, hz) <= 340_000_000
    ensures ElapsedTime(ca, now, hz) == Micros(ca, now, hz) * 1024 / 1_000_000 <= TIME_LIMIT
  {
    var passed: int := now - ca.epochStart;
    var micros := passed * Div(1_000_000, hz);
    assert S32(passed) == passed && micros >= 0 by {
      MulMono(Div(1_000_000, hz), 0, passed);
    }
    assert U64(micros) == micros;
  }

  /** The same over runs: in every evaluation within 340 seconds neither the time nor the curve is reduced. */
  lemma EvaluationNeverOverflows(tp: Tp, ca: Bictcp, env0: Env, events: seq<(Event, Env)>,
                                 cwnd: u32, acked: u32, env: Env)
    requires DesignedRun(Init(tp, ca, env0), events) && cwnd < WINDOW_LIMIT
    requires Clock(events, env.jiffies) && env.jiffies > 0
    requires var c := AtCurve(Run(Init(tp, ca, env0), events).ca, cwnd, acked, env.jiffies);
             Micros(c, env.jiffies, env.hz) <= 340_000_000
    ensures var c := AtCurve(Run(Init(tp, ca, env0), events).ca, cwnd, acked, env.jiffies);
            && ElapsedTime(c, env.jiffies, env.hz) == Micros(c, env.jiffies, env.hz) * 1024 / 1_000_000 <= TIME_LIMIT
            && CurveFitsAt(c, ElapsedTime(c, env.jiffies, env.hz))
  {
    var s := Run(Init(tp, ca, env0), events);
    RunKeepsAnchored(Init(tp, ca, env0), events);
    EpochInPast(tp, ca, env0, events, env.jiffies);
    EvaluationFits(s.ca, cwnd, acked, env.jiffies, env.hz);
  }

  lemma EvaluationFits(ca: Bictcp, cwnd: u32, acked: u32, now: u32, hz: hertz)
    requires Anchored(ca) && cwnd < WINDOW_LIMIT && 0 < now < TWO31 && ca.epochStart <= now
    requires Micros(AtCurve(ca, cwnd, acked, now), now, hz) <= 340_000_000
    ensures var c := AtCurve(ca, cwnd, acked, now);
            && ElapsedTime(c, now, hz) == Micros(c, now, hz) * 1024 / 1_000_000 <= TIME_LIMIT
            && CurveFitsAt(c, ElapsedTime(c, now, hz))
  {
    var c := AtCurve(ca, cwnd, acked, now);
    StartKeepsAnchored(ca.(ackCnt := U32(ca.ackCnt + acked), lastCwnd := cwnd, lastTime := now), cwnd, acked, now);
    ElapsedIsExact(c, now, hz);
    AnchoredCurveFits(c, ElapsedTime(c, now, hz));
  }

  lemma ElapsedMonotone(ca: Bictcp, now1: u32, now2: u32, hz: hertz)
    requires ca.epochStart <= now1 <= now2 < TWO31 && Micros(ca, now2, hz) <= 340_000_000
    ensures ElapsedTime(ca, now1, hz) <= ElapsedTime(ca, now2, hz) <= TIME_LIMIT
  {
    MulMono(Div(1_000_000, hz), now1 - ca.epochStart, now2 - ca.epochStart);
    ElapsedIsExact(ca, now1, hz);
    ElapsedIsExact(ca, now2, hz);
  }

  /** As jiffies pass in an epoch anchored at a restart, the target that the code computes never shrinks. */
  lemma TargetRisesWithClock(ca: Bictcp, cwnd: u32, now1: u32, now2: u32, hz: hertz)
    requires cwnd < ca.bicOriginPoint < WINDOW_LIMIT && ca.bicOriginPoint <= 7 * cwnd
    requires ca.bicK == TimeToOrigin(ca.bicOriginPoint, cwnd)
    requires ca.epochStart <= now1 <= now2 < TWO31 && Micros(ca, now2, hz) <= 340_000_000
    ensures CurveTarget(ca, now1, hz) <= CurveTarget(ca, now2, hz)
  {
    ElapsedMonotone(ca, now1, now2, hz);
    TargetMonotone(ca.bicOriginPoint, cwnd, ElapsedTime(ca, now1, hz), ElapsedTime(ca, now2, hz));
  }

  // ---------- after a loss ----------

  /** At time `t` the target is the exact curve around the remembered maximum. */
  predicate NoWrapAt(c: Bictcp, t: u64) {
    Target(c.bicOriginPoint, c.bicK, t)
    == if t < c.bicK then c.lastMaxCwnd - Curve(c.bicK - t) else c.lastMaxCwnd + Curve(t - c.bicK)
  }

  /** The first target is at most 16.03% of the gap below the window, and at most 1% of it and a packet above. */
  predicate StartsNear(c: Bictcp, cwnd: u32) {
    var gap, first := c.lastMaxCwnd - cwnd, Target(c.bicOriginPoint, c.bicK, 0);
    10000 * (cwnd - first) <= 1603 * gap && 100 * (first - cwnd) < gap + 100
  }

  /**
   The epoch that follows a loss: when it starts at any window from the new threshold up to the remembered
   maximum, the whole curve is free of wrap-around, and it starts within 16.03% of the gap from the window.
   */
  lemma EpochAfterLoss(s: State, cwnd: u32, acked: u32, now: u32, t: u64)
    requires s.tp.sndCwnd < WINDOW_LIMIT && now != 0 && t <= TIME_LIMIT
    requires RecalcSsthresh(s).1 <= cwnd < RecalcSsthresh(s).0.lastMaxCwnd
    ensures var c := StartEpoch(RecalcSsthresh(s).0, cwnd, acked, now);
            && c.bicOriginPoint == c.lastMaxCwnd <= s.tp.sndCwnd
            && StartsNear(c, cwnd) && NoWrapAt(c, t)
  {
    RestartKeepsProportion(s.tp.sndCwnd);
    EpochFrom(RecalcSsthresh(s).0, cwnd, acked, now, t);
  }

  lemma EpochFrom(ca: Bictcp, cwnd: u32, acked: u32, now: u32, t: u64)
    requires ca.epochStart == 0 && cwnd < ca.lastMaxCwnd < WINDOW_LIMIT && ca.lastMaxCwnd <= 7 * cwnd
    requires t <= TIME_LIMIT
    ensures var c := StartEpoch(ca, cwnd, acked, now);
            && c.bicOriginPoint == c.lastMaxCwnd == ca.lastMaxCwnd
            && StartsNear(c, cwnd) && NoWrapAt(c, t)
  {
    CurveInvertsRoot(ca.lastMaxCwnd, cwnd);
    TargetIsCurve(ca.lastMaxCwnd, cwnd, t);
    TargetIsCurve(ca.lastMaxCwnd, cwnd, 0);
    assert Curve(0) == 0;
  }

  // ---------- below a seventh of the maximum ----------

  /** The window is what the ACK callback looks at, in congestion avoidance. */
  predicate AvoidsAt(tp: Tp, cwnd: u32) {
    tp.sndCwnd == cwnd && !InSlowStart(tp) && tp.isCwndLimited
  }

  /**
   An epoch that starts too far below the maximum: the first target is almost 2^32, so the price is the least there
   is.
   */
  lemma WrappedUpdate(ca: Bictcp, lastMax: u32, cwnd: u32, acked: u32, now: u32, hz: hertz)
    requires lastMax == 484502 && cwnd == 64661 && acked <= 100
    requires ca.lastMaxCwnd == lastMax && ca.epochStart == 0 && ca.delayMin == 0 && ca.lastCwnd == 0
    ensures Evaluates(ca, cwnd, now, hz) && TargetOf(ca, cwnd, acked, now, hz) == TWO32 - 1
    ensures Update(ca, cwnd, acked, now, hz).cnt == 2
  {
    EightIsTooMuch(lastMax, cwnd);
    var c := AtCurve(ca, cwnd, acked, now);
    assert ElapsedTime(c, now, hz) == 0;
    assert Div(cwnd, TWO32 - 1 - cwnd) == 0;
  }

  lemma AfterLoss(tp0: Tp, ca0: Bictcp, env0: Env, tp1: Tp, env1: Env, env2: Env, tp2: Tp, env3: Env)
    ensures var events := [(Kernel(tp1), env1), (Loss, env2), (Kernel(tp2), env3)];
            var s := Run(Init(tp0, ca0, env0), events);
            && s.tp == tp2 && s.ca.lastMaxCwnd == tp1.sndCwnd && s.ca.epochStart == 0
            && s.ca.delayMin == 0 && s.ca.lastCwnd == 0
  {
    var events := [(Kernel(tp1), env1), (Loss, env2), (Kernel(tp2), env3)];
    var s0, first, second := Init(tp0, ca0, env0), [events[0]], [events[0], events[1]];
    assert first[..0] == [] && second[..1] == first && events[..2] == second;
    assert Run(s0, first) == s0.(tp := tp1);
    assert Run(s0, second) == Step(Run(s0, first), Loss, env2);
    assert Run(s0, events) == Run(s0, second).(tp := tp2);
  }

  /**
   A run from a new connection that reaches such an epoch: a loss at 484502 packets, then a window of 64661. The next
   ACK asks for a window of 2^32 - 1, where the curve itself is below zero, and the window grows as fast as it can.
   */
  lemma EightIsReached(tp0: Tp, ca0: Bictcp, env0: Env, tp1: Tp, env1: Env, env2: Env, tp2: Tp, env3: Env,
                       ack: u32, acked: u32, env4: Env)
    requires tp1.sndCwnd == 484502 && AvoidsAt(tp2, 64661) && acked <= 100
    ensures var events := [(Kernel(tp1), env1), (Loss, env2), (Kernel(tp2), env3)];
            var s := Run(Init(tp0, ca0, env0), events);
            && Evaluates(s.ca, s.tp.sndCwnd, env4.jiffies, env4.hz)
            && TargetOf(s.ca, s.tp.sndCwnd, acked, env4.jiffies, env4.hz) == TWO32 - 1
            && Step(s, Acked(ack, acked), env4).ca.cnt == 2
  {
    AfterLoss(tp0, ca0, env0, tp1, env1, env2, tp2, env3);
    var s := Run(Init(tp0, ca0, env0), [(Kernel(tp1), env1), (Loss, env2), (Kernel(tp2), env3)]);
    WrappedStep(s, ack, acked, env4);
  }

  lemma WrappedStep(s: State, ack: u32, acked: u32, env: Env)
    requires AvoidsAt(s.tp, 64661) && acked <= 100
    requires s.ca.lastMaxCwnd == 484502 && s.ca.epochStart == 0 && s.ca.delayMin == 0 && s.ca.lastCwnd == 0
    ensures Evaluates(s.ca, s.tp.sndCwnd, env.jiffies, env.hz)
    ensures TargetOf(s.ca, s.tp.sndCwnd, acked, env.jiffies, env.hz) == TWO32 - 1
    ensures Step(s, Acked(ack, acked), env).ca.cnt == 2
  {
    WrappedUpdate(s.ca, s.ca.lastMaxCwnd, s.tp.sndCwnd, acked, env.jiffies, env.hz);
  }

  // ---------- idle restart and HyStart ----------

  /**
   In every reachable state, an idle period does not count: the elapsed time shrinks by its length, and never below
   zero.
   */
  lemma IdleDoesNotCount(tp: Tp, ca: Bictcp, env0: Env, events: seq<(Event, Env)>, env: Env)
    requires Clock(events, env.jiffies) && env.lsndtime <= env.jiffies
    ensures var c := Run(Init(tp, ca, env0), events).ca;
            var shifted := TxStart(c, env).epochStart;
            c.epochStart != 0 ==>
              && env.jiffies - shifted == Max(0, env.jiffies - c.epochStart - (env.jiffies - env.lsndtime))
              && shifted > 0
  {
    EpochInPast(tp, ca, env0, events, env.jiffies);
    if Run(Init(tp, ca, env0), events).ca.epochStart != 0 {
      IdleShift(Run(Init(tp, ca, env0), events).ca, env);
    }
  }

  lemma IdleShift(ca: Bictcp, env: Env)
    requires 0 < ca.epochStart <= env.jiffies < TWO31 && env.lsndtime <= env.jiffies
    ensures env.jiffies - TxStart(ca, env).epochStart
            == Max(0, env.jiffies - ca.epochStart - (env.jiffies - env.lsndtime))
    ensures TxStart(ca, env).epochStart > 0
  {
  }

  /**
   HyStart can only end slow start: a delay sample either leaves the window arithmetic alone or
   lowers the threshold to the window, and does so at most once between two resets.
   */
  lemma HystartEndsSlowStart(s: State, rttUs: s32, env: Env)
    ensures var after := PktsAcked(s, rttUs, env);
            if after.ca.found == s.ca.found then after.tp == s.tp
            else !s.ca.found && after.tp == s.tp.(sndSsthresh := s.tp.sndCwnd)
                 && s.tp.sndCwnd < s.tp.sndSsthresh && !InSlowStart(after.tp)
  {
  }

  // ---------- the smallest delay ----------

  /** The delay samples that were not discarded, since the connection began or last lost its retransmission timer. */
  function Delays(s: State, events: seq<(Event, Env)>): seq<u32> {
    if events == [] then []
    else
      var init := events[..|events| - 1];
      var before := Delays(s, init);
      var (e, env) := events[|events| - 1];
      match e
      case Sample(rttUs) => if Discarded(Run(s, init).ca, rttUs, env) then before else before + [Max(rttUs, 1)]
      case NewState(newState) => if newState == TCP_CA_LOSS then [] else before
      case _ => before
  }

  /** Zero stands for no sample at all; otherwise it is one of the samples and none is smaller. */
  ghost predicate IsSmallest(delayMin: u32, delays: seq<u32>) {
    if delays == [] then delayMin == 0
    else delayMin >= 1 && delayMin in delays && forall d :: d in delays ==> delayMin <= d
  }

  lemma StepDelayMin(s: State, e: Event, env: Env)
    ensures var after := Step(s, e, env).ca.delayMin;
            match e
            case Sample(rttUs) =>
              if Discarded(s.ca, rttUs, env) then after == s.ca.delayMin
              else after == if s.ca.delayMin == 0 then Max(rttUs, 1) else Min(s.ca.delayMin, Max(rttUs, 1))
            case NewState(newState) => after == if newState == TCP_CA_LOSS then 0 else s.ca.delayMin
            case _ => after == s.ca.delayMin
  {
  }

  lemma SmallestAppend(delayMin: u32, delays: seq<u32>, d: u32)
    requires IsSmallest(delayMin, delays) && d >= 1
    ensures IsSmallest(if delayMin == 0 then d else Min(delayMin, d), delays + [d])
  {
  }

  /** In every reachable state `delay_min` is the minimum of the samples that count. */
  lemma {:induction false} DelayMinIsMinimum(tp: Tp, ca: Bictcp, env0: Env, events: seq<(Event, Env)>)
    ensures var s0 := Init(tp, ca, env0);
            IsSmallest(Run(s0, events).ca.delayMin, Delays(s0, events))
  {
    var s0 := Init(tp, ca, env0);
    if events != [] {
      var init := events[..|events| - 1];
      var (e, env) := events[|events| - 1];
      DelayMinIsMinimum(tp, ca, env0, init);
      StepDelayMin(Run(s0, init), e, env);
      if e.Sample? && !Discarded(Run(s0, init).ca, e.rttUs, env) {
        SmallestAppend(Run(s0, init).ca.delayMin, Delays(s0, init), Max(e.rttUs, 1));
      }
    }
  }
}
