/**
 How fast CUBIC grows, from both sides: the price follows the curve, or Reno where that is faster; one window of ACKs
 gains about the gap to them and on the plateau next to nothing; and what a loss, an epoch and an ACK do to the values
 behind the price.
 */
module CubicGrowth {
  import opened Words
  import opened Arith
  import opened Tcp
  import opened CubicCurve
  import opened Cubic
  import opened CubicRuns

  // ---------- the price, exactly ----------

  /** How far the curve's target and Reno's estimate are above the window, whichever is farther. */
  function Gap(cwnd: u32, target: u32, reno: u32): nat {
    Max(0, Max(target - cwnd, reno - cwnd))
  }

  /** The price at which one window of ACKs pays for the gap, or for a hundredth of the window on the plateau. */
  function WholePrice(cwnd: u32, gap: nat): nat {
    if gap > 0 then Div(cwnd, gap) else 100 * cwnd
  }

  /** Until a loss has been seen the price is at most 20, and it is never below two. */
  function Price(cwnd: u32, gap: nat, lastMax: u32): nat {
    Max(2, if lastMax == 0 then Min(20, WholePrice(cwnd, gap)) else WholePrice(cwnd, gap))
  }

  lemma DivAnti(x: nat, g1: nat, g2: nat)
    requires 0 < g1 <= g2
    ensures Div(x, g2) <= Div(x, g1)
  {
    DivRem(x, g1);
    DivRem(x, g2);
    MulMono(Div(x, g2), g1, g2);
    QuotientAtMost(g1, Div(x, g1), Rem(x, g1), Div(x, g2), 0);
  }

  /** The smaller of the prices for two gaps is the price for the larger one. */
  lemma SmallerPrice(cwnd: u32, target: u32, reno: u32)
    ensures Min(WholePrice(cwnd, Max(0, target - cwnd)), WholePrice(cwnd, Max(0, reno - cwnd)))
            == WholePrice(cwnd, Gap(cwnd, target, reno))
  {
    var g1, g2 := Max(0, target - cwnd), Max(0, reno - cwnd);
    if 0 < g1 <= g2 {
      DivAnti(cwnd, g1, g2);
    } else if 0 < g2 <= g1 {
      DivAnti(cwnd, g2, g1);
    }
  }

  lemma CurvePrice(ca: Bictcp, cwnd: u32, target: u32)
    requires 0 < cwnd && 100 * cwnd < TWO32
    ensures var whole := WholePrice(cwnd, Max(0, target - cwnd));
            PriceFor(ca, cwnd, target) == if ca.lastMaxCwnd == 0 then Min(20, whole) else whole
  {
  }

  lemma FriendlyPrice(ca: Bictcp, cwnd: u32)
    requires 0 < cwnd && ca.cnt <= 100 * cwnd
    ensures var c := TcpFriendly(ca, cwnd);
            c.cnt == Min(ca.cnt, WholePrice(cwnd, Max(0, c.tcpCwnd - cwnd)))
  {
  }

  /** What an evaluated update asks for: exactly the price for the larger of the two gaps. */
  lemma PriceExact(ca: Bictcp, cwnd: u32, acked: u32, now: u32, hz: hertz)
    requires Evaluates(ca, cwnd, now, hz) && 0 < cwnd && 100 * cwnd < TWO32
    ensures var c, target := Update(ca, cwnd, acked, now, hz), TargetOf(ca, cwnd, acked, now, hz);
            c.cnt == Price(cwnd, Gap(cwnd, target, c.tcpCwnd), ca.lastMaxCwnd)
  {
    var c := AtCurve(ca, cwnd, acked, now);
    var target := CurveTarget(c, now, hz);
    CurvePrice(c, cwnd, target);
    var priced := c.(cnt := PriceFor(c, cwnd, target));
    FriendlyPrice(priced, cwnd);
    SmallerPrice(cwnd, target, TcpFriendly(priced, cwnd).tcpCwnd);
  }

  // ---------- one window of ACKs ----------

  /** At a price above zero one window of ACKs gains what it pays for, and at most one packet more from old credit. */
  lemma WindowGain(tp: Tp, w: u32, acks: seq<u32>)
    requires w > 0 && acks != [] && tp.sndCwnd <= tp.sndCwndClamp
    requires Total(acks) == tp.sndCwnd && 2 * tp.sndCwnd + tp.sndCwndCnt + 1 < TWO32
    ensures var cwnd, after := tp.sndCwnd, AiRun(tp, w, acks).sndCwnd;
            Min(tp.sndCwndClamp, cwnd + Div(cwnd, w)) <= after <= cwnd + Div(cwnd, w) + 1
  {
    AiRunExact(tp, w, acks);
    if tp.sndCwndCnt < w {
      CreditBuysOne(tp.sndCwnd, tp.sndCwndCnt, w);
    }
  }

  lemma CreditBuysOne(x: nat, credit: nat, w: nat)
    requires credit < w
    ensures Div(x, w) <= Div(credit + x, w) <= Div(x, w) + 1
  {
    DivRem(x, w);
    DivInTwo(x, credit, w);
    SmallQuotient(Rem(x, w) + credit, w);
  }

  lemma SmallQuotient(x: nat, w: nat)
    requires w > 0 && x < 2 * w
    ensures Div(x, w) <= 1
  {
    DivRem(x, w);
    QuotientAtMost(w, 1, w - 1, Div(x, w), Rem(x, w));
  }

  /**
   At the price for a gap a window pays for at least the gap or half of itself, and for less than one and a half times
   the gap.
   */
  lemma PriceOfGap(cwnd: nat, gap: nat)
    requires gap > 0
    ensures var q := Div(cwnd, Max(2, Div(cwnd, gap)));
            Min(gap, cwnd / 2) <= q <= cwnd / 2 && 2 * q < 3 * gap
  {
    var w := Max(2, Div(cwnd, gap));
    WindowBuysGap(cwnd, w, gap);
    AtMostHalf(cwnd, w);
    PaysLess(cwnd, w, gap);
  }

  lemma AtMostHalf(x: nat, w: nat)
    requires w >= 2
    ensures Div(x, w) <= x / 2
  {
    var two := 2;
    DivAnti(x, two, w);
    DivIsQuotient(x, two);
  }

  lemma PaysLess(cwnd: nat, w: nat, gap: nat)
    requires gap > 0 && w >= 2 && Div(cwnd, gap) <= w
    ensures 2 * Div(cwnd, w) < 3 * gap
  {
    DivRem(cwnd, w);
    DivLessThan(cwnd, gap, w);
    LessThanHalfMore(Div(cwnd, w), w, gap);
  }

  lemma DivLessThan(x: nat, y: nat, q: nat)
    requires y > 0 && Div(x, y) <= q
    ensures x < y * (q + 1)
  {
    DivRem(x, y);
    MulMono(y, Div(x, y), q);
  }

  lemma LessThanHalfMore(q: nat, w: nat, gap: nat)
    requires w >= 2 && q * w < gap * (w + 1)
    ensures 2 * q < 3 * gap
  {
    assert gap * (w + 1) == gap * w + gap;
    MulMono(gap, 2, w);
    assert w * (3 * gap) == 3 * (gap * w) && w * (2 * q) == 2 * (q * w);
    if 2 * q >= 3 * gap {
      MulMono(w, 3 * gap, 2 * q);
    }
  }

  /**
   After a loss, with the target or Reno's estimate above the window: one window of ACKed packets takes the window up
   by the gap, or half of itself, and by less than one and a half times the gap and one packet. CUBIC follows its
   curve and does not outrun it.
   */
  lemma OneWindowFollowsCurve(tp: Tp, ca: Bictcp, acked: u32, now: u32, hz: hertz, acks: seq<u32>)
    requires Evaluates(ca, tp.sndCwnd, now, hz) && ca.lastMaxCwnd != 0
    requires 0 < tp.sndCwnd <= tp.sndCwndClamp && 100 * tp.sndCwnd < TWO32
    requires 2 * tp.sndCwnd + tp.sndCwndCnt + 1 < TWO32 && acks != [] && Total(acks) == tp.sndCwnd
    ensures var c, cwnd := Update(ca, tp.sndCwnd, acked, now, hz), tp.sndCwnd;
            var gap := Gap(cwnd, TargetOf(ca, cwnd, acked, now, hz), c.tcpCwnd);
            var after := AiRun(tp, c.cnt, acks).sndCwnd;
            gap > 0 ==>
              && Min(tp.sndCwndClamp, cwnd + Min(gap, cwnd / 2)) <= after
              && after <= cwnd + cwnd / 2 + 1 && 2 * (after - cwnd - 1) < 3 * gap
  {
    var c, cwnd := Update(ca, tp.sndCwnd, acked, now, hz), tp.sndCwnd;
    var gap := Gap(cwnd, TargetOf(ca, cwnd, acked, now, hz), c.tcpCwnd);
    PriceExact(ca, cwnd, acked, now, hz);
    if gap > 0 {
      WindowFollows(tp, c.cnt, gap, acks);
    }
  }

  lemma WindowFollows(tp: Tp, w: u32, gap: nat, acks: seq<u32>)
    requires gap > 0 && w == Max(2, Div(tp.sndCwnd, gap)) && 0 < tp.sndCwnd <= tp.sndCwndClamp
    requires 2 * tp.sndCwnd + tp.sndCwndCnt + 1 < TWO32 && acks != [] && Total(acks) == tp.sndCwnd
    ensures var cwnd, after := tp.sndCwnd, AiRun(tp, w, acks).sndCwnd;
            && Min(tp.sndCwndClamp, cwnd + Min(gap, cwnd / 2)) <= after
            && after <= cwnd + cwnd / 2 + 1 && 2 * (after - cwnd - 1) < 3 * gap
  {
    PriceOfGap(tp.sndCwnd, gap);
    WindowGain(tp, w, acks);
  }

  /**
   On the plateau, with neither above the window: a window of ACKs gains at most one packet, and none before 100
   windows are paid.
   */
  lemma PlateauHolds(tp: Tp, ca: Bictcp, acked: u32, now: u32, hz: hertz, acks: seq<u32>)
    requires Evaluates(ca, tp.sndCwnd, now, hz) && ca.lastMaxCwnd != 0
    requires 0 < tp.sndCwnd <= tp.sndCwndClamp && 100 * tp.sndCwnd < TWO32
    requires tp.sndCwnd + tp.sndCwndCnt + Total(acks) + 1 < TWO32 && acks != []
    ensures var c, cwnd := Update(ca, tp.sndCwnd, acked, now, hz), tp.sndCwnd;
            var after := AiRun(tp, c.cnt, acks).sndCwnd;
            Gap(cwnd, TargetOf(ca, cwnd, acked, now, hz), c.tcpCwnd) == 0 ==>
              && c.cnt == 100 * cwnd
              && (Total(acks) <= cwnd ==> after <= cwnd + 1)
              && (tp.sndCwndCnt + Total(acks) < 100 * cwnd ==> after == cwnd)
  {
    var c, cwnd := Update(ca, tp.sndCwnd, acked, now, hz), tp.sndCwnd;
    PriceExact(ca, cwnd, acked, now, hz);
    if Gap(cwnd, TargetOf(ca, cwnd, acked, now, hz), c.tcpCwnd) == 0 {
      PlateauRun(tp, c.cnt, acks);
    }
  }

  lemma PlateauRun(tp: Tp, w: u32, acks: seq<u32>)
    requires 0 < tp.sndCwnd <= tp.sndCwndClamp && w == 100 * tp.sndCwnd
    requires tp.sndCwnd + tp.sndCwndCnt + Total(acks) + 1 < TWO32 && acks != []
    ensures var cwnd, after := tp.sndCwnd, AiRun(tp, w, acks).sndCwnd;
            && (Total(acks) <= cwnd ==> after <= cwnd + 1)
            && (tp.sndCwndCnt + Total(acks) < w ==> after == cwnd)
  {
    AiRunExact(tp, w, acks);
    PlateauQuotients(tp.sndCwnd, w, tp.sndCwndCnt, Total(acks));
  }

  lemma PlateauQuotients(cwnd: nat, w: nat, credit: nat, packets: nat)
    requires cwnd > 0 && w == 100 * cwnd
    ensures packets <= cwnd ==> Div(packets, w) == 0 && (credit < w ==> Div(credit + packets, w) <= 1)
    ensures credit + packets < w ==> Div(credit + packets, w) == 0
  {
    if packets <= cwnd && credit < w {
      SmallQuotient(credit + packets, w);
    }
  }

  /** Before any loss, with neither above the window, the price is 20: five percent per round trip. */
  lemma ProbingGrowth(tp: Tp, ca: Bictcp, acked: u32, now: u32, hz: hertz, acks: seq<u32>)
    requires Evaluates(ca, tp.sndCwnd, now, hz) && ca.lastMaxCwnd == 0
    requires 0 < tp.sndCwnd <= tp.sndCwndClamp && 100 * tp.sndCwnd < TWO32
    requires 2 * tp.sndCwnd + tp.sndCwndCnt + 1 < TWO32 && acks != [] && Total(acks) == tp.sndCwnd
    ensures var c, cwnd := Update(ca, tp.sndCwnd, acked, now, hz), tp.sndCwnd;
            var after := AiRun(tp, c.cnt, acks).sndCwnd;
            Gap(cwnd, TargetOf(ca, cwnd, acked, now, hz), c.tcpCwnd) == 0 ==>
              Min(tp.sndCwndClamp, cwnd + cwnd / 20) <= after <= cwnd + cwnd / 20 + 1
  {
    var c, cwnd := Update(ca, tp.sndCwnd, acked, now, hz), tp.sndCwnd;
    PriceExact(ca, cwnd, acked, now, hz);
    if Gap(cwnd, TargetOf(ca, cwnd, acked, now, hz), c.tcpCwnd) == 0 {
      assert c.cnt == 20;
      WindowGain(tp, c.cnt, acks);
      var w := c.cnt;
      DivIsQuotient(cwnd, w);
    }
  }

  // ---------- from the update to the window ----------

  /** Through a run of ACKs within one jiffy Reno's estimate never gets ahead of the window. */
  predicate RenoBehind(s: State, acks: seq<(u32, Env)>) {
    acks == []
    || (var k := |acks| - 1;
        var before := AckRun(s, acks[..k]);
        && RenoBehind(s, acks[..k])
        && Update(before.ca, before.tp.sndCwnd, acks[k].0, acks[k].1.jiffies, acks[k].1.hz).tcpCwnd
           <= before.tp.sndCwnd)
  }

  function Packets(acks: seq<(u32, Env)>): seq<u32> {
    if acks == [] then [] else Packets(acks[..|acks| - 1]) + [acks[|acks| - 1].0]
  }

  lemma {:induction false} PacketsTotal(acks: seq<(u32, Env)>)
    ensures Total(Packets(acks)) == AckedBy(acks) && |Packets(acks)| == |acks|
  {
    if acks != [] {
      PacketsTotal(acks[..|acks| - 1]);
      assert Packets(acks)[..|acks| - 1] == Packets(acks[..|acks| - 1]);
    }
  }

  lemma OneMorePacket(tp: Tp, w: u32, acks: seq<(u32, Env)>)
    requires acks != []
    ensures AiRun(tp, w, Packets(acks))
            == CongAvoidAi(AiRun(tp, w, Packets(acks[..|acks| - 1])), w, acks[|acks| - 1].0)
  {
    assert Packets(acks)[..|Packets(acks)| - 1] == Packets(acks[..|acks| - 1]);
  }

  /** Congestion avoidance just after an evaluation in jiffy `now`. */
  ghost predicate Evaluated(s: State, now: u32) {
    && s.tp.isCwndLimited && !InSlowStart(s.tp) && s.ca.epochStart != 0 && s.ca.lastTime == now && s.ca.cnt >= 2
    && s.tp.sndCwnd <= s.tp.sndCwndClamp
  }

  lemma JiffyStep(s: State, ack: u32, acked: u32, env: Env)
    requires Evaluated(s, env.jiffies)
    requires Update(s.ca, s.tp.sndCwnd, acked, env.jiffies, env.hz).tcpCwnd <= s.tp.sndCwnd
    requires s.tp.sndCwnd + s.tp.sndCwndCnt + acked < TWO32
    ensures var after := CongAvoid(s, ack, acked, env);
            && after.tp == CongAvoidAi(s.tp, s.ca.cnt, acked) && after.ca.cnt == s.ca.cnt
            && Evaluated(after, env.jiffies)
  {
    AiNeverShrinks(s.tp, s.ca.cnt, acked);
  }

  /**
   The ACKs of one jiffy are all paid for at the price of its evaluation: the callback is the additive increase of
   that price.
   */
  lemma {:induction false} JiffyRun(s: State, now: u32, acks: seq<(u32, Env)>)
    requires Evaluated(s, now) && RenoBehind(s, acks)
    requires forall i :: 0 <= i < |acks| ==> acks[i].1.jiffies == now
    requires s.tp.sndCwnd + s.tp.sndCwndCnt + AckedBy(acks) < TWO32
    ensures var after := AckRun(s, acks);
            && after.tp == AiRun(s.tp, s.ca.cnt, Packets(acks)) && after.ca.cnt == s.ca.cnt && Evaluated(after, now)
            && after.tp.sndCwnd + after.tp.sndCwndCnt <= s.tp.sndCwnd + s.tp.sndCwndCnt + AckedBy(acks)
  {
    if acks != [] {
      var k := |acks| - 1;
      JiffyRun(s, now, acks[..k]);
      var mid := AckRun(s, acks[..k]);
      JiffyStep(mid, 0, acks[k].0, acks[k].1);
      CreditLimit(mid.tp, s.ca.cnt, acks[k].0, 1);
      OneMorePacket(s.tp, s.ca.cnt, acks);
    }
  }

  /** An ACK in congestion avoidance looks up the price first and increases the window at it. */
  lemma AvoidanceUsesPrice(s: State, ack: u32, acked: u32, env: Env)
    requires s.tp.isCwndLimited && !InSlowStart(s.tp)
    requires s.tp.sndCwnd + s.tp.sndCwndCnt + acked + 1 < TWO32
    ensures var after := CongAvoid(s, ack, acked, env);
            var w := after.ca.cnt;
            && after.ca == Update(s.ca, s.tp.sndCwnd, acked, env.jiffies, env.hz)
            && (w > 0 ==> (after.tp.sndCwnd, after.tp.sndCwndCnt) == Increased(s.tp, w, acked))
  {
    var w := Update(s.ca, s.tp.sndCwnd, acked, env.jiffies, env.hz).cnt;
    if w > 0 {
      AiIsIncreased(s.tp, w, acked);
    }
  }

  /** Slow start over a run of ACKs: every acknowledged packet is a packet of window, up to threshold and clamp. */
  lemma {:induction false} SlowStartRun(s: State, acks: seq<(u32, Env)>)
    requires s.tp.sndCwnd + AckedBy(acks) < s.tp.sndSsthresh <= s.tp.sndCwndClamp
    requires s.tp.sndCwnd + AckedBy(acks) <= 2 * s.tp.maxPacketsOut < TWO32
    requires forall i :: 0 <= i < |acks| ==> acks[i].0 > 0
    ensures AckRun(s, acks).tp == s.tp.(sndCwnd := s.tp.sndCwnd + AckedBy(acks))
  {
    if acks != [] {
      SlowStartRun(s, acks[..|acks| - 1]);
    }
  }

  /**
   The ACK that reaches the threshold spends the rest of its packets in congestion avoidance, at a price just
   computed.
   */
  lemma SlowStartCrosses(s: State, ack: u32, acked: u32, env: Env)
    requires InSlowStart(s.tp) && IsCwndLimited(s.tp) && s.tp.sndSsthresh <= s.tp.sndCwndClamp
    requires s.tp.sndSsthresh < s.tp.sndCwnd + acked < TWO32
    ensures var after, left := CongAvoid(s, ack, acked, env), s.tp.sndCwnd + acked - s.tp.sndSsthresh;
            after.tp == CongAvoidAi(s.tp.(sndCwnd := s.tp.sndSsthresh), after.ca.cnt, left)
  {
  }

  /** A flow that does not use its window is left alone, whatever is acknowledged. */
  lemma {:induction false} UnusedWindowRests(s: State, acks: seq<(u32, Env)>)
    requires if InSlowStart(s.tp) then 2 * s.tp.maxPacketsOut <= s.tp.sndCwnd else !s.tp.isCwndLimited
    ensures AckRun(s, acks) == s
  {
    if acks != [] {
      UnusedWindowRests(s, acks[..|acks| - 1]);
    }
  }

  // ---------- what is behind the price ----------

  /** An epoch at or above the remembered maximum starts on the plateau and grows by the convex half of the curve. */
  lemma EpochAtMaximum(ca: Bictcp, cwnd: u32, acked: u32, now: u32, t: u64)
    requires ca.epochStart == 0 && ca.lastMaxCwnd <= cwnd < WINDOW_LIMIT && t <= TIME_LIMIT
    ensures var c := StartEpoch(ca, cwnd, acked, now);
            Target(c.bicOriginPoint, c.bicK, t) == cwnd + Curve(t)
  {
    ConvexPhaseNoWrap(cwnd, 0, t);
  }

  /** Section 4.5 of RFC 8312: a loss leaves 717/1024 of the window, at least two packets. */
  lemma LossLeavesBeta(s: State)
    requires s.tp.sndCwnd * 717 < TWO32
    ensures var ssthresh := RecalcSsthresh(s).1;
            && ssthresh >= 2 && 1024 * ssthresh <= Max(717 * s.tp.sndCwnd, 2048) < 1024 * (ssthresh + 1)
  {
  }

  /**
   Section 4.6 of RFC 8312: a flow that loses below its last maximum gives way. It remembers less than the window it
   had, yet no less than where it restarts; otherwise it remembers exactly that window.
   */
  lemma FastConvergence(s: State)
    requires 0 < s.tp.sndCwnd && s.tp.sndCwnd * 1741 < TWO32
    ensures var (ca, ssthresh) := RecalcSsthresh(s);
            && ca.epochStart == 0
            && (if s.tp.sndCwnd < s.ca.lastMaxCwnd
                then ca.lastMaxCwnd < s.tp.sndCwnd && (s.tp.sndCwnd >= 4 ==> ssthresh <= ca.lastMaxCwnd)
                     && 2048 * ca.lastMaxCwnd <= 1741 * s.tp.sndCwnd < 2048 * (ca.lastMaxCwnd + 1)
                else ca.lastMaxCwnd == s.tp.sndCwnd)
  {
  }

  /** A timeout forgets the whole epoch and starts HyStart afresh; no other state does anything. */
  lemma TimeoutForgets(ca: Bictcp, newState: u8, env: Env)
    ensures var after := SetState(ca, newState, env);
            if newState == TCP_CA_LOSS
            then after == ZERO.(roundStart := env.clockUs, lastAck := env.clockUs,
                                endSeq := env.sndNxt, currRtt := NO_RTT)
            else after == ca
  {
  }

  /**
   The price that an update leaves was looked up for this window in this jiffy, or for the same window at most 1/32
   second ago.
   */
  lemma PriceIsFresh(ca: Bictcp, cwnd: u32, acked: u32, now: u32, hz: hertz)
    requires ca.lastTime <= now < TWO31
    ensures var c := Update(ca, cwnd, acked, now, hz);
            if RecentlyUpdated(ca, cwnd, now, hz) then c.lastCwnd == cwnd && 32 * (now - c.lastTime) <= hz
            else c.lastTime == now && (c.lastCwnd == cwnd || ca.epochStart != 0)
  {
  }

  /** Delay samples count from one second after the start of an epoch on, and always outside one. */
  lemma DiscardedIff(ca: Bictcp, rttUs: s32, env: Env)
    requires ca.epochStart <= env.jiffies < TWO31
    ensures Discarded(ca, rttUs, env)
            <==> rttUs < 0 || (ca.epochStart != 0 && env.jiffies < ca.epochStart + env.hz)
  {
  }

  /**
   The allowance for aggregation is the time that four largest segments take at the pacing rate, at most a
   millisecond.
   */
  lemma AckDelayIs(env: Env)
    ensures env.pacingRate == 0 ==> AckDelay(env) == 0
    ensures env.pacingRate > 0 ==>
              AckDelay(env) == Min(1000, 262144 * 1_000_000 / env.pacingRate)
  {
    if env.pacingRate > 0 {
      DivIsQuotient(262144 * 1_000_000, env.pacingRate);
    }
  }

  // ---------- the estimate of Reno's window ----------

  /** A run of updates at one window. */
  function Updates(ca: Bictcp, cwnd: u32, acks: seq<(u32, Env)>): Bictcp {
    if acks == [] then ca
    else
      var (acked, env) := acks[|acks| - 1];
      Update(Updates(ca, cwnd, acks[..|acks| - 1]), cwnd, acked, env.jiffies, env.hz)
  }

  /** Every packet is counted, as credit or at `per` in a packet of Reno's window above `start`. */
  ghost predicate Counted(c: Bictcp, start: u32, per: nat, packets: nat) {
    c.epochStart != 0 && start <= c.tcpCwnd && (c.tcpCwnd - start) * per + c.ackCnt == packets
  }

  lemma CountAfter(ca: Bictcp, cwnd: u32, acked: u32, now: u32, hz: hertz, per: nat)
    requires per == cwnd * 15 / 8 && 0 < cwnd * 15 < TWO32
    requires ca.epochStart != 0 && ca.tcpCwnd + ca.ackCnt + acked < TWO32
    ensures var c, packets := Update(ca, cwnd, acked, now, hz), ca.ackCnt + acked;
            && c.epochStart != 0
            && (c.tcpCwnd, c.ackCnt) == if RecentlyUpdated(ca, cwnd, now, hz) || packets <= per
                                        then (ca.tcpCwnd, packets)
                                        else (ca.tcpCwnd + Div(packets, per), Rem(packets, per))
  {
  }

  lemma UpdateCounts(ca: Bictcp, cwnd: u32, acked: u32, now: u32, hz: hertz, start: u32, per: nat, packets: nat)
    requires per == cwnd * 15 / 8 && cwnd * 15 < TWO32 && cwnd >= 1
    requires ca.tcpCwnd + ca.ackCnt + acked < TWO32 && Counted(ca, start, per, packets)
    ensures var c := Update(ca, cwnd, acked, now, hz);
            && c.tcpCwnd + c.ackCnt <= ca.tcpCwnd + ca.ackCnt + acked && Counted(c, start, per, packets + acked)
            && (!RecentlyUpdated(ca, cwnd, now, hz) ==> c.ackCnt <= per)
  {
    CountAfter(ca, cwnd, acked, now, hz, per);
    ShareCounted(ca.tcpCwnd - start, per, ca.ackCnt + acked);
  }

  lemma ShareCounted(gained: nat, per: nat, packets: nat)
    requires per > 0
    ensures var n := Div(packets, per);
            && (gained + n) * per + Rem(packets, per) == gained * per + packets && n + Rem(packets, per) <= packets
            && Rem(packets, per) < per
  {
    DivRem(packets, per);
    assert (gained + Div(packets, per)) * per == gained * per + Div(packets, per) * per;
    MulMono(Div(packets, per), 1, per);
  }

  /**
   Over any run of updates at one window within an epoch, every acknowledged packet is counted once: as credit, or in
   packets of Reno's window at 15/8 of the window each.
   */
  lemma {:induction false} RenoEstimateCounts(ca: Bictcp, cwnd: u32, acks: seq<(u32, Env)>, per: nat)
    requires per == cwnd * 15 / 8 && cwnd * 15 < TWO32 && cwnd >= 1
    requires ca.epochStart != 0 && ca.tcpCwnd + ca.ackCnt + AckedBy(acks) < TWO32
    ensures var c := Updates(ca, cwnd, acks);
            && c.tcpCwnd + c.ackCnt <= ca.tcpCwnd + ca.ackCnt + AckedBy(acks)
            && Counted(c, ca.tcpCwnd, per, ca.ackCnt + AckedBy(acks))
  {
    if acks != [] {
      var k := |acks| - 1;
      RenoEstimateCounts(ca, cwnd, acks[..k], per);
      UpdateCounts(Updates(ca, cwnd, acks[..k]), cwnd, acks[k].0, acks[k].1.jiffies, acks[k].1.hz,
                   ca.tcpCwnd, per, ca.ackCnt + AckedBy(acks[..k]));
    }
  }

  /** At the start of an epoch Reno's window is CUBIC's, and only the packets of that ACK are counted. */
  lemma EpochStartsWithReno(ca: Bictcp, cwnd: u32, acked: u32, now: u32)
    requires ca.epochStart == 0
    ensures var c := StartEpoch(ca, cwnd, acked, now);
            c.tcpCwnd == cwnd && c.ackCnt == acked && c.epochStart == now
  {
  }
}
