/**
 Reno: slow start and additive increase (section 3.1 of RFC 5681), with the exact
 potential that says how many acknowledged packets a window costs.
 */
module Reno {
  import opened Words
  import opened Tcp

  /** Reaction to an ACK: slow start up to the threshold, the rest as additive increase. */
  function CongAvoid(tp: Tp, acked: u32): Tp {
    if !IsCwndLimited(tp) then tp
    else if !InSlowStart(tp) then CongAvoidAi(tp, tp.sndCwnd, acked)
    else
      var (after, left) := SlowStart(tp, acked);
      if left == 0 then after else CongAvoidAi(after, after.sndCwnd, left)
  }

  function Ssthresh(tp: Tp): u32 {
    Max(tp.sndCwnd / 2, 2)
  }

  function UndoCwnd(tp: Tp): u32 {
    Max(tp.sndCwnd, tp.priorCwnd)
  }

  method CongAvoidInPlace(sk: TcpSock, acked: u32)
    modifies sk`sndCwnd, sk`sndCwndCnt
    ensures sk.View() == CongAvoid(old(sk.View()), acked)
  {
    if !IsCwndLimited(sk.View()) {
      return;
    }
    var left := acked;
    if InSlowStart(sk.View()) {
      left := sk.SlowStartInPlace(left);
      if left == 0 {
        return;
      }
    }
    sk.CongAvoidAiInPlace(sk.sndCwnd, left);
  }

  // ---------- the potential ----------

  /** The packets it takes to grow from a window of one to `n`: 0 + 1 + ... + (n - 1). */
  function Triangle(n: nat): nat {
    if n == 0 then 0 else Triangle(n - 1) + (n - 1)
  }

  /** Everything that has been paid for: the window as a triangle number, plus the credit. */
  function Potential(tp: Tp): nat {
    Triangle(tp.sndCwnd) + tp.sndCwndCnt
  }

  /** Triangle(2^32): the packets it takes to complete a window of 2^32 - 1, after which `snd_cwnd` would wrap. */
  const MAX_POTENTIAL := TWO31 * (TWO32 - 1)

  /** A state in congestion avoidance whose credit has not reached the price of a packet. */
  predicate Avoiding(tp: Tp) {
    && !InSlowStart(tp) && tp.isCwndLimited
    && tp.sndCwndCnt < tp.sndCwnd <= tp.sndCwndClamp
  }

  lemma {:induction false} TriangleAdd(n: nat, k: nat)
    ensures Triangle(n + k) == Triangle(n) + k * n + Triangle(k)
    ensures Triangle(n + 1) == Triangle(n) + n
    decreases k
  {
    if k > 0 {
      TriangleAdd(n, k - 1);
      assert n + k == n + (k - 1) + 1;
      assert k * n == (k - 1) * n + n;
    }
  }

  /** The closed form n (n - 1) / 2. */
  lemma {:induction false} TriangleClosed(n: nat)
    ensures 2 * Triangle(n) == n * (n - 1)
  {
    if n > 0 {
      TriangleClosed(n - 1);
      assert n * (n - 1) == (n - 1) * (n - 2) + 2 * (n - 1);
    }
  }

  lemma {:induction false} TriangleMono(n: nat, m: nat)
    requires n <= m
    ensures Triangle(n) <= Triangle(m)
  {
    TriangleAdd(n, m - n);
    MulMono(m - n, 0, n);
  }

  /**
   One call raises the potential by the packets it acknowledges plus a bonus of
   d(d-1)/2 when the window grows by d at once.
   */
  lemma PotentialStep(tp: Tp, acked: u32)
    requires Avoiding(tp) && tp.sndCwndCnt + acked < TWO32
    requires tp.sndCwnd + Div(tp.sndCwndCnt + acked, tp.sndCwnd) <= tp.sndCwndClamp
    ensures var after := CongAvoid(tp, acked);
            && Avoiding(after) && after.sndCwnd >= tp.sndCwnd
            && Potential(after) == Potential(tp) + acked + Triangle(after.sndCwnd - tp.sndCwnd)
  {
    var w, total := tp.sndCwnd, tp.sndCwndCnt + acked;
    DivRem(total, w);
    TriangleAdd(w, Div(total, w));
  }

  // ---------- packets acknowledged one at a time ----------

  function Singles(tp: Tp, n: nat): Tp {
    if n == 0 then tp else CongAvoid(Singles(tp, n - 1), 1)
  }

  /** One packet: the potential rises by exactly one, until the clamp takes the last packet of a window back. */
  lemma SingleStep(tp: Tp)
    requires Avoiding(tp) && Potential(tp) + 1 < MAX_POTENTIAL
    ensures var after := CongAvoid(tp, 1);
            && Avoiding(after) && after.sndCwndClamp == tp.sndCwndClamp
            && Potential(after) == if tp.sndCwndCnt + 1 == tp.sndCwnd == tp.sndCwndClamp
                                   then Triangle(tp.sndCwnd) else Potential(tp) + 1
  {
    WindowBelowMax(tp);
    SmallDivision(tp.sndCwndCnt + 1, tp.sndCwnd);
    assert Triangle(tp.sndCwnd + 1) == Triangle(tp.sndCwnd) + tp.sndCwnd;
    var after := CongAvoid(tp, 1);
    if tp.sndCwndCnt + 1 < tp.sndCwnd {
      assert after == tp.(sndCwndCnt := tp.sndCwndCnt + 1);
    } else {
      assert after == tp.(sndCwnd := Min(tp.sndCwnd + 1, tp.sndCwndClamp), sndCwndCnt := 0);
    }
  }

  lemma WindowBelowMax(tp: Tp)
    requires Potential(tp) + 1 < MAX_POTENTIAL
    ensures tp.sndCwndCnt + 1 == tp.sndCwnd ==> tp.sndCwnd + 1 < TWO32
  {
    TriangleClosed(tp.sndCwnd);
  }

  lemma SmallDivision(x: nat, w: nat)
    requires 0 < w && x <= w
    ensures Div(x, w) == (if x == w then 1 else 0) && Rem(x, w) == (if x == w then 0 else x)
  {
  }

  /**
   Single packets never raise the potential by more than their number, and below
   the clamp by exactly their number. The premise keeps the window from wrapping.
   */
  lemma {:induction false} SinglesAtMost(tp: Tp, n: nat)
    requires Avoiding(tp) && Potential(tp) + n < MAX_POTENTIAL
    ensures var after := Singles(tp, n);
            && Avoiding(after) && after.sndCwndClamp == tp.sndCwndClamp
            && Potential(after) <= Potential(tp) + n
            && (Potential(tp) + n < Triangle(tp.sndCwndClamp + 1) ==> Potential(after) == Potential(tp) + n)
  {
    if n > 0 {
      SinglesAtMost(tp, n - 1);
      var before := Singles(tp, n - 1);
      SingleStep(before);
      TriangleAdd(tp.sndCwndClamp, 1);
    }
  }

  /** The potential orders states: more potential never goes with a smaller window. */
  lemma PotentialOrders(a: Tp, b: Tp)
    requires a.sndCwndCnt < a.sndCwnd && b.sndCwndCnt < b.sndCwnd
    ensures Potential(a) <= Potential(b) ==> a.sndCwnd <= b.sndCwnd
    ensures Potential(a) == Potential(b) ==> a.sndCwnd == b.sndCwnd && a.sndCwndCnt == b.sndCwndCnt
  {
    TriangleAdd(a.sndCwnd, 1);
    TriangleAdd(b.sndCwnd, 1);
    if b.sndCwnd < a.sndCwnd {
      TriangleMono(b.sndCwnd + 1, a.sndCwnd);
    }
    if a.sndCwnd < b.sndCwnd {
      TriangleMono(a.sndCwnd + 1, b.sndCwnd);
    }
  }

  /** The packets it takes to grow a window from `w` to `w + k`, one acknowledged packet at a time. */
  function GrowthCost(w: nat, k: nat): nat {
    k * w + Triangle(k)
  }

  /**
   Additive increase is one packet per window of ACKs, exactly: from window `w`
   with no credit the window is `w + k` after k*w + k(k-1)/2 packets acknowledged
   one at a time, with no credit left, and not one packet earlier.
   */
  lemma ExactGrowth(tp: Tp, k: nat, m: nat)
    requires Avoiding(tp) && tp.sndCwndCnt == 0 && tp.sndCwnd + k <= tp.sndCwndClamp
    requires m <= GrowthCost(tp.sndCwnd, k)
    ensures Singles(tp, m).sndCwnd >= tp.sndCwnd + k <==> m == GrowthCost(tp.sndCwnd, k)
    ensures m == GrowthCost(tp.sndCwnd, k)
            ==> Singles(tp, m) == tp.(sndCwnd := tp.sndCwnd + k)
  {
    var goal := tp.(sndCwnd := tp.sndCwnd + k);
    TriangleAdd(tp.sndCwnd, k);
    TriangleAdd(tp.sndCwndClamp, 1);
    TriangleMono(tp.sndCwnd + k, tp.sndCwndClamp);
    PotentialBelowMax(tp.sndCwnd + k);
    SinglesAtMost(tp, m);
    SinglesKeep(tp, m);
    PotentialOrders(Singles(tp, m), goal);
    if Singles(tp, m).sndCwnd >= goal.sndCwnd {
      TriangleMono(goal.sndCwnd, Singles(tp, m).sndCwnd);
    }
  }

  lemma PotentialBelowMax(w: u32)
    requires w > 0
    ensures Triangle(w) < MAX_POTENTIAL
  {
    TriangleClosed(w);
    MulMono(w, w - 1, TWO32 - 2);
  }

  /** Nothing but the window and its credit changes. */
  lemma {:induction false} SinglesKeep(tp: Tp, n: nat)
    ensures var after := Singles(tp, n);
            after == tp.(sndCwnd := after.sndCwnd, sndCwndCnt := after.sndCwndCnt)
  {
    if n > 0 {
      SinglesKeep(tp, n - 1);
    }
  }

  /** One ACK for `n` packets grows the window at least as far as `n` ACKs for one packet each. */
  lemma StretchAck(tp: Tp, n: u32)
    requires Avoiding(tp) && tp.sndCwndCnt + n < TWO32 - 1
    requires Potential(tp) + n < MAX_POTENTIAL
    ensures CongAvoid(tp, n).sndCwnd >= Singles(tp, n).sndCwnd
  {
    SinglesAtMost(tp, n);
    var w, total := tp.sndCwnd, tp.sndCwndCnt + n;
    StretchFits(total, w);
    if w + Div(total, w) <= tp.sndCwndClamp {
      StretchPotential(tp, n);
      PotentialOrders(Singles(tp, n), CongAvoid(tp, n));
    } else {
      StretchClamped(tp, n);
    }
  }

  lemma StretchClamped(tp: Tp, n: u32)
    requires Avoiding(tp) && tp.sndCwndCnt + n < TWO32
    requires tp.sndCwndClamp < tp.sndCwnd + Div(tp.sndCwndCnt + n, tp.sndCwnd) < TWO32
    ensures CongAvoid(tp, n).sndCwnd == tp.sndCwndClamp
  {
  }

  lemma StretchPotential(tp: Tp, n: u32)
    requires Avoiding(tp) && tp.sndCwndCnt + n < TWO32
    requires tp.sndCwnd + Div(tp.sndCwndCnt + n, tp.sndCwnd) <= tp.sndCwndClamp
    ensures var after := CongAvoid(tp, n);
            after.sndCwndCnt < after.sndCwnd && Potential(after) >= Potential(tp) + n
  {
    PotentialStep(tp, n);
  }

  lemma StretchFits(total: nat, w: u32)
    requires w > 0 && total < TWO32 - 1
    ensures Div(total, w) + w < TWO32
  {
    DivRem(total, w);
    SumAtMostProduct(Div(total, w), w);
  }

  lemma SumAtMostProduct(x: nat, y: nat)
    requires y > 0
    ensures x > 0 ==> x + y <= x * y + 1
  {
    if x > 0 {
      assert (x - 1) * (y - 1) == x * y - x - y + 1;
      MulMono(x - 1, 0, y - 1);
    }
  }

  /**
   The sawtooth: after a loss at window W has cut the window to the new threshold, single ACKs
   bring it back to W after exactly the growth cost from there, and not earlier.
   */
  lemma Sawtooth(tp: Tp, m: nat)
    requires tp.isCwndLimited && 2 <= tp.sndCwnd <= tp.sndCwndClamp
    ensures var restart := Ssthresh(tp);
            var cut := tp.(sndCwnd := restart, sndSsthresh := restart, sndCwndCnt := 0);
            var cost := GrowthCost(restart, tp.sndCwnd - restart);
            m <= cost ==> (Singles(cut, m).sndCwnd >= tp.sndCwnd <==> m == cost)
  {
    var restart := Ssthresh(tp);
    var cut := tp.(sndCwnd := restart, sndSsthresh := restart, sndCwndCnt := 0);
    if m <= GrowthCost(restart, tp.sndCwnd - restart) {
      ExactGrowth(cut, tp.sndCwnd - restart, m);
    }
  }

  /**
   The cost of one tooth in packets: from half the window of the loss, and never from less than two, about 3/8 of its
   square.
   */
  lemma SawtoothCost(tp: Tp)
    requires tp.sndCwnd >= 2
    ensures var w, half := tp.sndCwnd, if tp.sndCwnd < 4 then 2 else tp.sndCwnd / 2;
            && Ssthresh(tp) == half
            && 2 * GrowthCost(half, w - half) == w * (w - 1) - half * (half - 1)
  {
    var w, half := tp.sndCwnd, if tp.sndCwnd < 4 then 2 else tp.sndCwnd / 2;
    TriangleAdd(half, w - half);
    TriangleClosed(w);
    TriangleClosed(half);
  }

  // ---------- runs of ACKs ----------

  function Acks(tp: Tp, acks: seq<u32>): Tp {
    if acks == [] then tp else CongAvoid(Acks(tp, acks[..|acks| - 1]), acks[|acks| - 1])
  }

  /**
   A window that is not the limit stays, whatever is acknowledged: in slow start one that is twice what was ever sent.
   */
  lemma {:induction false} UnusedWindowRests(tp: Tp, acks: seq<u32>)
    requires if InSlowStart(tp) then 2 * tp.maxPacketsOut <= tp.sndCwnd else !tp.isCwndLimited
    ensures Acks(tp, acks) == tp
  {
    if acks != [] {
      UnusedWindowRests(tp, acks[..|acks| - 1]);
    }
  }

  /** One that is: in slow start every packet acknowledged is a packet of window. */
  lemma {:induction false} SlowStartRun(tp: Tp, acks: seq<u32>)
    requires tp.sndCwnd + Total(acks) < tp.sndSsthresh <= tp.sndCwndClamp
    requires tp.sndCwnd + Total(acks) <= 2 * tp.maxPacketsOut < TWO32
    requires forall i :: 0 <= i < |acks| ==> acks[i] > 0
    ensures Acks(tp, acks) == tp.(sndCwnd := tp.sndCwnd + Total(acks))
  {
    if acks != [] {
      SlowStartRun(tp, acks[..|acks| - 1]);
    }
  }

  /** Undoing a reduction never leaves less than was there before it, nor less than there is. */
  lemma UndoRestores(tp: Tp)
    ensures UndoCwnd(tp) >= tp.sndCwnd && UndoCwnd(tp) >= tp.priorCwnd
    ensures UndoCwnd(tp) == tp.sndCwnd || UndoCwnd(tp) == tp.priorCwnd
  {
  }

  /**
   A whole ACK in slow start: packets are conserved up to the threshold, and what
   is left over enters additive increase at a price equal to the threshold.
   */
  lemma SlowStartThenAvoid(tp: Tp, acked: u32)
    requires InSlowStart(tp) && IsCwndLimited(tp) && tp.sndCwnd + acked < TWO32
    requires tp.sndSsthresh <= tp.sndCwndClamp
    ensures var after := CongAvoid(tp, acked);
            if tp.sndCwnd + acked <= tp.sndSsthresh
            then after == tp.(sndCwnd := tp.sndCwnd + acked)
            else after == CongAvoidAi(tp.(sndCwnd := tp.sndSsthresh), tp.sndSsthresh,
                                      tp.sndCwnd + acked - tp.sndSsthresh)
  {
    SlowStartConserves(tp, acked);
  }
}
