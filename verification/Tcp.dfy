/**
 The window arithmetic that all loss-based controllers share: slow start and
 additive increase by accumulated credit.
 */
module Tcp {
  import opened Words

  /** The fields of `struct tcp_sock` that the window arithmetic reads or writes. */
  datatype Tp = Tp(
    sndCwnd: u32,
    sndSsthresh: u32,
    sndCwndCnt: u32,
    sndCwndClamp: u32,
    maxPacketsOut: u32,
    isCwndLimited: bool,
    priorCwnd: u32)

  predicate InSlowStart(tp: Tp) {
    tp.sndCwnd < tp.sndSsthresh
  }

  /** In slow start the window may grow to twice what was sent; afterwards the kernel's flag decides. */
  predicate IsCwndLimited(tp: Tp) {
    if InSlowStart(tp) then tp.sndCwnd < U32(2 * tp.maxPacketsOut) else tp.isCwndLimited
  }

  /** Slow start: the new state and the acknowledged packets that were not used. */
  function SlowStart(tp: Tp, acked: u32): (Tp, u32) {
    var cwnd := Min(U32(tp.sndCwnd + acked), tp.sndSsthresh);
    (tp.(sndCwnd := Min(cwnd, tp.sndCwndClamp)), U32(acked - U32(cwnd - tp.sndCwnd)))
  }

  /** The window and the credit after an old credit of at least `w` has been paid out. */
  function PayOut(tp: Tp, w: u32): (u32, u32) {
    if tp.sndCwndCnt >= w then (U32(tp.sndCwnd + 1), 0) else (tp.sndCwnd, tp.sndCwndCnt)
  }

  /**
   Additive increase: `acked` packets are added to the credit, every `w` credits
   buy one packet of window, and the rest of the credit is kept.
   */
  function CongAvoidAi(tp: Tp, w: u32, acked: u32): Tp {
    var (cwnd, credit) := PayOut(tp, w);
    var total := U32(credit + acked);
    tp.(sndCwnd := Min(U32(cwnd + Div(total, w)), tp.sndCwndClamp),
        sndCwndCnt := Rem(total, w))
  }

  /** `tcp_sock` as the callbacks update it in place. */
  class TcpSock {
    var sndCwnd: u32
    var sndSsthresh: u32
    var sndCwndCnt: u32
    var sndCwndClamp: u32
    var maxPacketsOut: u32
    var isCwndLimited: bool
    var priorCwnd: u32

    constructor (tp: Tp)
      ensures View() == tp
    {
      sndCwnd, sndSsthresh, sndCwndCnt := tp.sndCwnd, tp.sndSsthresh, tp.sndCwndCnt;
      sndCwndClamp, maxPacketsOut := tp.sndCwndClamp, tp.maxPacketsOut;
      isCwndLimited, priorCwnd := tp.isCwndLimited, tp.priorCwnd;
    }

    function View(): Tp
      reads this
    {
      Tp(sndCwnd, sndSsthresh, sndCwndCnt, sndCwndClamp, maxPacketsOut, isCwndLimited, priorCwnd)
    }

    method SlowStartInPlace(acked: u32) returns (left: u32)
      modifies this`sndCwnd
      ensures (View(), left) == SlowStart(old(View()), acked)
    {
      var cwnd := Min(U32(sndCwnd + acked), sndSsthresh);
      left := U32(acked - U32(cwnd - sndCwnd));
      sndCwnd := Min(cwnd, sndCwndClamp);
    }

    method CongAvoidAiInPlace(w: u32, acked: u32)
      modifies this`sndCwnd, this`sndCwndCnt
      ensures View() == CongAvoidAi(old(View()), w, acked)
    {
      if sndCwndCnt >= w {
        sndCwndCnt := 0;
        sndCwnd := U32(sndCwnd + 1);
      }
      sndCwndCnt := U32(sndCwndCnt + acked);
      TakeShare(sndCwndCnt, w);
      if sndCwndCnt >= w {
        var delta := Div(sndCwndCnt, w);
        sndCwndCnt := U32(sndCwndCnt - delta * w);
        sndCwnd := U32(sndCwnd + delta);
      }
      sndCwnd := Min(sndCwnd, sndCwndClamp);
    }
  }

  // ---------- what the window arithmetic promises ----------

  /**
   Slow start neither makes nor loses packets, exactly unless the clamp cuts the window: what is added to the window and
   what is left over is what was acknowledged. Packets are left over only when the threshold has been reached.
   */
  lemma SlowStartConserves(tp: Tp, acked: u32)
    requires InSlowStart(tp) && tp.sndCwnd + acked < TWO32
    ensures var (after, left) := SlowStart(tp, acked);
            var reached := Min(tp.sndCwnd + acked, tp.sndSsthresh);
            && (after.sndCwnd + left == tp.sndCwnd + acked <==> reached <= tp.sndCwndClamp)
            && after.sndCwnd == Min(reached, tp.sndCwndClamp)
            && (left > 0 ==> reached == tp.sndSsthresh)
  {
    var cwnd := Min(tp.sndCwnd + acked, tp.sndSsthresh);
    assert U32(cwnd - tp.sndCwnd) == cwnd - tp.sndCwnd;
    assert 0 <= acked - (cwnd - tp.sndCwnd) < TWO32;
  }

  /**
   No call makes window out of nothing: at a credit price of at least `m`, `m` times
   the window plus the credit grows by no more than the packets acknowledged,
   whatever the clamp does and even when a 32-bit field wraps. For `m == 2` this is
   CUBIC's "at most 1 packet per 2 packets acknowledged".
   */
  lemma CreditLimit(tp: Tp, w: u32, acked: u32, m: nat)
    requires 1 <= m <= w
    ensures var after := CongAvoidAi(tp, w, acked);
            m * after.sndCwnd + after.sndCwndCnt <= m * tp.sndCwnd + tp.sndCwndCnt + acked
  {
    var (cwnd, credit) := PayOut(tp, w);
    var total := U32(credit + acked);
    PayOutLimit(tp, w, m);
    Conversion(cwnd, total, w, m);
    var after := CongAvoidAi(tp, w, acked);
    MulMono(m, after.sndCwnd, cwnd + Div(total, w));
  }

  lemma PayOutLimit(tp: Tp, w: u32, m: nat)
    requires m <= w
    ensures var (cwnd, credit) := PayOut(tp, w);
            m * cwnd + credit <= m * tp.sndCwnd + tp.sndCwndCnt
  {
    MulMono(m, U32(tp.sndCwnd + 1), tp.sndCwnd + 1);
    assert m * (tp.sndCwnd + 1) == m * tp.sndCwnd + m;
  }

  lemma Conversion(cwnd: nat, total: nat, w: nat, m: nat)
    requires 1 <= m <= w
    ensures m * (cwnd + Div(total, w)) + Rem(total, w) <= m * cwnd + total
  {
    DivRem(total, w);
    MulMono(Div(total, w), m, w);
    assert m * (cwnd + Div(total, w)) == m * cwnd + Div(total, w) * m;
  }

  /** A sequence of additive-increase calls at one credit price. */
  function AiRun(tp: Tp, w: u32, acks: seq<u32>): Tp {
    if acks == [] then tp
    else CongAvoidAi(AiRun(tp, w, acks[..|acks| - 1]), w, acks[|acks| - 1])
  }

  function Total(acks: seq<u32>): nat {
    if acks == [] then 0 else Total(acks[..|acks| - 1]) + acks[|acks| - 1]
  }

  /**
   One call pays for at least its own packets: `spent` is what earlier calls
   are known to have paid for, counted from the window `base`.
   */
  lemma AiPays(tp: Tp, w: u32, acked: u32, base: nat, spent: nat)
    requires w > 0 && tp.sndCwnd + tp.sndCwndCnt + acked < TWO32
    requires tp.sndCwnd >= base && (tp.sndCwnd - base) * w + tp.sndCwndCnt >= spent
    requires tp.sndCwndCnt < w || spent == 0
    ensures var after := CongAvoidAi(tp, w, acked);
            && after.sndCwndCnt < w
            && (after.sndCwnd == tp.sndCwndClamp
                || (after.sndCwnd >= base && (after.sndCwnd - base) * w + after.sndCwndCnt >= spent + acked))
  {
    var (cwnd, credit) := PayOut(tp, w);
    assert cwnd >= base && (cwnd - base) * w + credit >= spent by {
      MulMono(w, 0, cwnd - base);
    }
    var total := credit + acked;
    DivRem(total, w);
    assert (cwnd + Div(total, w) - base) * w == (cwnd - base) * w + Div(total, w) * w;
  }

  /** Once at the clamp, a window that does not wrap stays there. */
  lemma AiStaysClamped(tp: Tp, w: u32, acked: u32)
    requires w > 0 && tp.sndCwnd + tp.sndCwndCnt + acked < TWO32 && tp.sndCwnd == tp.sndCwndClamp
    ensures CongAvoidAi(tp, w, acked).sndCwnd == tp.sndCwndClamp
    ensures CongAvoidAi(tp, w, acked).sndCwndCnt < w
  {
    var (cwnd, credit) := PayOut(tp, w);
    DivRem(credit + acked, w);
  }

  /**
   However `Total(acks)` packets are split over the calls, they buy at least one
   packet of window per `w`, up to the clamp.
   */
  lemma {:induction false} AiRunPays(tp: Tp, w: u32, acks: seq<u32>)
    requires w > 0 && tp.sndCwnd <= tp.sndCwndClamp
    requires tp.sndCwnd + tp.sndCwndCnt + Total(acks) < TWO32
    ensures var after := AiRun(tp, w, acks);
            && after.sndCwndClamp == tp.sndCwndClamp
            && after.sndCwnd + after.sndCwndCnt <= tp.sndCwnd + tp.sndCwndCnt + Total(acks)
            && (acks != [] ==> after.sndCwndCnt < w)
            && (after.sndCwnd == tp.sndCwndClamp
                || (after.sndCwnd >= tp.sndCwnd
                    && (after.sndCwnd - tp.sndCwnd) * w + after.sndCwndCnt >= Total(acks)))
  {
    if acks != [] {
      var init, last := acks[..|acks| - 1], acks[|acks| - 1];
      AiRunPays(tp, w, init);
      var mid := AiRun(tp, w, init);
      CreditLimit(mid, w, last, 1);
      if mid.sndCwnd == tp.sndCwndClamp {
        AiStaysClamped(mid, w, last);
      } else {
        AiPays(mid, w, last, tp.sndCwnd, Total(init));
      }
    }
  }

  /** A quotient may be taken in two parts. */
  lemma DivInTwo(x: nat, y: nat, w: nat)
    requires w > 0
    ensures Div(x + y, w) == Div(x, w) + Div(Rem(x, w) + y, w)
    ensures Rem(x + y, w) == Rem(Rem(x, w) + y, w)
  {
    var r := Rem(x, w) + y;
    DivRem(x, w);
    DivRem(r, w);
    DivRem(x + y, w);
    assert (Div(x, w) + Div(r, w)) * w == Div(x, w) * w + Div(r, w) * w;
    QuotientAtMost(w, Div(x + y, w), Rem(x + y, w), Div(x, w) + Div(r, w), Rem(r, w));
    QuotientAtMost(w, Div(x, w) + Div(r, w), Rem(r, w), Div(x + y, w), Rem(x + y, w));
  }

  /** What additive increase makes of a window, a credit and some packets, in one piece. */
  function Increased(tp: Tp, w: u32, packets: nat): (nat, nat) {
    var (paid, credit) := if tp.sndCwndCnt >= w then (1, 0) else (0, tp.sndCwndCnt);
    (Min(tp.sndCwnd + paid + Div(credit + packets, w), tp.sndCwndClamp), Rem(credit + packets, w))
  }

  lemma AiIsIncreased(tp: Tp, w: u32, acked: u32)
    requires w > 0 && tp.sndCwnd + tp.sndCwndCnt + acked + 1 < TWO32
    ensures var after := CongAvoidAi(tp, w, acked);
            (after.sndCwnd, after.sndCwndCnt) == Increased(tp, w, acked)
            && after == tp.(sndCwnd := after.sndCwnd, sndCwndCnt := after.sndCwndCnt)
  {
    var (cwnd, credit) := PayOut(tp, w);
    assert cwnd + Div(credit + acked, w) <= cwnd + credit + acked;
  }

  lemma IncreasedTwice(tp: Tp, mid: Tp, w: u32, packets: nat, acked: u32)
    requires w > 0 && mid.sndCwndClamp == tp.sndCwndClamp
    requires (mid.sndCwnd, mid.sndCwndCnt) == Increased(tp, w, packets)
    ensures Increased(mid, w, acked) == Increased(tp, w, packets + acked)
  {
    var credit := if tp.sndCwndCnt >= w then 0 else tp.sndCwndCnt;
    DivRem(credit + packets, w);
    DivInTwo(credit + packets, acked, w);
  }

  /**
   Exactly what a run of calls at one price gains, however the packets are split: credit of at least the price, saved
   at a higher one, buys a single packet and is spent by that; below the price it counts with the packets
   acknowledged; each `w` of them buy one packet of window, up to the clamp; and the remainder is the credit left
   over.
   */
  lemma {:induction false} AiRunExact(tp: Tp, w: u32, acks: seq<u32>)
    requires w > 0 && acks != [] && tp.sndCwnd + tp.sndCwndCnt + Total(acks) + 1 < TWO32
    ensures var after := AiRun(tp, w, acks);
            (after.sndCwnd, after.sndCwndCnt) == Increased(tp, w, Total(acks))
            && after == tp.(sndCwnd := after.sndCwnd, sndCwndCnt := after.sndCwndCnt)
  {
    var init, last := acks[..|acks| - 1], acks[|acks| - 1];
    if init == [] {
      assert Total(init) == 0;
      AiIsIncreased(tp, w, last);
    } else {
      AiRunExact(tp, w, init);
      var mid := AiRun(tp, w, init);
      IncreasedFits(tp, w, Total(init));
      AiIsIncreased(mid, w, last);
      IncreasedTwice(tp, mid, w, Total(init), last);
    }
  }

  lemma IncreasedFits(tp: Tp, w: u32, packets: nat)
    requires w > 0
    ensures var (cwnd, credit) := Increased(tp, w, packets);
            cwnd + credit <= tp.sndCwnd + tp.sndCwndCnt + packets
  {
    var credit := if tp.sndCwndCnt >= w then 0 else tp.sndCwndCnt;
    DivRem(credit + packets, w);
    MulMono(Div(credit + packets, w), 1, w);
  }

  /** In particular: credit saved at a higher price buys one packet, and no more. */
  lemma SavedCreditBuysOne(tp: Tp, w: u32, acks: seq<u32>)
    requires 0 < w <= tp.sndCwndCnt && acks != [] && tp.sndCwnd + tp.sndCwndCnt + Total(acks) + 1 < TWO32
    ensures var after := AiRun(tp, w, acks);
            && after.sndCwnd == Min(tp.sndCwnd + 1 + Div(Total(acks), w), tp.sndCwndClamp)
            && after.sndCwndCnt == Rem(Total(acks), w)
  {
    AiRunExact(tp, w, acks);
  }

  /** One call below the clamp keeps the account exact, when the old credit does not reach the price. */
  lemma AiConserves(tp: Tp, w: u32, acked: u32, base: nat, paid: nat)
    requires tp.sndCwnd + tp.sndCwndCnt + acked < TWO32
    requires tp.sndCwnd >= base && tp.sndCwndCnt < w && (tp.sndCwnd - base) * w + tp.sndCwndCnt == paid
    ensures var after := CongAvoidAi(tp, w, acked);
            && after.sndCwndCnt < w
            && (after.sndCwnd == tp.sndCwndClamp
                || (after.sndCwnd >= base && (after.sndCwnd - base) * w + after.sndCwndCnt == paid + acked))
  {
    var total := tp.sndCwndCnt + acked;
    DivRem(total, w);
    assert (tp.sndCwnd + Div(total, w) - base) * w == (tp.sndCwnd - base) * w + Div(total, w) * w;
  }

  /**
   And nothing is lost: below the clamp the window gained, at `w` packets each, and the credit left over are exactly
   the packets acknowledged and the credit there was.
   */
  lemma {:induction false} AiRunConserves(tp: Tp, w: u32, acks: seq<u32>)
    requires tp.sndCwndCnt < w && tp.sndCwnd <= tp.sndCwndClamp
    requires tp.sndCwnd + tp.sndCwndCnt + Total(acks) < TWO32
    ensures var after := AiRun(tp, w, acks);
            && after.sndCwndClamp == tp.sndCwndClamp && after.sndCwndCnt < w
            && after.sndCwnd + after.sndCwndCnt <= tp.sndCwnd + tp.sndCwndCnt + Total(acks)
            && (after.sndCwnd == tp.sndCwndClamp
                || (after.sndCwnd >= tp.sndCwnd
                    && (after.sndCwnd - tp.sndCwnd) * w + after.sndCwndCnt == tp.sndCwndCnt + Total(acks)))
  {
    if acks != [] {
      var init, last := acks[..|acks| - 1], acks[|acks| - 1];
      AiRunConserves(tp, w, init);
      var mid := AiRun(tp, w, init);
      CreditLimit(mid, w, last, 1);
      if mid.sndCwnd == tp.sndCwndClamp {
        AiStaysClamped(mid, w, last);
      } else {
        AiConserves(mid, w, last, tp.sndCwnd, tp.sndCwndCnt + Total(init));
      }
    }
  }

  /** The previous lemma as a window: `Total(acks) / w` packets are gained, or the clamp is reached. */
  lemma AiRunGains(tp: Tp, w: u32, acks: seq<u32>)
    requires w > 0 && acks != [] && tp.sndCwnd <= tp.sndCwndClamp
    requires tp.sndCwnd + tp.sndCwndCnt + Total(acks) < TWO32
    ensures AiRun(tp, w, acks).sndCwnd >= Min(tp.sndCwndClamp, tp.sndCwnd + Div(Total(acks), w))
  {
    AiRunPays(tp, w, acks);
    var after := AiRun(tp, w, acks);
    if after.sndCwnd != tp.sndCwndClamp {
      PaidQuotient(Total(acks), w, after.sndCwnd - tp.sndCwnd, after.sndCwndCnt);
    }
  }

  lemma PaidQuotient(n: nat, w: nat, gained: nat, credit: nat)
    requires credit < w && gained * w + credit >= n
    ensures Div(n, w) <= gained
  {
    DivRem(n, w);
    QuotientAtMost(w, gained, credit, Div(n, w), Rem(n, w));
  }
}
