/**
 BBR's policer detector over whole runs: the two lossy intervals behind every detection, what its loss test measures,
 and for how many rounds a detected rate is used.
 */
module BbrPolicer {
  import opened Words
  import opened BbrRates
  import opened Bbr
  import opened BbrFrames
  import opened BbrProbeRtt

  /** What an event asks of the long-term estimator: nothing, a look at an ACK or a timeout, or to forget. */
  datatype Call = NoCall | Look(roundStart: bool, losses: s32, isAppLimited: bool) | Forget

  function CallOf(s: State, e: Event): Call {
    match e
    case Ack(rs) =>
      if rs.delivered < 0 || rs.intervalUs <= 0 then NoCall
      else Look(!Before(rs.priorDelivered, s.bbr.nextRttDelivered), rs.losses, rs.isAppLimited)
    case NewState(newState) => if newState == TCP_CA_LOSS then Look(true, 1, false) else NoCall
    case Undo => Forget
    case _ => NoCall
  }

  /** The estimator on its own. */
  function NextLt(lt: Lt, mode: Mode, c: Call, env: Env): Lt {
    match c
    case NoCall => lt
    case Look(roundStart, losses, isAppLimited) =>
      LtSampling(FRESH.(lt := lt, mode := mode, roundStart := roundStart), losses, isAppLimited, env).lt
    case Forget => ResetLt(lt, env)
  }

  /** The end of an interval, as far as the estimator is concerned. */
  function EndedLt(lt: Lt, env: Env): Lt {
    LtEndInterval(FRESH.(lt := lt), env).lt
  }

  lemma EndStandsAlone(b: Block, env: Env)
    ensures LtEndInterval(b, env).lt == EndedLt(b.lt, env)
  {
  }

  lemma UseStandsAlone(b: Block, c: Block, env: Env)
    requires b.lt == c.lt && b.mode == c.mode && b.roundStart == c.roundStart
    ensures LtCountUse(b, env).lt == LtCountUse(c, env).lt
  {
  }

  /** It looks at nothing else in the control block. */
  lemma LtStandsAlone(b: Block, losses: s32, isAppLimited: bool, env: Env)
    ensures LtSampling(b, losses, isAppLimited, env).lt
            == NextLt(b.lt, b.mode, Look(b.roundStart, losses, isAppLimited), env)
  {
    var c := FRESH.(lt := b.lt, mode := b.mode, roundStart := b.roundStart);
    UseStandsAlone(b, c, env);
    var lt := if b.lt.isSampling then b.lt else ResetLtInterval(b.lt, env).(isSampling := true);
    var counted := if b.roundStart then lt.(rttCnt := Bits(lt.rttCnt + 1, 128)) else lt;
    EndStandsAlone(b.(lt := counted), env);
    EndStandsAlone(c.(lt := counted), env);
  }

  lemma UpdateBwLt(s: State, rs: Sample, env: Env)
    ensures UpdateBw(s.bbr, rs, env).lt == NextLt(s.bbr.lt, s.bbr.mode, CallOf(s, Ack(rs)), env)
  {
    if rs.delivered >= 0 && rs.intervalUs > 0 {
      LtStandsAlone(StartRound(s.bbr.(roundStart := false), rs, env), rs.losses, rs.isAppLimited, env);
    }
  }

  lemma OnAckLt(s: State, rs: Sample, env: Env)
    ensures OnAck(s, rs, env).bbr.lt == NextLt(s.bbr.lt, s.bbr.mode, CallOf(s, Ack(rs)), env)
  {
    UpdateBwLt(s, rs, env);
    EstimatesFrame(s, rs, env);
    var s1 := UpdateEstimates(s, rs, env);
    CheckDrainFrame(s1, env);
    UpdateMinRttFrame(CheckDrain(s1, env), rs, env);
    OnAckFrame(s, rs, env);
  }

  lemma TxStartLt(s: State, env: Env)
    ensures TxStart(s, env).bbr.lt == s.bbr.lt
  {
    if s.sk.appLimited != 0 {
      var s1 := AtIdle(s, env);
      SetPacingRateFrame(s1, Bw(s1.bbr), BBR_UNIT, env);
      CheckProbeRttDoneFrame(s1, env);
    }
  }

  lemma StepLt(s: State, e: Event, env: Env)
    ensures Step(s, e, env).bbr.lt == NextLt(s.bbr.lt, s.bbr.mode, CallOf(s, e), env)
  {
    match e
    case Ack(rs) => OnAckLt(s, rs, env);
    case Idle => TxStartLt(s, env);
    case NewState(newState) =>
      LtStandsAlone(AtLoss(s.bbr), 1, false, env);
    case _ =>
  }

  // ---------- the estimator over a run ----------

  /** One event of a run, as the estimator sees it. */
  datatype Turn = Turn(mode: Mode, call: Call, env: Env)

  function TurnsOf(s: State, events: seq<(Event, Env)>): (turns: seq<Turn>)
    ensures |turns| == |events|
  {
    if events == [] then []
    else
      var k := |events| - 1;
      var before := Run(s, events[..k]);
      TurnsOf(s, events[..k]) + [Turn(before.bbr.mode, CallOf(before, events[k].0), events[k].1)]
  }

  function LtRun(lt: Lt, turns: seq<Turn>): Lt {
    if turns == [] then lt
    else
      var t := turns[|turns| - 1];
      NextLt(LtRun(lt, turns[..|turns| - 1]), t.mode, t.call, t.env)
  }

  /** The estimator in the state machine is the estimator on its own. */
  lemma {:induction false} RunLt(s: State, events: seq<(Event, Env)>)
    ensures Run(s, events).bbr.lt == LtRun(s.bbr.lt, TurnsOf(s, events))
  {
    if events != [] {
      var k := |events| - 1;
      RunLt(s, events[..k]);
      StepLt(Run(s, events[..k]), events[k].0, events[k].1);
      var turns := TurnsOf(s, events);
      assert turns[..k] == TurnsOf(s, events[..k]);
    }
  }

  lemma {:induction false} TurnsPrefix(s: State, events: seq<(Event, Env)>, n: nat)
    requires n <= |events|
    ensures TurnsOf(s, events[..n]) == TurnsOf(s, events)[..n]
    decreases |events|
  {
    if n == |events| {
      assert events[..n] == events;
    } else {
      var init := events[..|events| - 1];
      TurnsPrefix(s, init, n);
      assert init[..n] == events[..n];
    }
  }

  // ---------- the loss test ----------

  /** What was delivered and lost between two events, and the milliseconds between them. */
  function DeliveredBetween(from: Env, to: Env): u32 {
    U32(to.delivered - from.delivered)
  }

  function LostBetween(from: Env, to: Env): u32 {
    U32(to.lost - from.lost)
  }

  function MillisBetween(from: Env, to: Env): u32 {
    U32(to.deliveredMstamp / 1000 - U32(from.deliveredMstamp / 1000))
  }

  /** The test of the code, in 32-bit arithmetic. */
  predicate LossHigh(lost: u32, delivered: u32) {
    delivered != 0 && U32(lost * 256) >= U32(LT_LOSS_THRESH * delivered)
  }

  /** At least 50/256, about 19.5%, of what was delivered has been lost. */
  predicate LossAbove(lost: u32, delivered: u32) {
    delivered != 0 && 256 * lost >= LT_LOSS_THRESH * delivered
  }

  /** `50 * delivered` as the code has it. */
  function ThreshLow(delivered: u32): u32 {
    U32(LT_LOSS_THRESH * delivered)
  }

  /** The test measures that ratio for fewer than 2^24 lost and 85899346 delivered packets: neither product wraps. */
  lemma LossTestExact(lost: u32, delivered: u32)
    requires lost < TWO24 && delivered <= 85_899_345
    ensures LossHigh(lost, delivered) <==> LossAbove(lost, delivered)
  {
  }

  /** Once the second product wraps, the test is right exactly for losses too few to reach its wrapped value. */
  lemma LossTestIff(lost: u32, delivered: u32)
    requires lost < TWO24
    ensures (LossHigh(lost, delivered) <==> LossAbove(lost, delivered))
            <==> delivered <= 85_899_345 || 256 * lost < ThreshLow(delivered)
  {
  }

  /** The test is right for this number of delivered packets, whatever was lost below 2^24. */
  ghost predicate LossTestRight(delivered: u32) {
    forall lost: u32 :: lost < TWO24 ==> (LossHigh(lost, delivered) <==> LossAbove(lost, delivered))
  }

  /** Exactly when that is so: the second product does not wrap, or wraps to one of the 255 largest values. */
  lemma LossTestRightIff(delivered: u32)
    ensures LossTestRight(delivered) <==> delivered <= 85_899_345 || ThreshLow(delivered) > TWO32 - 256
  {
    var low := ThreshLow(delivered);
    forall lost: u32 | lost < TWO24
      ensures (LossHigh(lost, delivered) <==> LossAbove(lost, delivered))
              <==> delivered <= 85_899_345 || 256 * lost < low
    {
      LossTestIff(lost, delivered);
    }
    if delivered > 85_899_345 && low <= TWO32 - 256 {
      var lost: u32 := (low + 255) / 256;
      assert lost < TWO24 && 256 * lost >= low;
      assert LossHigh(lost, delivered) && !LossAbove(lost, delivered);
    }
  }

  /** For every number of losses that 32 bits hold it is never right, unless nothing was delivered. */
  lemma LossTestNeverRight(delivered: u32) returns (lost: u32)
    requires delivered > 0
    ensures LossHigh(lost, delivered) != LossAbove(lost, delivered)
  {
    var y := LT_LOSS_THRESH * delivered;
    assert y == TWO32 * (y / TWO32) + y % TWO32 && y / TWO32 < 50;
    lost := if y % TWO32 == 0 then 0 else TWO24 * (y / TWO32 + 1);
    assert 256 * lost == if y % TWO32 == 0 then 0 else TWO32 * (y / TWO32 + 1);
  }

  /** Below the limits the test differs from "more than a fifth" exactly for losses from 50/256 to a fifth. */
  lemma FifthIff(lost: u32, delivered: u32)
    requires lost < TWO24 && 0 < delivered <= 85_899_345
    ensures (LossHigh(lost, delivered) <==> 5 * lost > delivered)
            <==> !(LT_LOSS_THRESH * delivered <= 256 * lost && 5 * lost <= delivered)
  {
  }

  /** The ratio is not a fifth: 195 lost of 998 pass. */
  lemma LossTestBelowFifth(lost: u32, delivered: u32)
    requires lost == 195 && delivered == 998
    ensures LossHigh(lost, delivered) && 5 * lost < delivered
  {
  }

  /** One packet more, and a single loss passes. */
  lemma LossTestWraps(delivered: u32)
    requires delivered == 85_899_346
    ensures LossHigh(1, delivered) && !LossAbove(1, delivered)
  {
  }

  // ---------- intervals ----------

  /** The rounds that begin at the turns from `first` to before `k`. */
  function Rounds(turns: seq<Turn>, first: nat, k: nat): nat
    requires k <= |turns|
  {
    if k <= first then 0
    else Rounds(turns, first, k - 1) + if turns[k - 1].call.Look? && turns[k - 1].call.roundStart then 1 else 0
  }

  /** From turn `i` to before `k` the estimator is not told to forget, and no sample is limited by the application. */
  ghost predicate Steady(turns: seq<Turn>, i: nat, k: nat)
    requires k <= |turns|
  {
    forall n :: i <= n < k ==> !turns[n].call.Forget? && (turns[n].call.Look? ==> !turns[n].call.isAppLimited)
  }

  ghost predicate Loses(t: Turn) {
    t.call.Look? && t.call.losses != 0
  }

  /**
   An interval that the loss of turn `i` began is under way before turn `k`. Its rounds count from `first`: from `i`
   itself, or from the next turn if `i` also ended an earlier interval.
   */
  ghost predicate UnderWay(lt: Lt, turns: seq<Turn>, i: nat, first: nat, k: nat)
    requires k <= |turns|
  {
    && i < k && i <= first <= i + 1 && Loses(turns[i]) && Steady(turns, i, k)
    && lt.lastDelivered == turns[i].env.delivered && lt.lastLost == turns[i].env.lost
    && lt.lastStamp == U32(turns[i].env.deliveredMstamp / 1000)
    && lt.rttCnt == Rounds(turns, first, k) <= 16
  }

  /**
   A whole interval, from the loss of turn `i` to that of turn `k`: 4 to 16 rounds, lossy enough and of a sane length.
   */
  ghost predicate Lossy(turns: seq<Turn>, i: nat, first: nat, k: nat)
    requires k < |turns|
  {
    && i < k && i <= first <= i + 1 && Loses(turns[i]) && Loses(turns[k]) && Steady(turns, i, k + 1)
    && LT_INTVL_MIN_RTTS <= Rounds(turns, first, k + 1) <= 4 * LT_INTVL_MIN_RTTS
    && LossHigh(LostBetween(turns[i].env, turns[k].env), DeliveredBetween(turns[i].env, turns[k].env))
    && 1 <= MillisBetween(turns[i].env, turns[k].env) < 0xFFFF_FFFF / 1000
  }

  /** The delivery rate of an interval. */
  function RateOf(from: Env, to: Env): u32 {
    U32(Div(U64(DeliveredBetween(from, to) * BW_UNIT), MillisBetween(from, to) * 1000))
  }

  /** Where the current interval began and its rounds count from, and the same of the interval before it. */
  datatype Marks = Marks(i: nat, first: nat, p: nat, pFirst: nat)

  /** What the estimator remembers before turn `k` while no rate is in use. */
  ghost predicate Remembers(lt: Lt, turns: seq<Turn>, m: Marks, k: nat)
    requires k <= |turns|
  {
    if !lt.isSampling then lt.bw == 0 && lt.rttCnt == 0
    else
      && UnderWay(lt, turns, m.i, m.first, k)
      && (lt.bw != 0 ==>
            && m.first == m.i + 1 && m.p < m.i && Lossy(turns, m.p, m.pFirst, m.i)
            && lt.bw == RateOf(turns[m.p].env, turns[m.i].env))
  }

  /** An interval ends here, and what it measured. */
  ghost predicate EndsInterval(lt: Lt, t: Turn) {
    && t.call.Look? && lt.isSampling && !lt.useBw && !t.call.isAppLimited && t.call.losses != 0
    && (var rounds := lt.rttCnt + if t.call.roundStart then 1 else 0;
        LT_INTVL_MIN_RTTS <= rounds <= 4 * LT_INTVL_MIN_RTTS)
    && !LtLossLow(lt, t.env) && 1 <= LtInterval(lt, t.env) < 0xFFFF_FFFF / 1000
  }

  function MeasuredRate(lt: Lt, env: Env): u32 {
    U32(Div(U64(U32(env.delivered - lt.lastDelivered) * BW_UNIT), LtInterval(lt, env) * 1000))
  }

  lemma EndedLtCases(lt: Lt, env: Env)
    ensures EndedLt(lt, env)
            == if LtLossLow(lt, env) || S32(LtInterval(lt, env)) < 1 then lt
               else if LtInterval(lt, env) >= 0xFFFF_FFFF / 1000 then ResetLt(lt, env)
               else if LtConsistent(lt, MeasuredRate(lt, env), env)
               then lt.(bw := U32(MeasuredRate(lt, env) + lt.bw) / 2, useBw := true, rttCnt := 0)
               else ResetLtInterval(lt.(bw := MeasuredRate(lt, env)), env)
  {
  }

  /** A look at a sample that is not limited by the application, while sampling. */
  lemma LookSampling(lt: Lt, mode: Mode, roundStart: bool, losses: s32, env: Env)
    requires !lt.useBw && lt.isSampling && lt.rttCnt <= 16
    ensures var counted := lt.(rttCnt := lt.rttCnt + if roundStart then 1 else 0);
            NextLt(lt, mode, Look(roundStart, losses, false), env)
            == if counted.rttCnt < LT_INTVL_MIN_RTTS then counted
               else if counted.rttCnt > 4 * LT_INTVL_MIN_RTTS then ResetLt(counted, env)
               else if losses == 0 then counted
               else EndedLt(counted, env)
  {
    var c := FRESH.(lt := lt, mode := mode, roundStart := roundStart);
    var counted := lt.(rttCnt := lt.rttCnt + if roundStart then 1 else 0);
    EndStandsAlone(c.(lt := counted), env);
  }

  lemma LookIdle(lt: Lt, mode: Mode, c: Call, env: Env)
    requires c.Look? && !lt.useBw && (!lt.isSampling || c.isAppLimited)
    ensures NextLt(lt, mode, c, env)
            == if !lt.isSampling && c.losses == 0 then lt
               else if c.isAppLimited then ResetLt(lt, env)
               else ResetLtInterval(lt, env).(isSampling := true, rttCnt := if c.roundStart then 1 else 0)
  {
  }

  /** The estimator after an interval that measured `bw`: a rate in use, or the first of two to compare. */
  function ClosedLt(lt: Lt, bw: u32, env: Env): Lt {
    if LtConsistent(lt, bw, env) then lt.(bw := U32(bw + lt.bw) / 2, useBw := true, rttCnt := 0)
    else ResetLtInterval(lt.(bw := bw), env)
  }

  /** One turn at which an interval ends: the second of two is a detection, otherwise its rate is kept for the next. */
  lemma NextLtEnds(lt: Lt, t: Turn)
    requires lt.rttCnt <= 16 && EndsInterval(lt, t)
    ensures var bw := MeasuredRate(lt, t.env);
            NextLt(lt, t.mode, t.call, t.env) == ClosedLt(lt, bw, t.env)
  {
    LookEnds(lt, t);
    EndedCounted(lt, lt.rttCnt + if t.call.roundStart then 1 else 0, t.env);
  }

  lemma LookEnds(lt: Lt, t: Turn)
    requires lt.rttCnt <= 16 && EndsInterval(lt, t)
    ensures NextLt(lt, t.mode, t.call, t.env)
            == EndedLt(lt.(rttCnt := lt.rttCnt + if t.call.roundStart then 1 else 0), t.env)
  {
    LookSampling(lt, t.mode, t.call.roundStart, t.call.losses, t.env);
  }

  lemma EndedCounted(lt: Lt, rounds: nat, env: Env)
    requires !LtLossLow(lt, env) && 1 <= LtInterval(lt, env) < 0xFFFF_FFFF / 1000
    ensures var bw := MeasuredRate(lt, env);
            EndedLt(lt.(rttCnt := rounds), env) == ClosedLt(lt, bw, env)
  {
    EndedLtCases(lt.(rttCnt := rounds), env);
    SameTests(lt, lt.(rttCnt := rounds), env);
  }

  /** Any other turn: the estimator forgets, goes on counting, or begins. */
  lemma NextLtGoesOn(lt: Lt, t: Turn)
    requires !lt.useBw && lt.rttCnt <= 16 && (!lt.isSampling ==> lt.bw == 0 && lt.rttCnt == 0) && !EndsInterval(lt, t)
    ensures var after := NextLt(lt, t.mode, t.call, t.env);
            || (!after.isSampling && !after.useBw && after.bw == 0 && after.rttCnt == 0)
            || (lt.isSampling && !t.call.Forget? && (t.call.Look? ==> !t.call.isAppLimited)
                && after == lt.(rttCnt := after.rttCnt) && after.rttCnt <= 16
                && after.rttCnt == lt.rttCnt + if t.call.Look? && t.call.roundStart then 1 else 0)
            || (!lt.isSampling && Loses(t) && !t.call.isAppLimited
                && after == ResetLtInterval(lt, t.env).(isSampling := true, rttCnt := after.rttCnt)
                && after.rttCnt == if t.call.roundStart then 1 else 0)
  {
    if t.call.Look? {
      if lt.isSampling && !t.call.isAppLimited {
        LookSampling(lt, t.mode, t.call.roundStart, t.call.losses, t.env);
        var counted := lt.(rttCnt := lt.rttCnt + if t.call.roundStart then 1 else 0);
        EndedLtCases(counted, t.env);
        SameTests(lt, counted, t.env);
      } else {
        LookIdle(lt, t.mode, t.call, t.env);
      }
    }
  }

  /** The tests at the end of an interval do not depend on the count of rounds. */
  lemma SameTests(lt: Lt, counted: Lt, env: Env)
    requires counted == lt.(rttCnt := counted.rttCnt)
    ensures LtLossLow(counted, env) == LtLossLow(lt, env) && LtInterval(counted, env) == LtInterval(lt, env)
    ensures MeasuredRate(counted, env) == MeasuredRate(lt, env)
    ensures LtConsistent(counted, MeasuredRate(lt, env), env) == LtConsistent(lt, MeasuredRate(lt, env), env)
  {
  }

  // ---------- the evidence behind a detection ----------

  /** What turn `k` detects: two adjacent lossy intervals with consistent rates, the second ending now. */
  ghost predicate Evidence(turns: seq<Turn>, m: Marks, k: nat)
    requires k < |turns|
  {
    && m.p < m.i < k && Lossy(turns, m.p, m.pFirst, m.i) && Lossy(turns, m.i, m.i + 1, k)
    && RateOf(turns[m.p].env, turns[m.i].env) != 0
    && RatesAgree(RateOf(turns[m.p].env, turns[m.i].env), RateOf(turns[m.i].env, turns[k].env), turns[k].env)
  }

  lemma StepRemembers(lt: Lt, turns: seq<Turn>, m: Marks, k: nat) returns (next: Marks)
    requires k < |turns| && !lt.useBw && Remembers(lt, turns, m, k)
    ensures var after := NextLt(lt, turns[k].mode, turns[k].call, turns[k].env);
            !after.useBw ==> Remembers(after, turns, next, k + 1)
  {
    if EndsInterval(lt, turns[k]) {
      next := Marks(k, k + 1, m.i, m.first);
      NextLtEnds(lt, turns[k]);
      EndedIsLossy(lt, turns, m, k);
    } else {
      next := if lt.isSampling then m else Marks(k, k, 0, 0);
      NextLtGoesOn(lt, turns[k]);
    }
  }

  /** An interval that ends is a lossy one, and its rate is measured. */
  lemma EndedIsLossy(lt: Lt, turns: seq<Turn>, m: Marks, k: nat)
    requires k < |turns| && UnderWay(lt, turns, m.i, m.first, k) && EndsInterval(lt, turns[k])
    ensures Lossy(turns, m.i, m.first, k) && MeasuredRate(lt, turns[k].env) == RateOf(turns[m.i].env, turns[k].env)
  {
  }

  lemma StepHasEvidence(lt: Lt, turns: seq<Turn>, m: Marks, k: nat)
    requires k < |turns| && !lt.useBw && Remembers(lt, turns, m, k)
    ensures var after := NextLt(lt, turns[k].mode, turns[k].call, turns[k].env);
            after.useBw ==>
              && Evidence(turns, m, k) && after.rttCnt == 0
              && after.bw == U32(RateOf(turns[m.i].env, turns[k].env) + RateOf(turns[m.p].env, turns[m.i].env)) / 2
  {
    if EndsInterval(lt, turns[k]) {
      NextLtEnds(lt, turns[k]);
      EndedIsLossy(lt, turns, m, k);
    } else {
      NextLtGoesOn(lt, turns[k]);
    }
  }

  /** A rate in use stays as it is, counted by rounds in PROBE_BW, or is forgotten. */
  lemma UseCases(lt: Lt, t: Turn)
    requires lt.useBw && lt.rttCnt <= 47
    ensures var after := NextLt(lt, t.mode, t.call, t.env);
            if t.call.Forget? || (CountsUse(t) && lt.rttCnt == 47)
            then !after.useBw && !after.isSampling && after.bw == 0 && after.rttCnt == 0
            else after == lt.(rttCnt := lt.rttCnt + if CountsUse(t) then 1 else 0)
  {
  }

  /** A round that begins in PROBE_BW. */
  predicate CountsUse(t: Turn) {
    t.call.Look? && t.call.roundStart && t.mode == ProbeBw
  }

  /** The estimator knows nothing. */
  predicate Blank(lt: Lt) {
    !lt.useBw && !lt.isSampling && lt.bw == 0 && lt.rttCnt == 0
  }

  lemma {:induction false} RunRemembers(lt: Lt, turns: seq<Turn>, k: nat) returns (m: Marks)
    requires Blank(lt) && k <= |turns|
    ensures var after := LtRun(lt, turns[..k]);
            if after.useBw then after.rttCnt <= 47 else Remembers(after, turns, m, k)
    decreases k
  {
    m := Marks(0, 0, 0, 0);
    if k > 0 {
      m := RunRemembers(lt, turns, k - 1);
      assert turns[..k][..k - 1] == turns[..k - 1];
      var before := LtRun(lt, turns[..k - 1]);
      if before.useBw {
        UseCases(before, turns[k - 1]);
      } else {
        StepHasEvidence(before, turns, m, k - 1);
        m := StepRemembers(before, turns, m, k - 1);
      }
    }
  }

  /** The rate in use after the last turn: the evidence for it, and that it is half the sum of the two rates. */
  ghost predicate Detected(lt: Lt, turns: seq<Turn>, m: Marks)
    requires turns != []
  {
    var k := |turns| - 1;
    && Evidence(turns, m, k) && lt.rttCnt == 0
    && lt.bw == U32(RateOf(turns[m.i].env, turns[k].env) + RateOf(turns[m.p].env, turns[m.i].env)) / 2
  }

  lemma TurnsHaveEvidence(lt: Lt, turns: seq<Turn>) returns (m: Marks)
    requires Blank(lt) && turns != []
    requires !LtRun(lt, turns[..|turns| - 1]).useBw && LtRun(lt, turns).useBw
    ensures Detected(LtRun(lt, turns), turns, m)
  {
    var k := |turns| - 1;
    m := RunRemembers(lt, turns, k);
    StepHasEvidence(LtRun(lt, turns[..k]), turns, m, k);
  }

  lemma LastTwo(s: State, events: seq<(Event, Env)>)
    requires events != []
    ensures var k, turns := |events| - 1, TurnsOf(s, events);
            && Run(s, events[..k]).bbr.lt == LtRun(s.bbr.lt, turns[..k])
            && Run(s, events).bbr.lt == LtRun(s.bbr.lt, turns)
  {
    var k := |events| - 1;
    RunLt(s, events);
    RunLt(s, events[..k]);
    TurnsPrefix(s, events, k);
  }

  lemma RunLtAt(s: State, events: seq<(Event, Env)>, n: nat)
    requires n <= |events|
    ensures Run(s, events[..n]).bbr.lt == LtRun(s.bbr.lt, TurnsOf(s, events)[..n])
  {
    RunLt(s, events[..n]);
    TurnsPrefix(s, events, n);
  }

  /** A policed rate comes into use with this event. */
  ghost predicate Detects(s: State, events: seq<(Event, Env)>) {
    events != [] && !Run(s, events[..|events| - 1]).bbr.lt.useBw && Run(s, events).bbr.lt.useBw
  }

  /**
   After any run from a new connection: a policed rate comes into use only at the end of the second of two adjacent
   lossy intervals with consistent rates, and is half their sum.
   */
  lemma DetectionHasEvidence(sk: Sock, minRttUs: u32, env0: Env, events: seq<(Event, Env)>) returns (m: Marks)
    requires Detects(Init(sk, minRttUs, env0), events)
    ensures var s0 := Init(sk, minRttUs, env0);
            Detected(Run(s0, events).bbr.lt, TurnsOf(s0, events), m)
  {
    InitFrame(sk, minRttUs, env0);
    m := RunHasEvidence(Init(sk, minRttUs, env0), events);
  }

  lemma RunHasEvidence(s: State, events: seq<(Event, Env)>) returns (m: Marks)
    requires Detects(s, events) && Blank(s.bbr.lt)
    ensures Detected(Run(s, events).bbr.lt, TurnsOf(s, events), m)
  {
    LastTwo(s, events);
    m := TurnsHaveEvidence(s.bbr.lt, TurnsOf(s, events));
  }

  /** Half the sum lies between the two rates exactly if the sum does not wrap. */
  lemma MeanIff(r1: u32, r2: u32)
    ensures Min(r1, r2) <= U32(r1 + r2) / 2 <= Max(r1, r2) <==> r1 + r2 < TWO32
  {
  }

  // ---------- how long the rate is used ----------

  /** The rounds in PROBE_BW among the first `k` turns. */
  function Uses(turns: seq<Turn>, k: nat): nat
    requires k <= |turns|
  {
    if k == 0 then 0 else Uses(turns, k - 1) + if CountsUse(turns[k - 1]) then 1 else 0
  }

  lemma {:induction false} UsesGrow(turns: seq<Turn>, n: nat, k: nat)
    requires n <= k <= |turns|
    ensures Uses(turns, n) <= Uses(turns, k)
    decreases k
  {
    if n < k {
      UsesGrow(turns, n, k - 1);
    }
  }

  /** While fewer than 48 rounds have begun the rate is in use unchanged; the 48th ends its use. */
  lemma {:induction false} InUse(lt: Lt, turns: seq<Turn>, k: nat)
    requires lt.useBw && lt.rttCnt == 0 && k <= |turns|
    requires forall n :: 0 <= n < |turns| ==> !turns[n].call.Forget?
    ensures Uses(turns, k) < LT_BW_MAX_RTTS ==> LtRun(lt, turns[..k]) == lt.(rttCnt := Uses(turns, k))
    ensures k > 0 && Uses(turns, k - 1) == LT_BW_MAX_RTTS - 1 && CountsUse(turns[k - 1]) ==>
              Blank(LtRun(lt, turns[..k]))
    decreases k
  {
    if k > 0 {
      InUse(lt, turns, k - 1);
      assert turns[..k][..k - 1] == turns[..k - 1];
      if Uses(turns, k - 1) < LT_BW_MAX_RTTS {
        UseCases(LtRun(lt, turns[..k - 1]), turns[k - 1]);
      }
    }
  }

  /** The turn of the 48th round. */
  lemma {:induction false} FortyEighth(turns: seq<Turn>, k: nat) returns (n: nat)
    requires k <= |turns| && Uses(turns, k) >= LT_BW_MAX_RTTS
    ensures n < k && Uses(turns, n) == LT_BW_MAX_RTTS - 1 && CountsUse(turns[n])
    decreases k
  {
    if Uses(turns, k - 1) >= LT_BW_MAX_RTTS {
      n := FortyEighth(turns, k - 1);
    } else {
      n := k - 1;
    }
  }

  /** The rate is in use in every state of a run. */
  ghost predicate InUseThroughout(s: State, events: seq<(Event, Env)>) {
    forall n :: 0 <= n <= |events| ==> At(s, events, n).bbr.lt.useBw
  }

  /**
   From its detection on, and as long as nothing is undone, the rate is in use throughout a run if and only if fewer
   than 48 rounds have begun in PROBE_BW; until then it does not change.
   */
  lemma PolicedRateExpires(s: State, events: seq<(Event, Env)>)
    requires s.bbr.lt.useBw && s.bbr.lt.rttCnt == 0
    requires forall x :: x in events ==> !x.0.Undo?
    ensures InUseThroughout(s, events) <==> Uses(TurnsOf(s, events), |events|) < LT_BW_MAX_RTTS
    ensures InUseThroughout(s, events) ==> Run(s, events).bbr.lt.bw == s.bbr.lt.bw
  {
    var turns := TurnsOf(s, events);
    NothingForgotten(s, events);
    forall n | 0 <= n <= |events|
      ensures At(s, events, n).bbr.lt == LtRun(s.bbr.lt, turns[..n])
    {
      RunLtAt(s, events, n);
    }
    assert events[..|events|] == events;
    if Uses(turns, |events|) < LT_BW_MAX_RTTS {
      forall n | 0 <= n <= |events| ensures At(s, events, n).bbr.lt == s.bbr.lt.(rttCnt := Uses(turns, n)) {
        UsesGrow(turns, n, |events|);
        InUse(s.bbr.lt, turns, n);
      }
    } else {
      var n := FortyEighth(turns, |events|);
      InUse(s.bbr.lt, turns, n + 1);
      assert !At(s, events, n + 1).bbr.lt.useBw;
    }
  }

  lemma {:induction false} NothingForgotten(s: State, events: seq<(Event, Env)>)
    requires forall x :: x in events ==> !x.0.Undo?
    ensures forall n :: 0 <= n < |events| ==> !TurnsOf(s, events)[n].call.Forget?
  {
    if events != [] {
      var k := |events| - 1;
      assert forall x :: x in events[..k] ==> x in events;
      NothingForgotten(s, events[..k]);
      assert events[k] in events;
    }
  }

  // ---------- one step ----------

  lemma IdleDetectsNothing(lt: Lt, mode: Mode, c: Call, env: Env)
    requires c.Look? && !lt.useBw && (!lt.isSampling || c.isAppLimited)
    ensures !NextLt(lt, mode, c, env).useBw
  {
    LookIdle(lt, mode, c, env);
  }

  lemma SamplingDetects(lt: Lt, t: Turn)
    requires !lt.useBw && lt.isSampling && lt.rttCnt <= 16 && t.call.Look? && !t.call.isAppLimited
    ensures NextLt(lt, t.mode, t.call, t.env).useBw ==> EndsInterval(lt, t)
  {
    LookSampling(lt, t.mode, t.call.roundStart, t.call.losses, t.env);
    var counted := lt.(rttCnt := lt.rttCnt + if t.call.roundStart then 1 else 0);
    EndedLtCases(counted, t.env);
    SameTests(lt, counted, t.env);
  }

  /** What a detection asks of the interval that ends and of the rate before it. */
  ghost predicate DetectedFrom(lt: Lt, t: Turn, after: Lt) {
    && EndsInterval(lt, t) && lt.bw != 0 && RatesAgree(lt.bw, MeasuredRate(lt, t.env), t.env)
    && after.bw == U32(MeasuredRate(lt, t.env) + lt.bw) / 2 && after.rttCnt == 0
  }

  lemma TurnNeedsEvidence(lt: Lt, t: Turn)
    requires !lt.useBw && lt.rttCnt <= 16 && t.call.Look?
    ensures var after := NextLt(lt, t.mode, t.call, t.env);
            after.useBw ==> DetectedFrom(lt, t, after)
  {
    if !lt.isSampling || t.call.isAppLimited {
      IdleDetectsNothing(lt, t.mode, t.call, t.env);
    } else {
      SamplingDetects(lt, t);
      if EndsInterval(lt, t) {
        NextLtEnds(lt, t);
      }
    }
  }

  lemma EndsWithHighLoss(lt: Lt, t: Turn)
    requires EndsInterval(lt, t)
    ensures LossHigh(U32(t.env.lost - lt.lastLost), U32(t.env.delivered - lt.lastDelivered))
  {
  }

  /** A detection in the state machine: the evidence, and that pacing drops to gain 1. */
  lemma PolicerNeedsEvidence(b: Block, losses: s32, isAppLimited: bool, env: Env)
    requires !b.lt.useBw && b.lt.rttCnt <= 16
    ensures var after := LtSampling(b, losses, isAppLimited, env);
            var t := Turn(b.mode, Look(b.roundStart, losses, isAppLimited), env);
            after.lt.useBw ==>
              && DetectedFrom(b.lt, t, after.lt) && after.pacingGain == BBR_UNIT
              && LossHigh(U32(env.lost - b.lt.lastLost), U32(env.delivered - b.lt.lastDelivered))
  {
    var t := Turn(b.mode, Look(b.roundStart, losses, isAppLimited), env);
    LtSamplingFrame(b, losses, isAppLimited, env);
    LtStandsAlone(b, losses, isAppLimited, env);
    TurnNeedsEvidence(b.lt, t);
    if EndsInterval(b.lt, t) {
      EndsWithHighLoss(b.lt, t);
    }
  }

  /** Below 2^27, and for a difference below 2^24, the 32-bit comparison with an eighth is exact. */
  lemma EighthIff(r: u32, diff: nat)
    requires r < 8 * TWO24 && diff < TWO24
    ensures U32(diff * BBR_UNIT) <= U32(LT_BW_RATIO * r) <==> 8 * diff <= r
  {
  }

  /** So such rates agree if and only if they differ by at most an eighth, or by 500 bytes per second. */
  lemma RatesAgreeIff(r1: u32, r2: u32, env: Env)
    requires r1 < 8 * TWO24 && Abs(r2 - r1) < TWO24
    ensures RatesAgree(r1, r2, env)
            <==> 8 * Abs(r2 - r1) <= r1 || RateBytesPerSec(Abs(r2 - r1), env.mss, BBR_UNIT) <= LT_BW_DIFF
  {
    SmallDifference(r1, r2);
    EighthIff(r1, Abs(r2 - r1));
  }

  lemma SmallDifference(r1: u32, r2: u32)
    requires Abs(r2 - r1) < TWO24
    ensures S32(r2 - r1) == r2 - r1
  {
  }
}
