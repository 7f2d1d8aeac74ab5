/**
 BBR's packet-timed rounds over whole runs: what marks the end of a round, and how many have begun.
 */
module BbrRounds {
  import opened Words
  import opened BbrRates
  import opened Bbr
  import opened BbrFrames
  import opened BbrProbeRtt
  import opened BbrRecovery
  import opened BbrGrowth
  import opened BbrTriggers

  // ---------- one ACK ----------

  lemma EstimatesRounds(s: State, rs: Sample, env: Env)
    ensures var b := UpdateEstimates(s, rs, env).bbr;
            && b.nextRttDelivered == (if NewRound(s.bbr, rs) then env.delivered else s.bbr.nextRttDelivered)
            && b.rttCnt == (if NewRound(s.bbr, rs) then U32(s.bbr.rttCnt + 1) else s.bbr.rttCnt)
  {
    LtSamplingFrame(StartRound(s.bbr.(roundStart := false), rs, env), rs.losses, rs.isAppLimited, env);
    var b1 := UpdateBw(s.bbr, rs, env);
    SmallFrames(b1, s.sk.sndCwnd, rs, env);
    var b2 := UpdateAggregation(b1, s.sk.sndCwnd, rs, env);
    SmallFrames(b2, s.sk.sndCwnd, rs, env);
    SmallFrames(UpdateCyclePhase(b2, rs, env), s.sk.sndCwnd, rs, env);
  }

  /** Few packets are in flight in PROBE_RTT for the first time of a visit. */
  predicate Drained(s: State, isIn: bool, env: Env) {
    env.inFlight <= 4 && if In(s.bbr) then s.bbr.probe.doneStamp == 0 else isIn
  }

  lemma MinRttRounds(s: State, rs: Sample, env: Env)
    ensures var after := UpdateMinRtt(s, rs, env);
            && after.bbr.rttCnt == s.bbr.rttCnt
            && after.bbr.nextRttDelivered
               == if Drained(s, In(after.bbr), env) then env.delivered else s.bbr.nextRttDelivered
  {
    var s1 := s.(bbr := TakeMinRtt(s.bbr, rs, FilterExpired(s.bbr, env), env));
    var s2 := if EntersProbeRtt(s.bbr, env) then EnterProbeRtt(s1) else s1;
    if In(s2.bbr) {
      StayRounds(s2, env);
    }
  }

  lemma StayRounds(s: State, env: Env)
    requires In(s.bbr)
    ensures var after, drained := StayInProbeRtt(s, env), s.bbr.probe.doneStamp == 0 && env.inFlight <= 4;
            && after.bbr.rttCnt == s.bbr.rttCnt && (drained ==> In(after.bbr))
            && (s.bbr.probe.doneStamp == 0 ==> In(after.bbr))
            && after.bbr.nextRttDelivered == if drained then env.delivered else s.bbr.nextRttDelivered
  {
    StayFrame(s, env);
    if s.bbr.probe.doneStamp != 0 {
      var limit := U32(env.delivered + env.inFlight);
      var s1 := s.(sk := s.sk.(appLimited := if limit == 0 then 1 else limit));
      var s2 := if s1.bbr.roundStart then s1.(bbr := s1.bbr.(probe := s1.bbr.probe.(roundDone := true))) else s1;
      CheckProbeRttDoneFrame(s2, env);
    }
  }

  lemma ModelRounds(s: State, rs: Sample, env: Env)
    ensures var b := AfterMinRtt(s, rs, env).bbr;
            && b.nextRttDelivered
               == (if NewRound(s.bbr, rs) || Drained(s, In(b), env) then env.delivered else s.bbr.nextRttDelivered)
            && b.rttCnt == (if NewRound(s.bbr, rs) then U32(s.bbr.rttCnt + 1) else s.bbr.rttCnt)
  {
    EstimatesRounds(s, rs, env);
    EstimatesFrame(s, rs, env);
    CheckDrainFrame(UpdateEstimates(s, rs, env), env);
    MinRttRounds(CheckDrain(UpdateEstimates(s, rs, env), env), rs, env);
  }

  lemma SetCwndRounds(p: State, rs: Sample, bw: u32, gain: u32, env: Env)
    ensures var after := SetCwnd(p, rs.losses, rs.ackedSacked, bw, gain, env).bbr;
            && after.rttCnt == p.bbr.rttCnt
            && after.nextRttDelivered
               == if EntersRecovery(p.bbr, rs, env) then env.delivered else p.bbr.nextRttDelivered
  {
  }

  /** This ACK marks the end of the present round at what has been delivered now. */
  predicate Marks(s: State, rs: Sample, env: Env) {
    || NewRound(s.bbr, rs)
    || Drained(s, In(OnAck(s, rs, env).bbr), env)
    || EntersRecovery(s.bbr, rs, env)
  }

  lemma AckRounds(s: State, rs: Sample, env: Env)
    ensures var after := OnAck(s, rs, env).bbr;
            && after.nextRttDelivered == (if Marks(s, rs, env) then env.delivered else s.bbr.nextRttDelivered)
            && after.rttCnt == (if NewRound(s.bbr, rs) then U32(s.bbr.rttCnt + 1) else s.bbr.rttCnt)
  {
    ModelRounds(s, rs, env);
    PacedFrame(AfterMinRtt(s, rs, env), env);
    BeforeWindowPrior(s, rs, env);
    AckSetsWindow(s, rs, env);
    var p := BeforeWindow(s, rs, env);
    SetCwndRounds(p, rs, Bw(p.bbr), p.bbr.cwndGain, env);
  }

  lemma OtherKeepsRounds(s: State, e: Event, env: Env)
    requires !e.Ack?
    ensures var after := Step(s, e, env).bbr;
            after.nextRttDelivered == s.bbr.nextRttDelivered && after.rttCnt == s.bbr.rttCnt
  {
    match e
    case Idle =>
      if s.sk.appLimited != 0 {
        var s1 := AtIdle(s, env);
        SetPacingRateFrame(s1, Bw(s1.bbr), BBR_UNIT, env);
        CheckProbeRttDoneFrame(s1, env);
      }
    case NewState(newState) => LtSamplingFrame(AtLoss(s.bbr), 1, false, env);
    case _ =>
  }

  /** This event marks the end of a round, or begins one. */
  predicate MarksAt(s: State, e: Event, env: Env) {
    e.Ack? && Marks(s, e.rs, env)
  }

  predicate BeginsAt(s: State, e: Event) {
    e.Ack? && NewRound(s.bbr, e.rs)
  }

  function NextCount(cnt: u32, begins: bool): u32 {
    if begins then U32(cnt + 1) else cnt
  }

  lemma StepMarks(s: State, e: Event, env: Env)
    ensures Step(s, e, env).bbr.nextRttDelivered
            == if MarksAt(s, e, env) then env.delivered else s.bbr.nextRttDelivered
  {
    match e
    case Ack(rs) => AckRounds(s, rs, env);
    case _ => OtherKeepsRounds(s, e, env);
  }

  lemma StepBegins(s: State, e: Event, env: Env)
    ensures Step(s, e, env).bbr.rttCnt == NextCount(s.bbr.rttCnt, BeginsAt(s, e))
  {
    match e
    case Ack(rs) => AckRounds(s, rs, env);
    case _ => OtherKeepsRounds(s, e, env);
  }

  // ---------- over runs ----------

  /** What had been delivered at the last event that marked the end of a round. */
  function Mark(s: State, events: seq<(Event, Env)>): u32 {
    if events == [] then s.bbr.nextRttDelivered
    else
      var k := |events| - 1;
      if MarksAt(Run(s, events[..k]), events[k].0, events[k].1) then events[k].1.delivered else Mark(s, events[..k])
  }

  /**
   Over any run: a round ends with the first packet sent after the last mark, which is the beginning of the round, the
   entry to recovery, or the moment in PROBE_RTT when few packets were left.
   */
  lemma {:induction false} RunMarks(s: State, events: seq<(Event, Env)>)
    ensures Run(s, events).bbr.nextRttDelivered == Mark(s, events)
  {
    if events != [] {
      var k := |events| - 1;
      RunMarks(s, events[..k]);
      StepMarks(Run(s, events[..k]), events[k].0, events[k].1);
    }
  }

  /** A 32-bit counter that has moved `n` times. */
  function Moved(start: u32, n: nat): u32 {
    if n == 0 then start else U32(Moved(start, n - 1) + 1)
  }

  lemma OneMore(cnt: u32, n: nat)
    requires cnt == n % TWO32
    ensures U32(cnt + 1) == (n + 1) % TWO32
  {
  }

  lemma {:induction false} MovedIs(start: u32, n: nat)
    ensures Moved(start, n) == (start + n) % TWO32
  {
    if n > 0 {
      MovedIs(start, n - 1);
      OneMore(Moved(start, n - 1), start + (n - 1));
    }
  }

  /** The round count in every state of a run. */
  ghost function Counts(s: State, events: seq<(Event, Env)>): (counts: seq<u32>)
    ensures |counts| == |events| + 1
    ensures forall n :: 0 <= n <= |events| ==> counts[n] == At(s, events, n).bbr.rttCnt
  {
    seq(|events| + 1, n requires 0 <= n <= |events| => At(s, events, n).bbr.rttCnt)
  }

  /** At which events a round begins. */
  ghost function Beginnings(s: State, events: seq<(Event, Env)>): (begins: seq<bool>)
    ensures |begins| == |events|
    ensures forall n :: 0 <= n < |events| ==> begins[n] == BeginsAt(At(s, events, n), events[n].0)
  {
    seq(|events|, n requires 0 <= n < |events| => BeginsAt(At(s, events, n), events[n].0))
  }

  lemma CountAt(s: State, events: seq<(Event, Env)>, n: nat)
    requires n < |events|
    ensures At(s, events, n + 1).bbr.rttCnt
            == NextCount(At(s, events, n).bbr.rttCnt, BeginsAt(At(s, events, n), events[n].0))
  {
    assert events[..n + 1][..n] == events[..n];
    StepBegins(At(s, events, n), events[n].0, events[n].1);
  }

  lemma CountsMove(s: State, events: seq<(Event, Env)>)
    ensures var counts, begins := Counts(s, events), Beginnings(s, events);
            forall n :: 0 <= n < |events| ==> counts[n + 1] == NextCount(counts[n], begins[n])
  {
    var counts, begins := Counts(s, events), Beginnings(s, events);
    forall n | 0 <= n < |events| ensures counts[n + 1] == NextCount(counts[n], begins[n]) {
      CountAt(s, events, n);
    }
  }

  /** How many of the first `k` events begin a round. */
  function Begun(begins: seq<bool>, k: nat): nat
    requires k <= |begins|
  {
    if k == 0 then 0 else Begun(begins, k - 1) + if begins[k - 1] then 1 else 0
  }

  lemma {:induction false} CountsAreMoved(counts: seq<u32>, begins: seq<bool>, k: nat)
    requires |counts| == |begins| + 1 && k <= |begins|
    requires forall n :: 0 <= n < |begins| ==> counts[n + 1] == NextCount(counts[n], begins[n])
    ensures counts[k] == Moved(counts[0], Begun(begins, k))
    decreases k
  {
    if k > 0 {
      CountsAreMoved(counts, begins, k - 1);
      assert counts[(k - 1) + 1] == NextCount(counts[k - 1], begins[k - 1]);
    }
  }

  /** And the round count has moved once for each round begun, in 32 bits (`MovedIs`). */
  lemma RunCountsRounds(s: State, events: seq<(Event, Env)>, k: nat)
    requires k <= |events|
    ensures At(s, events, k).bbr.rttCnt == Moved(s.bbr.rttCnt, Begun(Beginnings(s, events), k))
  {
    CountsMove(s, events);
    CountsAreMoved(Counts(s, events), Beginnings(s, events), k);
    assert At(s, events, 0) == s;
  }
}
