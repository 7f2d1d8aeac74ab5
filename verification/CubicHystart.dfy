/**
 HyStart's evidence: over whole runs, slow start is ended early only by an unbroken train of ACKs that has lasted
 long enough, or by eight delays in one round that all exceed the smallest delay by a margin.
 */
module CubicHystart {
  import opened Words
  import opened Tcp
  import opened Cubic

  /** A delay sample that HyStart looked at: when, and how long the delay was. */
  datatype Look = Look(at: u32, delay: u32)

  /** The current round: when it started, and every sample that HyStart has looked at since. */
  datatype Round = Round(start: u32, looks: seq<Look>)

  /** The sample is passed on to HyStart. */
  predicate LookedAt(s: State, rttUs: s32, env: Env) {
    && !Discarded(s.ca, rttUs, env) && !s.ca.found
    && InSlowStart(s.tp) && s.tp.sndCwnd >= HYSTART_LOW_WINDOW
  }

  /** The ACK is for data sent after the round began. */
  predicate EndsRound(s: State, ack: u32) {
    IsCwndLimited(s.tp) && InSlowStart(s.tp) && After(ack, s.ca.endSeq)
  }

  function NextRound(r: Round, s: State, e: Event, env: Env): Round {
    match e
    case Sample(rttUs) =>
      if LookedAt(s, rttUs, env) then r.(looks := r.looks + [Look(env.clockUs, Max(rttUs, 1))]) else r
    case Acked(ack, _) => if EndsRound(s, ack) then Round(env.clockUs, []) else r
    case NewState(newState) => if newState == TCP_CA_LOSS then Round(env.clockUs, []) else r
    case _ => r
  }

  function RoundOf(s: State, env0: Env, events: seq<(Event, Env)>): Round {
    if events == [] then Round(env0.clockUs, [])
    else
      var init := events[..|events| - 1];
      NextRound(RoundOf(s, env0, init), Run(s, init), events[|events| - 1].0, events[|events| - 1].1)
  }

  function LastLook(r: Round): u32 {
    if r.looks == [] then r.start else r.looks[|r.looks| - 1].at
  }

  /** No two samples of the round, nor its start and the first sample, are more than two milliseconds apart. */
  predicate Unbroken(r: Round)
    decreases |r.looks|
  {
    r.looks == []
    || (var before := r.(looks := r.looks[..|r.looks| - 1]);
        Unbroken(before) && LastLook(r) - LastLook(before) <= HYSTART_ACK_DELTA_US)
  }

  /** The smallest of the first eight delays, as a lower bound. */
  ghost predicate SmallestOfEight(m: u32, looks: seq<Look>) {
    && (forall i :: 0 <= i < |looks| && i < HYSTART_MIN_SAMPLES ==> m <= looks[i].delay)
    && (m == NO_RTT || exists i :: 0 <= i < |looks| && i < HYSTART_MIN_SAMPLES && m == looks[i].delay)
  }

  /**
   What the control block remembers of the round: its start, the end of the train, and the smallest of eight delays.
   */
  ghost predicate Remembers(ca: Bictcp, r: Round, now: nat) {
    && r.start == ca.roundStart <= ca.lastAck <= LastLook(r) <= now
    && (if Unbroken(r) then ca.lastAck == LastLook(r) else LastLook(r) - ca.lastAck > HYSTART_ACK_DELTA_US)
    && ca.sampleCnt == Min(|r.looks|, HYSTART_MIN_SAMPLES)
    && SmallestOfEight(ca.currRtt, r.looks)
  }

  /** The microsecond clock never goes back and stays clear of the sign bit. */
  ghost predicate Clock(env0: Env, events: seq<(Event, Env)>) {
    && (forall i :: 0 <= i < |events| ==> env0.clockUs <= events[i].1.clockUs < TWO31)
    && (forall i, j :: 0 <= i <= j < |events| ==> events[i].1.clockUs <= events[j].1.clockUs)
  }

  lemma LookRemembers(ca: Bictcp, r: Round, now: nat, look: Look, after: Bictcp)
    requires Remembers(ca, r, now) && now <= look.at < TWO31
    requires after.roundStart == ca.roundStart
    requires after.lastAck == if S32(look.at - ca.lastAck) <= HYSTART_ACK_DELTA_US then look.at else ca.lastAck
    requires after.sampleCnt == if ca.sampleCnt < HYSTART_MIN_SAMPLES then ca.sampleCnt + 1 else ca.sampleCnt
    requires after.currRtt == if ca.sampleCnt < HYSTART_MIN_SAMPLES then Min(ca.currRtt, look.delay) else ca.currRtt
    ensures Remembers(after, r.(looks := r.looks + [look]), look.at)
  {
    var r' := r.(looks := r.looks + [look]);
    assert r'.(looks := r'.looks[..|r.looks|]) == r;
    assert Unbroken(r') <==> Unbroken(r) && look.at - LastLook(r) <= HYSTART_ACK_DELTA_US;
    SmallestWithOneMore(ca.currRtt, r.looks, look);
  }

  lemma SmallestWithOneMore(m: u32, looks: seq<Look>, look: Look)
    requires SmallestOfEight(m, looks)
    ensures SmallestOfEight(if |looks| < HYSTART_MIN_SAMPLES then Min(m, look.delay) else m, looks + [look])
  {
    var all := looks + [look];
    assert all[|looks|] == look;
    if m != NO_RTT {
      var i :| 0 <= i < |looks| && i < HYSTART_MIN_SAMPLES && m == looks[i].delay;
      assert all[i] == looks[i];
    }
  }

  lemma StepRemembers(s: State, e: Event, env: Env, r: Round, now: nat)
    requires Remembers(s.ca, r, now) && now <= env.clockUs < TWO31
    ensures Remembers(Step(s, e, env).ca, NextRound(r, s, e, env), env.clockUs)
  {
    match e
    case Sample(rttUs) =>
      if LookedAt(s, rttUs, env) {
        LookRemembers(s.ca, r, now, Look(env.clockUs, Max(rttUs, 1)), PktsAcked(s, rttUs, env).ca);
      }
    case Acked(ack, acked) => AckRemembers(s, ack, acked, env);
    case _ =>
  }

  /** An ACK leaves what HyStart remembers alone, or starts a round. */
  lemma AckRemembers(s: State, ack: u32, acked: u32, env: Env)
    ensures var b, c := s.ca, CongAvoid(s, ack, acked, env).ca;
            if EndsRound(s, ack)
            then c.roundStart == c.lastAck == env.clockUs && c.sampleCnt == 0 && c.currRtt == NO_RTT
            else c.roundStart == b.roundStart && c.lastAck == b.lastAck
                 && c.sampleCnt == b.sampleCnt && c.currRtt == b.currRtt
  {
    if IsCwndLimited(s.tp) {
      var (s1, left) := AfterSlowStart(s, ack, acked, env);
      UpdateRemembers(s1.ca, s1.tp.sndCwnd, left, env.jiffies, env.hz);
    }
  }

  lemma UpdateRemembers(ca: Bictcp, cwnd: u32, acked: u32, now: u32, hz: hertz)
    ensures var c := Update(ca, cwnd, acked, now, hz);
            && c.roundStart == ca.roundStart && c.lastAck == ca.lastAck
            && c.sampleCnt == ca.sampleCnt && c.currRtt == ca.currRtt
  {
  }

  /** After any run the control block remembers exactly this of the current round. */
  lemma {:induction false} RunRemembers(tp: Tp, ca: Bictcp, env0: Env, events: seq<(Event, Env)>)
    requires Clock(env0, events)
    ensures var s0 := Init(tp, ca, env0);
            Remembers(Run(s0, events).ca, RoundOf(s0, env0, events), LastClock(env0, events))
  {
    if events != [] {
      var s0, init := Init(tp, ca, env0), events[..|events| - 1];
      RunRemembers(tp, ca, env0, init);
      StepRemembers(Run(s0, init), events[|events| - 1].0, events[|events| - 1].1,
                    RoundOf(s0, env0, init), LastClock(env0, init));
    }
  }

  function LastClock(env0: Env, events: seq<(Event, Env)>): u32 {
    if events == [] then env0.clockUs else events[|events| - 1].1.clockUs
  }

  /** An eighth of the delay, at least 4 and at most 16 milliseconds. */
  function Margin(delay: u32): u32 {
    Min(Max(delay / 8, 4000), 16000)
  }

  /**
   How long a train must last: the smallest delay and the allowance for aggregation, half of both when nothing is
   paced.
   */
  function TrainLength(delayMin: u32, env: Env): int {
    var whole := delayMin + AckDelay(env);
    if env.pacingNone then whole / 2 else whole
  }

  /** An unbroken train, up to now, that has lasted longer than that. */
  predicate TrainEvidence(r: Round, delayMin: u32, env: Env) {
    Unbroken(r) && env.clockUs - r.start > TrainLength(delayMin, env)
  }

  /** The first eight delays of the round all exceed the smallest delay by the margin. */
  ghost predicate DelayEvidence(r: Round, delayMin: u32) {
    && |r.looks| >= HYSTART_MIN_SAMPLES
    && (forall i :: 0 <= i < HYSTART_MIN_SAMPLES ==> r.looks[i].delay > delayMin + Margin(delayMin))
  }

  lemma DelayIffEvidence(ca: Bictcp, r: Round, now: nat)
    requires Remembers(ca, r, now) && ca.delayMin < TWO31
    ensures DelayIncreased(ca) <==> DelayEvidence(r, ca.delayMin)
  {
  }

  lemma TrainIffEvidence(ca: Bictcp, r: Round, now: nat, look: Look, env: Env)
    requires Remembers(ca, r, now) && now <= env.clockUs == look.at < TWO31 && ca.delayMin < TWO31
    ensures LongAckTrain(ca, env) <==> TrainEvidence(r.(looks := r.looks + [look]), ca.delayMin, env)
  {
    var r' := r.(looks := r.looks + [look]);
    assert r'.(looks := r'.looks[..|r.looks|]) == r;
    assert Unbroken(r') <==> Unbroken(r) && look.at - LastLook(r) <= HYSTART_ACK_DELTA_US;
  }

  /**
   After any run from `Init`: HyStart ends slow start with this sample if and only if it looks at the sample and one
   of the two kinds of evidence is there.
   */
  lemma ExitIffEvidence(tp: Tp, ca: Bictcp, env0: Env, events: seq<(Event, Env)>, rttUs: s32, env: Env)
    requires Clock(env0, events) && LastClock(env0, events) <= env.clockUs < TWO31
    ensures var s0 := Init(tp, ca, env0);
            var s, r := Run(s0, events), RoundOf(s0, env0, events);
            var after := PktsAcked(s, rttUs, env).ca;
            !s.ca.found && after.found
            <==> LookedAt(s, rttUs, env)
                 && (TrainEvidence(NextRound(r, s, Sample(rttUs), env), after.delayMin, env)
                     || DelayEvidence(r, after.delayMin))
  {
    RunRemembers(tp, ca, env0, events);
    var s0 := Init(tp, ca, env0);
    SampleIffEvidence(Run(s0, events), rttUs, env, RoundOf(s0, env0, events), LastClock(env0, events));
  }

  lemma SampleIffEvidence(s: State, rttUs: s32, env: Env, r: Round, now: nat)
    requires Remembers(s.ca, r, now) && now <= env.clockUs < TWO31
    ensures var after := PktsAcked(s, rttUs, env).ca;
            !s.ca.found && after.found
            <==> LookedAt(s, rttUs, env)
                 && (TrainEvidence(NextRound(r, s, Sample(rttUs), env), after.delayMin, env)
                     || DelayEvidence(r, after.delayMin))
  {
    if LookedAt(s, rttUs, env) {
      var after := PktsAcked(s, rttUs, env).ca;
      var c := s.ca.(delayMin := after.delayMin);
      assert after.found <==> LongAckTrain(c, env) || DelayIncreased(c);
      TrainIffEvidence(c, r, now, Look(env.clockUs, Max(rttUs, 1)), env);
      DelayIffEvidence(c, r, now);
    }
  }
}
