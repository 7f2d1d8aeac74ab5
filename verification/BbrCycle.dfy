/**
 BBR's gain cycle over whole runs: phases come in order, one at a time; each but the draining one lasts longer than the
 smallest round-trip time; and the end of a policed rate restarts the cycle outside the draining phase.
 */
module BbrCycle {
  import opened Words
  import opened BbrRates
  import opened Bbr
  import opened BbrFrames
  import opened BbrModes
  import opened BbrPolicer
  import opened BbrProbeRtt

  /** In PROBE_BW a gain below one is that of the draining phase. */
  ghost predicate PhaseGain(b: Block) {
    b.mode == ProbeBw && b.pacingGain < BBR_UNIT ==> b.cycle.idx == 1
  }

  lemma TxStartPhaseGain(s: State, env: Env)
    requires GainSane(s.bbr) && PhaseGain(s.bbr)
    ensures PhaseGain(TxStart(s, env).bbr)
  {
    if s.sk.appLimited != 0 {
      var s1 := AtIdle(s, env);
      SetPacingRateFrame(s1, Bw(s1.bbr), BBR_UNIT, env);
      CheckProbeRttDoneFrame(s1, env);
    }
  }

  lemma StepPhaseGain(s: State, e: Event, env: Env)
    requires Sane(s.bbr) && PhaseGain(s.bbr)
    ensures PhaseGain(Step(s, e, env).bbr)
  {
    match e
    case Ack(rs) => OnAckFrame(s, rs, env);
    case Idle => TxStartPhaseGain(s, env);
    case NewState(newState) => LtSamplingFrame(AtLoss(s.bbr), 1, false, env);
    case _ =>
  }

  lemma {:induction false} RunPhaseGain(s: State, events: seq<(Event, Env)>)
    requires Sane(s.bbr) && PhaseGain(s.bbr)
    ensures Sane(Run(s, events).bbr) && PhaseGain(Run(s, events).bbr)
  {
    if events != [] {
      var k := |events| - 1;
      RunPhaseGain(s, events[..k]);
      StepInOrder(Run(s, events[..k]), events[k].0, events[k].1);
      StepPhaseGain(Run(s, events[..k]), events[k].0, events[k].1);
    }
  }

  // ---------- one event ----------

  /** This event begins the 48th round of a policed rate. */
  predicate Expires(s: State, e: Event, env: Env) {
    s.bbr.lt.useBw && s.bbr.lt.rttCnt == 47 && CountsUse(Turn(s.bbr.mode, CallOf(s, e), env))
  }

  /**
   The next phase begins now; the last one has lasted longer than the smallest round-trip time, or was the draining
   one.
   */
  ghost predicate Advances(b: Block, env: Env, after: Cycle) {
    && after == Cycle((b.cycle.idx + 1) % CYCLE_LEN, env.deliveredMstamp)
    && (b.cycle.idx == 1 || StampDelta(env.deliveredMstamp, b.cycle.mstamp) > b.probe.minRttUs)
  }

  /** What one event in PROBE_BW does to the cycle. */
  ghost predicate CycleStep(s: State, e: Event, env: Env, after: Block) {
    if Expires(s, e, env) then !after.lt.useBw && FreshCycle(after.cycle, env)
    else after.cycle == s.bbr.cycle || Advances(s.bbr, env, after.cycle)
  }

  /** The long-term estimator restarts the cycle at the 48th round, and at no other time. */
  lemma LtCycle(b: Block, losses: s32, isAppLimited: bool, env: Env)
    requires b.mode == ProbeBw && b.lt.rttCnt <= 47
    ensures var after := LtSampling(b, losses, isAppLimited, env);
            if b.lt.useBw && b.roundStart && b.lt.rttCnt == 47
            then !after.lt.useBw && FreshCycle(after.cycle, env) && after.pacingGain == b.pacingGain
            else after.cycle == b.cycle
  {
    if b.lt.useBw {
      ResetProbeBwFrame(b.(lt := ResetLt(b.lt, env)), env);
    } else {
      LtSamplingFrame(b, losses, isAppLimited, env);
    }
  }

  lemma UpdateBwCycle(s: State, rs: Sample, env: Env)
    requires s.bbr.mode == ProbeBw && s.bbr.lt.rttCnt <= 47
    ensures var after := UpdateBw(s.bbr, rs, env);
            if Expires(s, Ack(rs), env)
            then !after.lt.useBw && FreshCycle(after.cycle, env) && after.pacingGain == s.bbr.pacingGain
            else after.cycle == s.bbr.cycle
  {
    if rs.delivered >= 0 && rs.intervalUs > 0 {
      LtCycle(StartRound(s.bbr.(roundStart := false), rs, env), rs.losses, rs.isAppLimited, env);
    }
  }

  /** A phase ends when it has lasted long enough, or early if its gain is below one. */
  lemma PhaseEnds(b: Block, rs: Sample, env: Env)
    requires b.mode == ProbeBw
    ensures var after := UpdateCyclePhase(b, rs, env).cycle;
            || after == b.cycle
            || (after == Cycle((b.cycle.idx + 1) % CYCLE_LEN, env.deliveredMstamp)
                && (b.pacingGain < BBR_UNIT || StampDelta(env.deliveredMstamp, b.cycle.mstamp) > b.probe.minRttUs))
  {
  }

  lemma BeforeCycleProbe(s: State, rs: Sample, env: Env)
    ensures BeforeCycle(s, rs, env).probe == s.bbr.probe
  {
    UpdateBwFrame(s.bbr, rs, env);
    SmallFrames(UpdateBw(s.bbr, rs, env), s.sk.sndCwnd, rs, env);
  }

  lemma EstimatesCycle(s: State, rs: Sample, env: Env)
    requires Sane(s.bbr) && PhaseGain(s.bbr) && s.bbr.mode == ProbeBw
    ensures CycleStep(s, Ack(rs), env, UpdateEstimates(s, rs, env).bbr)
  {
    UpdateBwCycle(s, rs, env);
    UpdateBwFrame(s.bbr, rs, env);
    EstimatesFrame(s, rs, env);
    BeforeCycleFrame(s, rs, env);
    BeforeCycleProbe(s, rs, env);
    var b := BeforeCycle(s, rs, env);
    if Expires(s, Ack(rs), env) {
      FreshCycleStays(b, rs, env);
    } else {
      PhaseEnds(b, rs, env);
    }
  }

  /** Outside PROBE_RTT the step that may enter it does not touch the cycle. */
  lemma EnterKeepsCycle(s: State, rs: Sample, env: Env)
    requires s.bbr.mode != ProbeRtt
    ensures UpdateMinRtt(s, rs, env).bbr.cycle == s.bbr.cycle
  {
  }

  lemma OnAckCycle(s: State, rs: Sample, env: Env)
    requires s.bbr.mode == ProbeBw
    ensures var b, after := UpdateEstimates(s, rs, env).bbr, OnAck(s, rs, env).bbr;
            after.cycle == b.cycle && after.lt == b.lt
  {
    EstimatesFrame(s, rs, env);
    CheckDrainFrame(UpdateEstimates(s, rs, env), env);
    var s2 := CheckDrain(UpdateEstimates(s, rs, env), env);
    EnterKeepsCycle(s2, rs, env);
    UpdateMinRttFrame(s2, rs, env);
    OnAckFrame(s, rs, env);
  }

  lemma TxStartCycle(s: State, env: Env)
    requires s.bbr.mode == ProbeBw
    ensures TxStart(s, env).bbr.cycle == s.bbr.cycle
  {
    var s1 := AtIdle(s, env);
    SetPacingRateFrame(s1, Bw(s1.bbr), BBR_UNIT, env);
  }

  lemma StepCycle(s: State, e: Event, env: Env)
    requires Sane(s.bbr) && PhaseGain(s.bbr) && s.bbr.mode == ProbeBw
    ensures CycleStep(s, e, env, Step(s, e, env).bbr)
  {
    match e
    case Ack(rs) =>
      EstimatesCycle(s, rs, env);
      OnAckCycle(s, rs, env);
    case Idle => TxStartCycle(s, env);
    case NewState(newState) => LtCycle(AtLoss(s.bbr), 1, false, env);
    case _ =>
  }

  // ---------- over runs ----------

  /** A state from which the invariants of the cycle hold. */
  ghost predicate Ready(s: State) {
    Sane(s.bbr) && PhaseGain(s.bbr)
  }

  lemma InitIsReady(sk: Sock, minRttUs: u32, env: Env)
    ensures Ready(Init(sk, minRttUs, env))
  {
    InitIsSane(sk, minRttUs, env);
  }

  lemma CycleAt(s: State, events: seq<(Event, Env)>, k: nat)
    requires Ready(s) && k < |events| && At(s, events, k).bbr.mode == ProbeBw
    ensures CycleStep(At(s, events, k), events[k].0, events[k].1, At(s, events, k + 1).bbr)
  {
    RunPhaseGain(s, events[..k]);
    assert events[..k + 1][..k] == events[..k];
    StepCycle(At(s, events, k), events[k].0, events[k].1);
  }

  /** No policed rate runs out with event `k`. */
  ghost predicate Ordinary(s: State, events: seq<(Event, Env)>, k: nat)
    requires k < |events|
  {
    At(s, events, k).bbr.mode == ProbeBw && !Expires(At(s, events, k), events[k].0, events[k].1)
  }

  /**
   A phase that began with event `i` and lasts up to event `j`, which ends it: it is followed by the next one, and
   unless it was the draining phase more than the smallest round-trip time has passed since it began.
   */
  lemma PhaseLasts(s: State, events: seq<(Event, Env)>, i: nat, j: nat)
    requires Ready(s) && i < j < |events| && Ordinary(s, events, j)
    requires At(s, events, j).bbr.cycle.mstamp == events[i].1.deliveredMstamp
    requires At(s, events, j + 1).bbr.cycle != At(s, events, j).bbr.cycle
    ensures var b := At(s, events, j).bbr;
            && At(s, events, j + 1).bbr.cycle.idx == (b.cycle.idx + 1) % CYCLE_LEN
            && At(s, events, j + 1).bbr.cycle.mstamp == events[j].1.deliveredMstamp
            && (b.cycle.idx == 1
                || StampDelta(events[j].1.deliveredMstamp, events[i].1.deliveredMstamp) > b.probe.minRttUs)
  {
    CycleAt(s, events, j);
  }

  /** Throughout the run the flow probes for bandwidth, and no policed rate runs out. */
  predicate Probing(s: State, events: seq<(Event, Env)>) {
    events == []
    || (var k := |events| - 1;
        && Probing(s, events[..k]) && Run(s, events[..k]).bbr.mode == ProbeBw
        && !Expires(Run(s, events[..k]), events[k].0, events[k].1))
  }

  lemma OneMorePhase(x: nat, phase: nat)
    requires phase == x % CYCLE_LEN
    ensures (phase + 1) % CYCLE_LEN == (x + 1) % CYCLE_LEN != phase
  {
  }

  /** Of two phases the second is the first, or the one after it. */
  predicate Follows(phase: nat, next: nat) {
    phase < CYCLE_LEN && (next == phase || next == (phase + 1) % CYCLE_LEN)
  }

  lemma CycleStepFollows(s: State, e: Event, env: Env, after: Block)
    requires CycleStep(s, e, env, after) && s.bbr.cycle.idx < CYCLE_LEN && !Expires(s, e, env)
    ensures Follows(s.bbr.cycle.idx, after.cycle.idx)
  {
  }

  lemma PhaseStep(s: State, e: Event, env: Env)
    requires Ready(s) && s.bbr.mode == ProbeBw && !Expires(s, e, env)
    ensures Follows(s.bbr.cycle.idx, Step(s, e, env).bbr.cycle.idx)
  {
    StepCycle(s, e, env);
    CycleStepFollows(s, e, env, Step(s, e, env).bbr);
  }

  /** The phases in all states of a run, the first one first. */
  function Phases(s: State, events: seq<(Event, Env)>): (phases: seq<nat>)
    ensures |phases| == |events| + 1
  {
    if events == [] then [s.bbr.cycle.idx]
    else Phases(s, events[..|events| - 1]) + [Run(s, events).bbr.cycle.idx]
  }

  lemma LastPhase(s: State, events: seq<(Event, Env)>)
    ensures Phases(s, events)[|events|] == Run(s, events).bbr.cycle.idx
  {
  }

  /** Each phase is the one before it, or the next. */
  predicate Ordered(phases: seq<nat>)
    requires phases != []
  {
    phases[0] < CYCLE_LEN && forall k :: 0 <= k < |phases| - 1 ==> Follows(phases[k], phases[k + 1])
  }

  /** How often the phase changes. */
  function Changes(phases: seq<nat>): nat {
    if |phases| <= 1 then 0
    else Changes(phases[..|phases| - 1]) + if phases[|phases| - 1] != phases[|phases| - 2] then 1 else 0
  }

  /** The last phase is the first one, advanced once for each change. */
  predicate Advanced(phases: seq<nat>)
    requires phases != []
  {
    phases[|phases| - 1] == (phases[0] + Changes(phases)) % CYCLE_LEN
  }

  lemma {:induction false} OrderedPhases(phases: seq<nat>)
    requires phases != [] && Ordered(phases)
    ensures Advanced(phases)
  {
    if |phases| > 1 {
      var k := |phases| - 2;
      OrderedPhases(phases[..k + 1]);
      assert Follows(phases[k], phases[k + 1]);
      OneMorePhase(phases[0] + Changes(phases[..k + 1]), phases[k]);
    }
  }

  lemma {:induction false} ProbingIsOrdered(s: State, events: seq<(Event, Env)>)
    requires Ready(s) && Probing(s, events)
    ensures Ordered(Phases(s, events)) && Phases(s, events)[0] == s.bbr.cycle.idx
  {
    if events != [] {
      var k := |events| - 1;
      ProbingIsOrdered(s, events[..k]);
      OnePhaseMore(s, events);
    }
  }

  lemma OnePhaseMore(s: State, events: seq<(Event, Env)>)
    requires Ready(s) && events != [] && Probing(s, events)
    ensures var k, phases := |events| - 1, Phases(s, events);
            phases[..k + 1] == Phases(s, events[..k]) && Follows(phases[k], phases[k + 1])
  {
    var k := |events| - 1;
    RunPhaseGain(s, events[..k]);
    LastPhase(s, events[..k]);
    LastPhase(s, events);
    RunFollows(s, events);
  }

  lemma RunFollows(s: State, events: seq<(Event, Env)>)
    requires events != [] && Probing(s, events) && Ready(Run(s, events[..|events| - 1]))
    ensures Follows(Run(s, events[..|events| - 1]).bbr.cycle.idx, Run(s, events).bbr.cycle.idx)
  {
    var k := |events| - 1;
    PhaseStep(Run(s, events[..k]), events[k].0, events[k].1);
  }

  /** In such a run, from any reachable state, the phases advance in order, one at a time, and none is skipped. */
  lemma PhasesInOrder(s: State, events: seq<(Event, Env)>)
    requires Ready(s) && Probing(s, events)
    ensures Ordered(Phases(s, events)) && Advanced(Phases(s, events))
  {
    ProbingIsOrdered(s, events);
    OrderedPhases(Phases(s, events));
  }

  // ---------- the end of a policed rate ----------

  lemma TurnAt(s: State, events: seq<(Event, Env)>, n: nat)
    requires n < |events|
    ensures TurnsOf(s, events)[n]
            == Turn(At(s, events, n).bbr.mode, CallOf(At(s, events, n), events[n].0), events[n].1)
  {
    TurnsPrefix(s, events, n + 1);
    assert events[..n + 1][..n] == events[..n];
    LastTurn(s, events[..n + 1]);
  }

  lemma LastTurn(s: State, events: seq<(Event, Env)>)
    requires events != []
    ensures var k := |events| - 1;
            TurnsOf(s, events)[k]
            == Turn(Run(s, events[..k]).bbr.mode, CallOf(Run(s, events[..k]), events[k].0), events[k].1)
  {
  }

  /**
   The 48th round in PROBE_BW since the detection ends the use of the rate and restarts the cycle, not in the draining
   phase.
   */
  lemma FortyEighthRestarts(s: State, events: seq<(Event, Env)>) returns (n: nat)
    requires Ready(s) && s.bbr.lt.useBw && s.bbr.lt.rttCnt == 0
    requires forall x :: x in events ==> !x.0.Undo?
    requires Uses(TurnsOf(s, events), |events|) >= LT_BW_MAX_RTTS
    ensures n < |events| && Uses(TurnsOf(s, events), n) == LT_BW_MAX_RTTS - 1
    ensures !At(s, events, n + 1).bbr.lt.useBw && FreshCycle(At(s, events, n + 1).bbr.cycle, events[n].1)
  {
    var turns := TurnsOf(s, events);
    n := FortyEighth(turns, |events|);
    NothingForgotten(s, events);
    InUse(s.bbr.lt, turns, n);
    RunLtAt(s, events, n);
    TurnAt(s, events, n);
    CycleAt(s, events, n);
  }
}
