/**
 The other half of PROBE_RTT's promise, at least one round trip: a visit that an ACK ends has lasted one since few
 packets were in flight, and a visit that an idle restart ends has exactly if the round was noted before.
 */
module BbrRoundWait {
  import opened Words
  import opened BbrRates
  import opened Bbr
  import opened BbrFrames
  import opened BbrProbeRtt

  /** This ACK begins a round trip. */
  predicate StartsRound(s: State, e: Event, env: Env) {
    e.Ack? && UpdateBw(s.bbr, e.rs, env).roundStart
  }

  /** One event, as far as waiting for a round is concerned; `starts` says that a round begins. */
  ghost predicate WaitMove(b: Block, e: Event, env: Env, starts: bool, after: Block) {
    var p, q := b.probe, after.probe;
    && (after.nextRttDelivered == b.nextRttDelivered || after.nextRttDelivered == env.delivered)
    && (starts ==> e.Ack? && !Before(e.rs.priorDelivered, b.nextRttDelivered))
    && (In(after) && q.doneStamp != 0 ==>
          if In(b) && p.doneStamp != 0
          then q.doneStamp == p.doneStamp && (q.roundDone <==> p.roundDone || starts)
          else env.inFlight <= CWND_MIN_TARGET && q.doneStamp == U32(env.now + env.probeJiffies)
               && !q.roundDone && after.nextRttDelivered == env.delivered)
    && (In(b) && !In(after) && e.Ack? ==> ProbeRttDone(b, env) && (p.roundDone || starts))
  }

  ghost predicate WaitStep(s: State, e: Event, env: Env, after: Block) {
    WaitMove(s.bbr, e, env, StartsRound(s, e, env), after)
  }

  /** The fields that the wait depends on, up to the step that updates the minimum. */
  lemma EstimatesWait(s: State, rs: Sample, env: Env)
    ensures var b := CheckDrain(UpdateEstimates(s, rs, env), env).bbr;
            && b.probe == s.bbr.probe && (In(b) <==> In(s.bbr))
            && b.roundStart == StartsRound(s, Ack(rs), env)
            && (b.nextRttDelivered == s.bbr.nextRttDelivered || b.nextRttDelivered == env.delivered)
            && (b.roundStart ==> !Before(rs.priorDelivered, s.bbr.nextRttDelivered))
  {
    UpdateBwWait(s.bbr, rs, env);
    var b1 := UpdateBw(s.bbr, rs, env);
    SmallFrames(b1, s.sk.sndCwnd, rs, env);
    var b2 := UpdateAggregation(b1, s.sk.sndCwnd, rs, env);
    SmallFrames(b2, s.sk.sndCwnd, rs, env);
    SmallFrames(UpdateCyclePhase(b2, rs, env), s.sk.sndCwnd, rs, env);
    EstimatesFrame(s, rs, env);
    CheckDrainFrame(UpdateEstimates(s, rs, env), env);
  }

  lemma UpdateBwWait(b: Block, rs: Sample, env: Env)
    ensures var after := UpdateBw(b, rs, env);
            && (after.nextRttDelivered == b.nextRttDelivered || after.nextRttDelivered == env.delivered)
            && (after.roundStart ==> !Before(rs.priorDelivered, b.nextRttDelivered))
  {
    LtSamplingFrame(StartRound(b.(roundStart := false), rs, env), rs.losses, rs.isAppLimited, env);
  }

  /** The step that can set the end of the mode, note the round, or leave. */
  lemma UpdateMinRttWait(s: State, rs: Sample, env: Env)
    ensures var after := UpdateMinRtt(s, rs, env).bbr;
            var p, q := s.bbr.probe, after.probe;
            && (after.nextRttDelivered == s.bbr.nextRttDelivered || after.nextRttDelivered == env.delivered)
            && (In(after) && q.doneStamp != 0 ==>
                  if In(s.bbr) && p.doneStamp != 0
                  then q.doneStamp == p.doneStamp && (q.roundDone <==> p.roundDone || s.bbr.roundStart)
                  else env.inFlight <= CWND_MIN_TARGET && q.doneStamp == U32(env.now + env.probeJiffies)
                       && !q.roundDone && after.nextRttDelivered == env.delivered)
            && (In(s.bbr) && !In(after) ==> ProbeRttDone(s.bbr, env) && (p.roundDone || s.bbr.roundStart))
  {
    var s1 := s.(bbr := TakeMinRtt(s.bbr, rs, FilterExpired(s.bbr, env), env));
    var s2 := if EntersProbeRtt(s.bbr, env) then EnterProbeRtt(s1) else s1;
    if s2.bbr.mode == ProbeRtt {
      StayWait(s2, env);
    }
  }

  lemma StayWait(s: State, env: Env)
    requires In(s.bbr)
    ensures var after := StayInProbeRtt(s, env).bbr;
            var p, q := s.bbr.probe, after.probe;
            && (after.nextRttDelivered == s.bbr.nextRttDelivered || after.nextRttDelivered == env.delivered)
            && (if p.doneStamp == 0
                then In(after) && (q.doneStamp != 0 ==>
                       env.inFlight <= CWND_MIN_TARGET && q.doneStamp == U32(env.now + env.probeJiffies)
                       && !q.roundDone && after.nextRttDelivered == env.delivered)
                else q.doneStamp == p.doneStamp && q.roundDone == (p.roundDone || s.bbr.roundStart))
            && (!In(after) ==> ProbeRttDone(s.bbr, env) && (p.roundDone || s.bbr.roundStart))
  {
    if s.bbr.probe.doneStamp != 0 {
      var limit := U32(env.delivered + env.inFlight);
      var s1 := s.(sk := s.sk.(appLimited := if limit == 0 then 1 else limit));
      var s2 := if s1.bbr.roundStart then s1.(bbr := s1.bbr.(probe := s1.bbr.probe.(roundDone := true))) else s1;
      CheckProbeRttDoneFrame(s2, env);
    }
  }

  lemma AckWait(s: State, rs: Sample, env: Env)
    ensures WaitStep(s, Ack(rs), env, OnAck(s, rs, env).bbr)
  {
    EstimatesWait(s, rs, env);
    UpdateMinRttWait(CheckDrain(UpdateEstimates(s, rs, env), env), rs, env);
    OnAckFrame(s, rs, env);
    OutputsWait(s, rs, env);
  }

  /** The window update may only set the end of the round to what has been delivered now. */
  lemma OutputsWait(s: State, rs: Sample, env: Env)
    ensures var m, after := AfterMinRtt(s, rs, env).bbr.nextRttDelivered, OnAck(s, rs, env).bbr.nextRttDelivered;
            after == m || after == env.delivered
  {
    PacingWait(s, rs, env);
    var s1 := UpdateModel(s, rs, env);
    SetCwndWait(BeforeWindow(s, rs, env), rs.losses, rs.ackedSacked, Bw(s1.bbr), s1.bbr.cwndGain, env);
  }

  lemma PacingWait(s: State, rs: Sample, env: Env)
    ensures BeforeWindow(s, rs, env).bbr.nextRttDelivered == AfterMinRtt(s, rs, env).bbr.nextRttDelivered
  {
    PacedFrame(AfterMinRtt(s, rs, env), env);
  }

  lemma SetCwndWait(s: State, losses: s32, acked: u32, bw: u32, gain: u32, env: Env)
    ensures var after := SetCwnd(s, losses, acked, bw, gain, env).bbr.nextRttDelivered;
            after == s.bbr.nextRttDelivered || after == env.delivered
  {
  }

  lemma IdleWait(s: State, env: Env)
    ensures WaitStep(s, Idle, env, TxStart(s, env).bbr)
  {
    if s.sk.appLimited != 0 {
      var s1 := AtIdle(s, env);
      SetPacingRateFrame(s1, Bw(s1.bbr), BBR_UNIT, env);
      CheckProbeRttDoneFrame(s1, env);
    }
  }

  /** Every event but the entry of a visit, which is an ACK. */
  lemma AnyWait(s: State, e: Event, env: Env)
    ensures WaitStep(s, e, env, Step(s, e, env).bbr) || !In(s.bbr)
    ensures e.Ack? ==> WaitStep(s, e, env, Step(s, e, env).bbr)
  {
    match e
    case Ack(rs) => AckWait(s, rs, env);
    case Idle => IdleWait(s, env);
    case NewState(newState) =>
      LtSamplingFrame(AtLoss(s.bbr), 1, false, env);
    case _ =>
  }

  /** Event `n` is an ACK that begins a round trip. */
  ghost predicate StartsAt(s: State, events: seq<(Event, Env)>, n: int) {
    0 <= n < |events| && StartsRound(At(s, events, n), events[n].0, events[n].1)
  }

  /** At which events a round trip begins. */
  ghost function Starts(s: State, events: seq<(Event, Env)>): (starts: seq<bool>)
    ensures |starts| == |events| && forall k :: 0 <= k < |events| ==> starts[k] == StartsAt(s, events, k)
  {
    seq(|events|, k requires 0 <= k < |events| => StartsAt(s, events, k))
  }

  ghost predicate SeenIn(starts: seq<bool>, m: int, j: nat)
    requires m >= -1 && j <= |starts|
  {
    exists n :: m < n < j && starts[n]
  }

  /** A round trip has begun after event `m` and before state `j`. */
  ghost predicate RoundSeen(s: State, events: seq<(Event, Env)>, m: int, j: nat)
    requires m >= -1 && j <= |events|
  {
    SeenIn(Starts(s, events), m, j)
  }

  /** The blocks of a visit from event `i` to state `j`, and at which of its events a round begins. */
  ghost predicate Waits(bs: seq<Block>, starts: seq<bool>, events: seq<(Event, Env)>, i: nat, j: nat) {
    && i < j <= |events| && |bs| == |events| + 1 && |starts| == |events|
    && !In(bs[i]) && (forall k :: i < k <= j ==> In(bs[k]))
    && (forall k :: i <= k < j ==> WaitMove(bs[k], events[k].0, events[k].1, starts[k], bs[k + 1]))
  }

  /** In state `j`: event `m` set the end of the mode, and a round is noted exactly if one has begun since. */
  ghost predicate Waiting(bs: seq<Block>, starts: seq<bool>, events: seq<(Event, Env)>, i: nat, j: nat, m: int)
    requires i < j <= |events| && |bs| == |events| + 1 && |starts| == |events|
  {
    && DoneSetAt(events, i, j, m, bs[j].probe.doneStamp)
    && bs[m + 1].nextRttDelivered == events[m].1.delivered
    && (bs[j].probe.roundDone <==> SeenIn(starts, m, j))
  }

  lemma {:induction false} DuringWait(bs: seq<Block>, starts: seq<bool>, events: seq<(Event, Env)>,
                                      hz: nat, wait: nat, i: nat, j: nat) returns (m: int)
    requires Clock(events, hz, wait) && Waits(bs, starts, events, i, j)
    ensures bs[j].probe.doneStamp != 0 ==> Waiting(bs, starts, events, i, j, m)
    decreases j
  {
    m := j - 1;
    var env := events[j - 1].1;
    assert WaitMove(bs[j - 1], events[j - 1].0, env, starts[j - 1], bs[j]);
    assert U32(env.now + env.probeJiffies) == env.now + env.probeJiffies;
    if j > i + 1 && bs[j - 1].probe.doneStamp != 0 {
      m := DuringWait(bs, starts, events, hz, wait, i, j - 1);
    }
  }

  lemma WaitStepAt(s: State, events: seq<(Event, Env)>, i: nat, k: nat)
    requires i <= k < |events| && InModeSince(s, events, i, k + 1)
    ensures WaitStep(At(s, events, k), events[k].0, events[k].1, At(s, events, k + 1).bbr)
    ensures In(At(s, events, k + 1).bbr) && (In(At(s, events, k).bbr) <==> k > i)
  {
    assert events[..k + 1][..k] == events[..k];
    AnyWait(At(s, events, k), events[k].0, events[k].1);
    if k == i {
      EntryIsAck(s, events, i);
    }
  }

  lemma EntryIsAck(s: State, events: seq<(Event, Env)>, i: nat)
    requires i < |events| && !In(At(s, events, i).bbr) && In(At(s, events, i + 1).bbr)
    ensures events[i].0.Ack?
  {
    StepAt(s, events, i);
  }

  /**
   For every visit, from event `i` to event `j`: at some event `m` of it at most four packets were in flight, and more
   than 200 ms have passed since; and a round trip has begun since if and only if an ACK ends the visit or the round
   had been noted before.
   */
  lemma ExitSeesRound(s: State, events: seq<(Event, Env)>, hz: nat, wait: nat, i: nat, j: nat) returns (m: int)
    requires Clock(events, hz, wait) && i < j < |events| && InModeSince(s, events, i, j)
    requires !In(At(s, events, j + 1).bbr)
    ensures i <= m < j && events[m].1.inFlight <= CWND_MIN_TARGET
    ensures 5 * (events[j].1.now - events[m].1.now) > hz
    ensures At(s, events, m + 1).bbr.nextRttDelivered == events[m].1.delivered
    ensures RoundSeen(s, events, m, j + 1) <==> events[j].0.Ack? || At(s, events, j).bbr.probe.roundDone
  {
    var bs, starts := Blocks(s, events), Starts(s, events);
    VisitWaits(s, events, i, j);
    m := DuringWait(bs, starts, events, hz, wait, i, j);
    ExitStep(s, events, j);
    AfterIsLater(events[j].1.now, bs[j].probe.doneStamp);
    SeenOneMore(starts, m, j);
  }

  ghost function Blocks(s: State, events: seq<(Event, Env)>): (bs: seq<Block>)
    ensures |bs| == |events| + 1 && forall k :: 0 <= k <= |events| ==> bs[k] == At(s, events, k).bbr
  {
    seq(|events| + 1, k requires 0 <= k <= |events| => At(s, events, k).bbr)
  }

  lemma VisitWaits(s: State, events: seq<(Event, Env)>, i: nat, j: nat)
    requires i < j <= |events| && InModeSince(s, events, i, j)
    ensures Waits(Blocks(s, events), Starts(s, events), events, i, j)
  {
    forall k | i <= k < j
      ensures WaitMove(At(s, events, k).bbr, events[k].0, events[k].1, StartsAt(s, events, k), At(s, events, k + 1).bbr)
    {
      WaitStepAt(s, events, i, k);
    }
  }

  lemma SeenOneMore(starts: seq<bool>, m: nat, j: nat)
    requires m < j < |starts|
    ensures SeenIn(starts, m, j + 1) <==> SeenIn(starts, m, j) || starts[j]
  {
  }

  lemma ExitStep(s: State, events: seq<(Event, Env)>, j: nat)
    requires j < |events| && In(At(s, events, j).bbr) && !In(At(s, events, j + 1).bbr)
    ensures ProbeRttDone(At(s, events, j).bbr, events[j].1)
    ensures events[j].0.Ack? ==> At(s, events, j).bbr.probe.roundDone || StartsAt(s, events, j)
  {
    assert events[..j + 1][..j] == events[..j];
    AnyWait(At(s, events, j), events[j].0, events[j].1);
    StepAt(s, events, j);
  }

  // ---------- a full round trip ----------

  /** The count of delivered packets never falls and stays clear of the sign bit, and samples carry earlier counts. */
  ghost predicate Deliveries(events: seq<(Event, Env)>) {
    && (forall i :: 0 <= i < |events| ==>
          events[i].1.delivered < TWO31 && (events[i].0.Ack? ==> events[i].0.rs.priorDelivered < TWO31))
    && (forall i, j :: 0 <= i <= j < |events| ==> events[i].1.delivered <= events[j].1.delivered)
  }

  lemma DeliveredGoesOn(events: seq<(Event, Env)>, i: nat, j: nat)
    requires Deliveries(events) && i <= j < |events|
    ensures events[i].1.delivered <= events[j].1.delivered < TWO31
  {
  }

  /**
   A value that events either leave alone or set to what has been delivered is never below that of an event that set
   it.
   */
  lemma {:induction false} DeliveredSince(values: seq<u32>, events: seq<(Event, Env)>, m: nat, k: nat)
    requires Deliveries(events) && m < k <= |events| && |values| == |events| + 1
    requires forall n :: 0 <= n < |events| ==> values[n + 1] == values[n] || values[n + 1] == events[n].1.delivered
    requires values[m + 1] == events[m].1.delivered
    ensures events[m].1.delivered <= values[k] <= events[k - 1].1.delivered
    decreases k
  {
    if k > m + 1 {
      DeliveredSince(values, events, m, k - 1);
      assert values[(k - 1) + 1] == values[k - 1] || values[(k - 1) + 1] == events[k - 1].1.delivered;
      DeliveredGoesOn(events, m, k - 1);
      DeliveredGoesOn(events, k - 2, k - 1);
    }
  }

  ghost function RoundEnds(s: State, events: seq<(Event, Env)>): (ends: seq<u32>)
    ensures |ends| == |events| + 1
    ensures forall n :: 0 <= n <= |events| ==> ends[n] == At(s, events, n).bbr.nextRttDelivered
  {
    seq(|events| + 1, n requires 0 <= n <= |events| => At(s, events, n).bbr.nextRttDelivered)
  }

  lemma RoundEndsMove(s: State, events: seq<(Event, Env)>)
    ensures var ends := RoundEnds(s, events);
            forall n :: 0 <= n < |events| ==> ends[n + 1] == ends[n] || ends[n + 1] == events[n].1.delivered
  {
    var ends := RoundEnds(s, events);
    forall n | 0 <= n < |events| ensures ends[n + 1] == ends[n] || ends[n + 1] == events[n].1.delivered {
      RoundEndAt(s, events, n);
    }
  }

  /** The end of the current round is what had been delivered at event `m` or later. */
  lemma RoundEndSince(s: State, events: seq<(Event, Env)>, m: nat, k: nat)
    requires Deliveries(events) && m < k <= |events|
    requires At(s, events, m + 1).bbr.nextRttDelivered == events[m].1.delivered
    ensures events[m].1.delivered <= At(s, events, k).bbr.nextRttDelivered <= events[k - 1].1.delivered
  {
    RoundEndsMove(s, events);
    DeliveredSince(RoundEnds(s, events), events, m, k);
  }

  lemma RoundEndAt(s: State, events: seq<(Event, Env)>, k: nat)
    requires k < |events|
    ensures var p, q := At(s, events, k).bbr.nextRttDelivered, At(s, events, k + 1).bbr.nextRttDelivered;
            q == p || q == events[k].1.delivered
  {
    assert events[..k + 1][..k] == events[..k];
    AnyRoundEnd(At(s, events, k), events[k].0, events[k].1);
  }

  lemma AnyRoundEnd(s: State, e: Event, env: Env)
    ensures var after := Step(s, e, env).bbr.nextRttDelivered;
            after == s.bbr.nextRttDelivered || after == env.delivered
  {
    match e
    case Ack(rs) => AckWait(s, rs, env);
    case Idle => IdleWait(s, env);
    case NewState(newState) => LtSamplingFrame(AtLoss(s.bbr), 1, false, env);
    case _ =>
  }

  lemma NotBefore(x: u32, y: u32)
    requires x < TWO31 && y < TWO31 && !Before(x, y)
    ensures x >= y
  {
  }

  /** A round trip that begins after event `m` acknowledges a packet sent when all of event `m` had been delivered. */
  lemma RoundIsFull(s: State, events: seq<(Event, Env)>, m: nat, n: nat)
    requires Deliveries(events) && m < n < |events| && StartsAt(s, events, n)
    requires At(s, events, m + 1).bbr.nextRttDelivered == events[m].1.delivered
    ensures events[n].0.rs.priorDelivered >= events[m].1.delivered
  {
    RoundEndSince(s, events, m, n);
    StartNotBefore(At(s, events, n), events[n].0, events[n].1);
    DeliveredGoesOn(events, n - 1, n);
    NotBefore(events[n].0.rs.priorDelivered, At(s, events, n).bbr.nextRttDelivered);
  }

  lemma StartNotBefore(s: State, e: Event, env: Env)
    requires StartsRound(s, e, env)
    ensures !Before(e.rs.priorDelivered, s.bbr.nextRttDelivered)
  {
    UpdateBwWait(s.bbr, e.rs, env);
  }

  /**
   A visit that the ACK of event `j` ends: since few packets were in flight at event `m`, a packet sent after all that
   had been delivered by then has been acknowledged.
   */
  lemma AckExitWaitsRound(s: State, events: seq<(Event, Env)>, hz: nat, wait: nat, i: nat, j: nat)
    returns (m: int, n: int)
    requires Clock(events, hz, wait) && Deliveries(events) && i < j < |events| && InModeSince(s, events, i, j)
    requires !In(At(s, events, j + 1).bbr) && events[j].0.Ack?
    ensures i <= m < n <= j && events[m].1.inFlight <= CWND_MIN_TARGET
    ensures 5 * (events[j].1.now - events[m].1.now) > hz
    ensures events[n].0.Ack? && events[n].0.rs.priorDelivered >= events[m].1.delivered
  {
    m := ExitSeesRound(s, events, hz, wait, i, j);
    n :| m < n < j + 1 && Starts(s, events)[n];
    RoundIsFull(s, events, m, n);
  }

  // ---------- a visit without a round trip ----------

  /** An ACK that finds the minimum expired and few packets in flight enters the mode and sets its end at once. */
  lemma EntersAndSets(s: State, rs: Sample, env: Env)
    requires !In(s.bbr) && !s.bbr.idleRestart && FilterExpired(s.bbr, env) && env.inFlight <= CWND_MIN_TARGET
    ensures var after := OnAck(s, rs, env);
            && In(after.bbr) && after.bbr.probe.doneStamp == U32(env.now + env.probeJiffies)
            && !after.bbr.probe.roundDone && after.sk.appLimited != 0
  {
    EstimatesFrame(s, rs, env);
    CheckDrainFrame(UpdateEstimates(s, rs, env), env);
    var s2 := CheckDrain(UpdateEstimates(s, rs, env), env);
    UpdateMinRttEnters(s2, rs, env);
    OnAckFrame(s, rs, env);
    OutputsKeepLimit(s, rs, env);
  }

  lemma UpdateMinRttEnters(s: State, rs: Sample, env: Env)
    requires !In(s.bbr) && !s.bbr.idleRestart && FilterExpired(s.bbr, env) && env.inFlight <= CWND_MIN_TARGET
    ensures var after := UpdateMinRtt(s, rs, env);
            && In(after.bbr) && after.bbr.probe.doneStamp == U32(env.now + env.probeJiffies)
            && !after.bbr.probe.roundDone && after.sk.appLimited != 0
  {
  }

  lemma OutputsKeepLimit(s: State, rs: Sample, env: Env)
    ensures OnAck(s, rs, env).sk.appLimited == AfterMinRtt(s, rs, env).sk.appLimited
  {
    var s1 := UpdateModel(s, rs, env);
    SetPacingRateFrame(s1, Bw(s1.bbr), s1.bbr.pacingGain, env);
    var s2 := SetPacingRate(s1, Bw(s1.bbr), s1.bbr.pacingGain, env);
    SetCwndFrame(s2, rs.losses, rs.ackedSacked, Bw(s1.bbr), s1.bbr.cwndGain, env);
  }

  /** An idle restart leaves the mode exactly when the time is over, and does not look at the round. */
  lemma IdleLeaves(s: State, env: Env)
    requires In(s.bbr) && s.sk.appLimited != 0
    ensures !In(TxStart(s, env).bbr) <==> ProbeRttDone(s.bbr, env)
  {
    var s1 := AtIdle(s, env);
    CheckProbeRttDoneFrame(s1, env);
  }

  /** A clock of 1000 jiffies per second, with nothing in flight. */
  predicate QuietMillis(env: Env, now: u32) {
    env.now == now && env.hz == 1000 && env.probeJiffies == 200 && env.inFlight == 0
  }

  lemma TwoEventsAt(s0: State, events: seq<(Event, Env)>, s1: State, s2: State)
    requires |events| == 2 && s1 == Run(s0, [events[0]]) && s2 == Run(s0, [events[0], events[1]])
    ensures At(s0, events, 0) == s0 && At(s0, events, 1) == s1 && At(s0, events, 2) == s2
  {
    assert events[..0] == [];
    assert events[..1] == [events[0]];
    assert events[..2] == [events[0], events[1]];
  }

  lemma TwoEventVisit(s0: State, events: seq<(Event, Env)>, s1: State, s2: State)
    requires |events| == 2 && At(s0, events, 0) == s0 && At(s0, events, 1) == s1 && At(s0, events, 2) == s2
    requires !In(s0.bbr) && In(s1.bbr) && !In(s2.bbr) && events[1].0.Idle?
    ensures InModeSince(s0, events, 0, 1) && !In(At(s0, events, 2).bbr) && !RoundSeen(s0, events, 0, 2)
  {
  }

  lemma EntryTimes(b: Block, env: Env)
    requires b.probe.minRttStamp == 1 && QuietMillis(env, 10_100)
    ensures FilterExpired(b, env) && U32(env.now + env.probeJiffies) == 10_300
  {
  }

  lemma EntryState(s0: State, rs: Sample, env: Env) returns (s1: State)
    requires !In(s0.bbr) && !s0.bbr.idleRestart && s0.bbr.probe.minRttStamp == 1 && QuietMillis(env, 10_100)
    ensures s1 == Step(s0, Ack(rs), env)
    ensures In(s1.bbr) && s1.sk.appLimited != 0 && s1.bbr.probe.doneStamp == 10_300
  {
    s1 := OnAck(s0, rs, env);
    EntryTimes(s0.bbr, env);
    EntersAndSets(s0, rs, env);
  }

  lemma ExitState(s0: State, first: (Event, Env), s1: State, env: Env) returns (s2: State)
    requires s1 == Run(s0, [first]) && env.now == 10_400
    requires In(s1.bbr) && s1.sk.appLimited != 0 && s1.bbr.probe.doneStamp == 10_300
    ensures s2 == Run(s0, [first, (Idle, env)]) && !In(s2.bbr)
  {
    s2 := TxStart(s1, env);
    RunTwo(s0, first, (Idle, env));
    IdleLeaves(s1, env);
  }

  /**
   A run from a new connection with a visit that lasts no round trip: the ACK at 10.1 s enters the mode with nothing in
   flight, and an idle restart at 10.4 s leaves it.
   */
  lemma IdleExitSkipsRound(sk: Sock, minRttUs: u32, env0: Env, rs: Sample, env1: Env, env2: Env)
    requires QuietMillis(env0, 1) && QuietMillis(env1, 10_100) && QuietMillis(env2, 10_400)
    ensures var s0, events := Init(sk, minRttUs, env0), [(Ack(rs), env1), (Idle, env2)];
            && Clock(events, 1000, 200)
            && InModeSince(s0, events, 0, 1) && !In(At(s0, events, 2).bbr)
            && !RoundSeen(s0, events, 0, 2)
  {
    InitFrame(sk, minRttUs, env0);
    SkipsRound(Init(sk, minRttUs, env0), rs, env1, env2);
  }

  lemma SkipsRound(s0: State, rs: Sample, env1: Env, env2: Env)
    requires !In(s0.bbr) && !s0.bbr.idleRestart && s0.bbr.probe.minRttStamp == 1
    requires QuietMillis(env1, 10_100) && QuietMillis(env2, 10_400)
    ensures var events := [(Ack(rs), env1), (Idle, env2)];
            && Clock(events, 1000, 200)
            && InModeSince(s0, events, 0, 1) && !In(At(s0, events, 2).bbr)
            && !RoundSeen(s0, events, 0, 2)
  {
    var events := [(Ack(rs), env1), (Idle, env2)];
    var s1 := EntryState(s0, rs, env1);
    RunTwo(s0, events[0], events[1]);
    var s2 := ExitState(s0, events[0], s1, env2);
    TwoEventsAt(s0, events, s1, s2);
    TwoEventVisit(s0, events, s1, s2);
  }
}
