/**
 Every visit to PROBE_RTT, over any interleaving of ACKs, losses, idle restarts and kernel actions:
 how it begins, what it waits for, what it restores, and when the next one may begin.
 */
module BbrProbeRtt {
  import opened Words
  import opened BbrRates
  import opened Bbr
  import opened BbrFrames

  predicate In(b: Block) {
    b.mode == ProbeRtt
  }

  /** The window right after the step that leaves the mode, before the same ACK goes on to the usual window update. */
  function RestoredCwnd(s: State, e: Event, env: Env): u32 {
    match e
    case Ack(rs) => AfterMinRtt(s, rs, env).sk.sndCwnd
    case _ => Step(s, e, env).sk.sndCwnd
  }

  /** The end of the mode is set, now, because few packets are in flight. */
  ghost predicate SetsDone(before: u32, after: u32, env: Env) {
    after == before || (before == 0 && env.inFlight <= CWND_MIN_TARGET && after == U32(env.now + env.probeJiffies))
  }

  /** One event, as far as PROBE_RTT is concerned. */
  ghost predicate VisitStep(s: State, e: Event, env: Env, after: Block) {
    var p, q := s.bbr.probe, after.probe;
    && (q.minRttStamp == p.minRttStamp || q.minRttStamp == env.now)
    && (In(s.bbr) && In(after) ==> q.priorCwnd >= p.priorCwnd && SetsDone(p.doneStamp, q.doneStamp, env))
    && (!In(s.bbr) && In(after) ==>
          e.Ack? && FilterExpired(s.bbr, env) && q.priorCwnd >= s.sk.sndCwnd && SetsDone(0, q.doneStamp, env))
    && (In(s.bbr) && !In(after) ==>
          ProbeRttDone(s.bbr, env) && q.minRttStamp == env.now)
  }

  /** `cwnd` is the window after a step that leaves the mode. */
  ghost predicate Restores(s: State, cwnd: u32, after: Block) {
    In(s.bbr) && !In(after) ==> cwnd == Max(s.sk.sndCwnd, s.bbr.probe.priorCwnd)
  }

  lemma MinRttVisit(s: State, rs: Sample, env: Env)
    ensures var after := UpdateMinRtt(s, rs, env);
            VisitStep(s, Ack(rs), env, after.bbr) && Restores(s, after.sk.sndCwnd, after.bbr)
  {
    var s1 := s.(bbr := TakeMinRtt(s.bbr, rs, FilterExpired(s.bbr, env), env));
    var s2 := if EntersProbeRtt(s.bbr, env) then EnterProbeRtt(s1) else s1;
    if s2.bbr.mode == ProbeRtt {
      StayFrame(s2, env);
    }
  }

  lemma AckVisit(s: State, rs: Sample, env: Env)
    ensures VisitStep(s, Ack(rs), env, OnAck(s, rs, env).bbr)
    ensures Restores(s, AfterMinRtt(s, rs, env).sk.sndCwnd, OnAck(s, rs, env).bbr)
    ensures In(OnAck(s, rs, env).bbr) ==> OnAck(s, rs, env).sk.sndCwnd <= CWND_MIN_TARGET
  {
    EstimatesFrame(s, rs, env);
    var s1 := UpdateEstimates(s, rs, env);
    CheckDrainFrame(s1, env);
    MinRttVisit(CheckDrain(s1, env), rs, env);
    OnAckFrame(s, rs, env);
  }

  lemma IdleVisit(s: State, env: Env)
    ensures VisitStep(s, Idle, env, TxStart(s, env).bbr)
    ensures Restores(s, TxStart(s, env).sk.sndCwnd, TxStart(s, env).bbr)
  {
    if s.sk.appLimited != 0 {
      var s1 := AtIdle(s, env);
      SetPacingRateFrame(s1, Bw(s1.bbr), BBR_UNIT, env);
      CheckProbeRttDoneFrame(s1, env);
    }
  }

  lemma AnyVisit(s: State, e: Event, env: Env)
    ensures VisitStep(s, e, env, Step(s, e, env).bbr)
    ensures Restores(s, RestoredCwnd(s, e, env), Step(s, e, env).bbr)
  {
    match e
    case Ack(rs) => AckVisit(s, rs, env);
    case Idle => IdleVisit(s, env);
    case NewState(newState) =>
      LtSamplingFrame(AtLoss(s.bbr), 1, false, env);
    case _ =>
  }

  /** After every ACK that ends in the mode the window is at most four packets. */
  lemma SmallWindowInMode(s: State, rs: Sample, env: Env)
    ensures In(OnAck(s, rs, env).bbr) ==> OnAck(s, rs, env).sk.sndCwnd <= CWND_MIN_TARGET
  {
    AckVisit(s, rs, env);
  }

  // ---------- a clock that does not wrap ----------

  /**
   The jiffies clock starts after zero, never goes back and stays clear of the sign bit; 200 ms are rounded up to
   `wait` jiffies.
   */
  ghost predicate Clock(events: seq<(Event, Env)>, hz: nat, wait: nat) {
    && 0 < hz && hz <= 5 * wait
    && (forall i :: 0 <= i < |events| ==>
          && events[i].1.hz == hz && events[i].1.probeJiffies == wait
          && 0 < events[i].1.now && events[i].1.now + 10 * hz + wait < TWO31)
    && (forall i, j :: 0 <= i <= j < |events| ==> events[i].1.now <= events[j].1.now)
  }

  lemma AfterIsLater(x: u32, y: u32)
    requires x < TWO31 && y < TWO31
    ensures After(x, y) <==> x > y
  {
  }

  function At(s: State, events: seq<(Event, Env)>, k: nat): State
    requires k <= |events|
  {
    Run(s, events[..k])
  }

  lemma StepAt(s: State, events: seq<(Event, Env)>, k: nat)
    requires k < |events|
    ensures VisitStep(At(s, events, k), events[k].0, events[k].1, At(s, events, k + 1).bbr)
  {
    assert events[..k + 1][..k] == events[..k];
    AnyVisit(At(s, events, k), events[k].0, events[k].1);
  }

  lemma ExitAt(s: State, events: seq<(Event, Env)>, k: nat)
    requires k < |events|
    ensures Restores(At(s, events, k), RestoredCwnd(At(s, events, k), events[k].0, events[k].1),
                     At(s, events, k + 1).bbr)
  {
    assert events[..k + 1][..k] == events[..k];
    AnyVisit(At(s, events, k), events[k].0, events[k].1);
  }

  // ---------- one visit ----------

  /** Event `i` enters the mode, and the mode lasts up to state `j`. */
  ghost predicate InModeSince(s: State, events: seq<(Event, Env)>, i: nat, j: nat)
    requires i < j <= |events|
  {
    !In(At(s, events, i).bbr) && forall k :: i < k <= j ==> In(At(s, events, k).bbr)
  }

  /** Few packets were in flight at event `m` of the visit, and that set the time of its end. */
  ghost predicate DoneSetAt(events: seq<(Event, Env)>, i: nat, j: nat, m: int, doneStamp: u32)
    requires i < j <= |events|
  {
    && i <= m < j && events[m].1.inFlight <= CWND_MIN_TARGET
    && doneStamp == events[m].1.now + events[m].1.probeJiffies
  }

  /** Inside a visit the saved window covers the one at entry, and a set end time has a cause. */
  lemma {:induction false} DuringVisit(s: State, events: seq<(Event, Env)>, hz: nat, wait: nat, i: nat, j: nat)
    returns (m: int)
    requires Clock(events, hz, wait) && i < j <= |events| && InModeSince(s, events, i, j)
    ensures var p := At(s, events, j).bbr.probe;
            && p.priorCwnd >= At(s, events, i).sk.sndCwnd
            && (p.doneStamp != 0 ==> DoneSetAt(events, i, j, m, p.doneStamp))
    decreases j
  {
    m := i;
    StepAt(s, events, j - 1);
    var before, env, after := At(s, events, j - 1), events[j - 1].1, At(s, events, j).bbr;
    InModeMoves(before, events[j - 1].0, env, after);
    assert U32(env.now + env.probeJiffies) == env.now + env.probeJiffies;
    if j > i + 1 {
      assert In(before.bbr);
      m := DuringVisit(s, events, hz, wait, i, j - 1);
      if before.bbr.probe.doneStamp == 0 {
        m := j - 1;
      }
    }
  }

  lemma InModeMoves(s: State, e: Event, env: Env, after: Block)
    requires VisitStep(s, e, env, after) && In(after)
    ensures In(s.bbr) ==> after.probe.priorCwnd >= s.bbr.probe.priorCwnd
    ensures !In(s.bbr) ==> after.probe.priorCwnd >= s.sk.sndCwnd
    ensures SetsDone(if In(s.bbr) then s.bbr.probe.doneStamp else 0, after.probe.doneStamp, env)
  {
  }

  /**
   A visit that begins with event `i` and ends with event `j` ends only after, at some event of the visit,
   at most four packets were in flight, and more than 200 ms later than that; and the step
   that leaves restores at least the window that the flow had on entry.
   */
  lemma Visit(s: State, events: seq<(Event, Env)>, hz: nat, wait: nat, i: nat, j: nat) returns (m: int)
    requires Clock(events, hz, wait) && i < j < |events| && InModeSince(s, events, i, j)
    requires !In(At(s, events, j + 1).bbr)
    ensures i <= m < j && events[m].1.inFlight <= CWND_MIN_TARGET
    ensures 5 * (events[j].1.now - events[m].1.now) > hz
    ensures RestoredCwnd(At(s, events, j), events[j].0, events[j].1) >= At(s, events, i).sk.sndCwnd
  {
    m := DuringVisit(s, events, hz, wait, i, j);
    StepAt(s, events, j);
    ExitAt(s, events, j);
    AfterIsLater(events[j].1.now, At(s, events, j).bbr.probe.doneStamp);
  }

  // ---------- between visits ----------

  lemma StampAt(s: State, events: seq<(Event, Env)>, k: nat)
    requires k < |events|
    ensures var p, q := At(s, events, k).bbr, At(s, events, k + 1).bbr;
            && (q.probe.minRttStamp == p.probe.minRttStamp || q.probe.minRttStamp == events[k].1.now)
            && (In(p) && !In(q) ==> q.probe.minRttStamp == events[k].1.now)
  {
    StepAt(s, events, k);
  }

  lemma ClockGoesOn(events: seq<(Event, Env)>, hz: nat, wait: nat, i: nat, j: nat)
    requires Clock(events, hz, wait) && i <= j < |events|
    ensures events[i].1.now <= events[j].1.now
  {
  }

  /**
   A value that events either leave alone or set to the time is never older than an event that set it, nor in the
   future.
   */
  lemma {:induction false} ValueSince(values: seq<u32>, events: seq<(Event, Env)>, hz: nat, wait: nat, j: nat, k: nat)
    requires Clock(events, hz, wait) && j < k <= |events| && |values| == |events| + 1
    requires forall n :: 0 <= n < |events| ==> values[n + 1] == values[n] || values[n + 1] == events[n].1.now
    requires values[j + 1] == events[j].1.now
    ensures events[j].1.now <= values[k] <= events[k - 1].1.now
    decreases k
  {
    if k > j + 1 {
      ValueSince(values, events, hz, wait, j, k - 1);
      assert values[(k - 1) + 1] == values[k - 1] || values[(k - 1) + 1] == events[k - 1].1.now;
      ClockGoesOn(events, hz, wait, j, k - 1);
      ClockGoesOn(events, hz, wait, k - 2, k - 1);
    }
  }

  ghost function Stamps(s: State, events: seq<(Event, Env)>): (stamps: seq<u32>)
    ensures |stamps| == |events| + 1
    ensures forall n :: 0 <= n <= |events| ==> stamps[n] == At(s, events, n).bbr.probe.minRttStamp
  {
    seq(|events| + 1, n requires 0 <= n <= |events| => At(s, events, n).bbr.probe.minRttStamp)
  }

  /** The time stamp of the minimum is never older than an event that set it, nor newer than the clock. */
  lemma StampSince(s: State, events: seq<(Event, Env)>, hz: nat, wait: nat, j: nat, k: nat)
    requires Clock(events, hz, wait) && j < k <= |events|
    requires At(s, events, j + 1).bbr.probe.minRttStamp == events[j].1.now
    ensures events[j].1.now <= At(s, events, k).bbr.probe.minRttStamp <= events[k - 1].1.now
  {
    var stamps := Stamps(s, events);
    StampsMove(s, events);
    ValueSince(stamps, events, hz, wait, j, k);
  }

  lemma StampsMove(s: State, events: seq<(Event, Env)>)
    ensures var stamps := Stamps(s, events);
            forall n :: 0 <= n < |events| ==> stamps[n + 1] == stamps[n] || stamps[n + 1] == events[n].1.now
  {
    var stamps := Stamps(s, events);
    forall n | 0 <= n < |events| ensures stamps[n + 1] == stamps[n] || stamps[n + 1] == events[n].1.now {
      StampAt(s, events, n);
    }
  }

  /** An expired stamp means that more than ten seconds have passed since any event that set it. */
  lemma ExpiredSince(s: State, events: seq<(Event, Env)>, hz: nat, wait: nat, j: nat, k: nat)
    requires Clock(events, hz, wait) && j < k < |events|
    requires At(s, events, j + 1).bbr.probe.minRttStamp == events[j].1.now
    ensures FilterExpired(At(s, events, k).bbr, events[k].1) ==> events[k].1.now - events[j].1.now > 10 * hz
  {
    StampSince(s, events, hz, wait, j, k);
    var stamp := At(s, events, k).bbr.probe.minRttStamp;
    assert stamp <= events[k].1.now;
    AfterIsLater(events[k].1.now, stamp + 10 * hz);
  }

  /** The next entry is more than ten seconds after the last exit. */
  lemma TenSecondsApart(s: State, events: seq<(Event, Env)>, hz: nat, wait: nat, j: nat, k: nat)
    requires Clock(events, hz, wait) && j < k < |events|
    requires In(At(s, events, j).bbr) && !In(At(s, events, j + 1).bbr)
    requires !In(At(s, events, k).bbr) && In(At(s, events, k + 1).bbr)
    ensures events[k].1.now - events[j].1.now > 10 * hz
  {
    StampAt(s, events, j);
    ExpiredSince(s, events, hz, wait, j, k);
    StepAt(s, events, k);
  }
}
