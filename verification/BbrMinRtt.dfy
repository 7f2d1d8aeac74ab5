/**
 BBR's filter over round-trip times against the full history of samples: what it is the minimum of, when it may be
 raised, and exactly when it is the minimum over the last ten seconds.
 */
module BbrMinRtt {
  import opened Words
  import opened BbrRates
  import opened Bbr
  import opened BbrFrames
  import opened BbrProbeRtt

  /** The event carries a round-trip sample. */
  predicate Measures(e: Event) {
    e.Ack? && e.rs.rttUs >= 0
  }

  /** Samples fit 32 bits; the field would truncate longer ones. */
  ghost predicate InRange(events: seq<(Event, Env)>) {
    forall i :: 0 <= i < |events| ==> events[i].0.Ack? ==> events[i].0.rs.rttUs < TWO32
  }

  function MinOf(s: State): u32 {
    s.bbr.probe.minRttUs
  }

  /** The sample replaces the estimate. */
  predicate Takes(s: State, e: Event, env: Env) {
    Measures(e) && (e.rs.rttUs < MinOf(s) || (FilterExpired(s.bbr, env) && !e.rs.isAckDelayed))
  }

  /** What one event does to the estimate and to its time stamp. */
  ghost predicate MinStep(s: State, e: Event, env: Env, after: State) {
    && MinOf(after) == (if Takes(s, e, env) then e.rs.rttUs else MinOf(s))
    && after.bbr.probe.minRttStamp
       == (if Takes(s, e, env) || (In(s.bbr) && !In(after.bbr)) then env.now else s.bbr.probe.minRttStamp)
  }

  lemma UpdateMinRttMin(s: State, rs: Sample, env: Env)
    requires rs.rttUs < TWO32
    ensures MinStep(s, Ack(rs), env, UpdateMinRtt(s, rs, env))
  {
    var s1 := s.(bbr := TakeMinRtt(s.bbr, rs, FilterExpired(s.bbr, env), env));
    var s2 := if EntersProbeRtt(s.bbr, env) then EnterProbeRtt(s1) else s1;
    if s2.bbr.mode == ProbeRtt {
      StayFrame(s2, env);
    }
  }

  lemma OnAckMin(s: State, rs: Sample, env: Env)
    requires rs.rttUs < TWO32
    ensures MinStep(s, Ack(rs), env, OnAck(s, rs, env))
  {
    EstimatesFrame(s, rs, env);
    var s1 := UpdateEstimates(s, rs, env);
    CheckDrainFrame(s1, env);
    UpdateMinRttMin(CheckDrain(s1, env), rs, env);
    OnAckFrame(s, rs, env);
  }

  lemma TxStartMin(s: State, env: Env)
    ensures MinStep(s, Idle, env, TxStart(s, env))
  {
    if s.sk.appLimited != 0 {
      var s1 := AtIdle(s, env);
      SetPacingRateFrame(s1, Bw(s1.bbr), BBR_UNIT, env);
      CheckProbeRttDoneFrame(s1, env);
    }
  }

  lemma StepMin(s: State, e: Event, env: Env)
    requires e.Ack? ==> e.rs.rttUs < TWO32
    ensures MinStep(s, e, env, Step(s, e, env))
  {
    match e
    case Ack(rs) => OnAckMin(s, rs, env);
    case Idle => TxStartMin(s, env);
    case NewState(newState) =>
      LtSamplingFrame(AtLoss(s.bbr), 1, false, env);
    case _ =>
  }

  lemma MinStepAt(s: State, events: seq<(Event, Env)>, k: nat)
    requires k < |events| && InRange(events)
    ensures MinStep(At(s, events, k), events[k].0, events[k].1, At(s, events, k + 1))
  {
    assert events[..k + 1][..k] == events[..k];
    StepMin(At(s, events, k), events[k].0, events[k].1);
  }

  // ---------- the history of samples ----------

  function Smallest(samples: seq<int>): int
    requires samples != []
  {
    if |samples| == 1 then samples[0]
    else Min(Smallest(samples[..|samples| - 1]), samples[|samples| - 1])
  }

  lemma {:induction false} SmallestIsMinimum(samples: seq<int>)
    requires samples != []
    ensures Smallest(samples) in samples
    ensures forall x :: x in samples ==> Smallest(samples) <= x
  {
    if |samples| > 1 {
      var init := samples[..|samples| - 1];
      SmallestIsMinimum(init);
      assert samples == init + [samples[|samples| - 1]];
    }
  }

  /**
   The samples that count, the event whose sample made all earlier ones obsolete (-1 if there is none), and the time
   up to which the smallest of them has been confirmed.
   */
  datatype History = History(samples: seq<int>, last: int, stamp: int)

  /** The smallest sample has not been confirmed for more than ten seconds. */
  predicate Stale(stamp: int, env: Env) {
    env.now > stamp + MIN_RTT_WIN_SEC * env.hz
  }

  /** A timely sample above a stale minimum: everything before it is forgotten. */
  predicate Forgets(h: History, e: Event, env: Env)
    requires h.samples != []
  {
    Measures(e) && e.rs.rttUs > Smallest(h.samples) && Stale(h.stamp, env) && !e.rs.isAckDelayed
  }

  /** The samples after event `k`. */
  function NextSamples(h: History, e: Event, env: Env, k: int): History
    requires h.samples != []
  {
    if !Measures(e) then h
    else if Forgets(h, e, env) then History([e.rs.rttUs], k, env.now)
    else
      var confirms := e.rs.rttUs < Smallest(h.samples) || (Stale(h.stamp, env) && !e.rs.isAckDelayed);
      History(h.samples + [e.rs.rttUs], h.last, if confirms then env.now else h.stamp)
  }

  /** The history after a run; leaving PROBE_RTT confirms the minimum too. */
  function HistoryOf(s: State, events: seq<(Event, Env)>): (h: History)
    ensures h.samples != []
  {
    if events == [] then History([MinOf(s)], -1, s.bbr.probe.minRttStamp)
    else
      var k := |events| - 1;
      var h := NextSamples(HistoryOf(s, events[..k]), events[k].0, events[k].1, k);
      if In(Run(s, events[..k]).bbr) && !In(Run(s, events).bbr) then h.(stamp := events[k].1.now) else h
  }

  /** The run starts no earlier than the stamp of its first state. */
  ghost predicate StartsAfter(s: State, events: seq<(Event, Env)>) {
    forall i :: 0 <= i < |events| ==> s.bbr.probe.minRttStamp <= events[i].1.now
  }

  /** The state remembers the smallest sample of the history and its stamp. */
  ghost predicate Remembers(s: State, h: History) {
    h.samples != [] && MinOf(s) == Smallest(h.samples) && s.bbr.probe.minRttStamp == h.stamp
  }

  lemma SmallestAppend(samples: seq<int>, x: int)
    requires samples != []
    ensures Smallest(samples + [x]) == Min(Smallest(samples), x)
  {
    assert (samples + [x])[..|samples|] == samples;
  }

  lemma StepRemembers(s: State, e: Event, env: Env, after: State, h: History, k: int)
    requires Remembers(s, h) && MinStep(s, e, env, after)
    requires h.stamp + MIN_RTT_WIN_SEC * env.hz < TWO31 && env.now < TWO31
    ensures var next := NextSamples(h, e, env, k);
            Remembers(after, if In(s.bbr) && !In(after.bbr) then next.(stamp := env.now) else next)
  {
    AfterIsLater(env.now, h.stamp + MIN_RTT_WIN_SEC * env.hz);
    if Measures(e) {
      SmallestAppend(h.samples, e.rs.rttUs);
    }
  }

  /**
   After any run the estimate is the smallest sample of the history: since the last timely sample above a stale
   minimum.
   */
  lemma {:induction false} EstimateIsMinimum(s: State, events: seq<(Event, Env)>, hz: nat, wait: nat)
    requires Clock(events, hz, wait) && InRange(events) && StartsAfter(s, events)
    ensures Remembers(Run(s, events), HistoryOf(s, events))
    ensures events != [] ==> HistoryOf(s, events).stamp <= events[|events| - 1].1.now
  {
    if events != [] {
      var k := |events| - 1;
      var init := events[..k];
      var (e, env) := events[k];
      EstimateIsMinimum(s, init, hz, wait);
      if k > 0 {
        ClockGoesOn(events, hz, wait, k - 1, k);
      }
      StepMin(Run(s, init), e, env);
      StepRemembers(Run(s, init), e, env, Run(s, events), HistoryOf(s, init), k);
    }
  }

  /** Event `i` carries a sample of `x`. */
  ghost predicate Measured(events: seq<(Event, Env)>, i: int, x: int) {
    0 <= i < |events| && Measures(events[i].0) && events[i].0.rs.rttUs == x
  }

  /**
   The samples of the history are those of the events from `last` on, and the initial estimate if nothing was
   forgotten.
   */
  ghost predicate Lists(s: State, events: seq<(Event, Env)>, h: History) {
    && -1 <= h.last < |events|
    && (h.last >= 0 ==> Measures(events[h.last].0))
    && (forall i, x :: h.last <= i && Measured(events, i, x) ==> x in h.samples)
    && (forall x :: x in h.samples ==>
          (h.last == -1 && x == MinOf(s)) || exists i :: h.last <= i && Measured(events, i, x))
  }

  lemma {:induction false} HistoryLists(s: State, events: seq<(Event, Env)>)
    ensures Lists(s, events, HistoryOf(s, events))
  {
    if events != [] {
      var k := |events| - 1;
      HistoryLists(s, events[..k]);
      var h := HistoryOf(s, events[..k]);
      ListsOneMore(s, events, h, NextSamples(h, events[k].0, events[k].1, k));
    }
  }

  lemma ListsOneMore(s: State, events: seq<(Event, Env)>, h: History, next: History)
    requires events != [] && h.samples != [] && Lists(s, events[..|events| - 1], h)
    requires next == NextSamples(h, events[|events| - 1].0, events[|events| - 1].1, |events| - 1)
    ensures Lists(s, events, next)
  {
    var k := |events| - 1;
    var init := events[..k];
    forall i, x | next.last <= i && Measured(events, i, x) ensures x in next.samples {
      if i < k {
        assert Measured(init, i, x);
      }
    }
    forall x | x in next.samples
      ensures (next.last == -1 && x == MinOf(s)) || exists i :: next.last <= i && Measured(events, i, x)
    {
      if next.last == k || x !in h.samples {
        assert Measured(events, k, x);
      } else if !(h.last == -1 && x == MinOf(s)) {
        var i :| h.last <= i && Measured(init, i, x);
        assert Measured(events, i, x);
      }
    }
  }

  // ---------- ten seconds ----------

  /** Event `i` lies at most ten seconds before the last one. */
  ghost predicate Recent(events: seq<(Event, Env)>, hz: nat, i: int) {
    0 <= i < |events| && events[|events| - 1].1.now - events[i].1.now <= MIN_RTT_WIN_SEC * hz
  }

  /** `m` is the minimum of the samples of the last ten seconds. */
  ghost predicate IsWindowMinimum(events: seq<(Event, Env)>, hz: nat, m: int) {
    && (exists i :: Recent(events, hz, i) && Measured(events, i, m))
    && (forall i, x :: Recent(events, hz, i) && Measured(events, i, x) ==> m <= x)
  }

  /** One of the samples that count was taken in the last ten seconds and equals `m`. */
  ghost predicate Refreshed(events: seq<(Event, Env)>, hz: nat, last: int, m: int) {
    exists i :: last <= i && Recent(events, hz, i) && Measured(events, i, m)
  }

  /** No sample that has been forgotten although it was taken in the last ten seconds is below `m`. */
  ghost predicate ForgottenAbove(events: seq<(Event, Env)>, hz: nat, last: int, m: int) {
    forall i, x :: i < last && Recent(events, hz, i) && Measured(events, i, x) ==> m <= x
  }

  /**
   Exactly when the estimate is the minimum over the last ten seconds: a sample in them has confirmed it, and nothing
   smaller in them was forgotten.
   */
  lemma WindowMinimumIff(s: State, events: seq<(Event, Env)>, hz: nat, wait: nat)
    requires Clock(events, hz, wait) && InRange(events) && StartsAfter(s, events)
    ensures var m, last := MinOf(Run(s, events)), HistoryOf(s, events).last;
            IsWindowMinimum(events, hz, m)
            <==> Refreshed(events, hz, last, m) && ForgottenAbove(events, hz, last, m)
  {
    var h := HistoryOf(s, events);
    EstimateIsMinimum(s, events, hz, wait);
    HistoryLists(s, events);
    SmallestIsMinimum(h.samples);
    WindowIff(s, events, hz, wait, h);
  }

  lemma WindowIff(s: State, events: seq<(Event, Env)>, hz: nat, wait: nat, h: History)
    requires Clock(events, hz, wait) && h.samples != [] && Lists(s, events, h)
    requires Smallest(h.samples) in h.samples && forall x :: x in h.samples ==> Smallest(h.samples) <= x
    ensures var m := Smallest(h.samples);
            IsWindowMinimum(events, hz, m)
            <==> Refreshed(events, hz, h.last, m) && ForgottenAbove(events, hz, h.last, m)
  {
    var m := Smallest(h.samples);
    if IsWindowMinimum(events, hz, m) {
      var i :| Recent(events, hz, i) && Measured(events, i, m);
      if i < h.last {
        var j :| h.last <= j && Measured(events, j, m);
        ClockGoesOn(events, hz, wait, i, j);
        assert Recent(events, hz, j);
      }
    }
  }

  // ---------- raising the estimate ----------

  /** The estimate is higher after event `k` than before. */
  predicate RisesAt(s: State, events: seq<(Event, Env)>, k: nat)
    requires k < |events|
  {
    MinOf(At(s, events, k + 1)) > MinOf(At(s, events, k))
  }

  /** Two rises are more than ten seconds apart, and an exit from PROBE_RTT puts the next rise off by as much. */
  lemma RisesApart(s: State, events: seq<(Event, Env)>, hz: nat, wait: nat, j: nat, k: nat)
    requires Clock(events, hz, wait) && j < k < |events| && InRange(events)
    requires RisesAt(s, events, k)
    requires RisesAt(s, events, j) || (In(At(s, events, j).bbr) && !In(At(s, events, j + 1).bbr))
    ensures events[k].1.now - events[j].1.now > MIN_RTT_WIN_SEC * hz
  {
    MinStepAt(s, events, j);
    MinStepAt(s, events, k);
    ExpiredSince(s, events, hz, wait, j, k);
  }

  // ---------- not the minimum of ten seconds ----------

  /** A clock of 1000 jiffies per second. */
  predicate Millis(env: Env, now: u32) {
    env.now == now && env.hz == 1000 && env.probeJiffies == 200
  }

  lemma PassedOverThenReplaced(s0: State, rs1: Sample, env1: Env, s1: State, rs2: Sample, env2: Env, s2: State)
    requires MinOf(s0) == 10_000 && s0.bbr.probe.minRttStamp == 1000 && !In(s0.bbr)
    requires Millis(env1, 10_100) && rs1.rttUs == 20_000 && MinStep(s0, Ack(rs1), env1, s1)
    requires Millis(env2, 11_100) && rs2.rttUs == 30_000 && !rs2.isAckDelayed && MinStep(s1, Ack(rs2), env2, s2)
    ensures MinOf(s2) == 30_000
  {
  }

  lemma TwoSamples(s0: State, rs1: Sample, env1: Env, rs2: Sample, env2: Env)
    requires s0.bbr.probe.minRttStamp == 1000 && Millis(env1, 10_100) && Millis(env2, 11_100)
    requires rs1.rttUs == 20_000 && rs2.rttUs == 30_000
    ensures var events := [(Ack(rs1), env1), (Ack(rs2), env2)];
            && Clock(events, 1000, 200) && InRange(events) && StartsAfter(s0, events)
            && !IsWindowMinimum(events, 1000, 30_000)
  {
    var events := [(Ack(rs1), env1), (Ack(rs2), env2)];
    assert Recent(events, 1000, 0) && Measured(events, 0, 20_000);
  }

  /**
   A run from a new connection whose estimate is not the minimum over the last ten seconds: 10 ms stand since second
   1, a sample of 20 ms at 10.1 s is passed over, and one of 30 ms at 11.1 s replaces the stale 10 ms.
   */
  lemma NotASlidingMinimum(sk: Sock, env0: Env, rs1: Sample, env1: Env, rs2: Sample, env2: Env)
    requires Millis(env0, 1000) && Millis(env1, 10_100) && Millis(env2, 11_100)
    requires rs1.rttUs == 20_000 && rs2.rttUs == 30_000 && !rs2.isAckDelayed
    ensures var s0, events := Init(sk, 10_000, env0), [(Ack(rs1), env1), (Ack(rs2), env2)];
            && Clock(events, 1000, 200) && InRange(events) && StartsAfter(s0, events)
            && !IsWindowMinimum(events, 1000, MinOf(Run(s0, events)))
  {
    var s0, events := Init(sk, 10_000, env0), [(Ack(rs1), env1), (Ack(rs2), env2)];
    InitFrame(sk, 10_000, env0);
    var s1 := Step(s0, Ack(rs1), env1);
    StepMin(s0, Ack(rs1), env1);
    StepMin(s1, Ack(rs2), env2);
    PassedOverThenReplaced(s0, rs1, env1, s1, rs2, env2, Step(s1, Ack(rs2), env2));
    RunTwo(s0, events[0], events[1]);
    TwoSamples(s0, rs1, env1, rs2, env2);
  }
}
