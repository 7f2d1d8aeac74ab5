/**
 The window that BBR saves and gives back: over any run, exactly when leaving a loss recovery restores at least the
 window that the flow had when it was entered.
 */
module BbrRecovery {
  import opened Words
  import opened BbrRates
  import opened Bbr
  import opened BbrFrames
  import opened BbrProbeRtt

  /** What an event does to the saved window: leave it, raise it to the present window, or replace it by that. */
  datatype Save = Leave | Raise(cwnd: u32) | Replace(cwnd: u32)

  /**
   Entry to recovery saves the window, outright while no window is being cut; entry to PROBE_RTT raises the saved one.
   */
  function SaveOf(s: State, e: Event, env: Env): Save {
    if e.Ssthresh? then
      if s.bbr.prevCaState < TCP_CA_RECOVERY && !In(s.bbr) then Replace(s.sk.sndCwnd) else Raise(s.sk.sndCwnd)
    else if !In(s.bbr) && In(Step(s, e, env).bbr) then Raise(s.sk.sndCwnd)
    else Leave
  }

  function Apply(prior: u32, save: Save): u32 {
    match save
    case Leave => prior
    case Raise(cwnd) => Max(prior, cwnd)
    case Replace(cwnd) => cwnd
  }

  lemma UpdateMinRttPrior(s: State, rs: Sample, env: Env)
    ensures var after := UpdateMinRtt(s, rs, env).bbr;
            after.probe.priorCwnd
            == if !In(s.bbr) && In(after) then Max(s.bbr.probe.priorCwnd, s.sk.sndCwnd) else s.bbr.probe.priorCwnd
  {
    var s1 := s.(bbr := TakeMinRtt(s.bbr, rs, FilterExpired(s.bbr, env), env));
    var s2 := if EntersProbeRtt(s.bbr, env) then EnterProbeRtt(s1) else s1;
    if s2.bbr.mode == ProbeRtt {
      StayFrame(s2, env);
    }
  }

  /** The saved window after the steps that can change the mode. */
  lemma ModelPrior(s: State, rs: Sample, env: Env)
    ensures var b := AfterMinRtt(s, rs, env).bbr;
            && b.prevCaState == s.bbr.prevCaState
            && b.probe.priorCwnd
               == if !In(s.bbr) && In(b) then Max(s.bbr.probe.priorCwnd, s.sk.sndCwnd) else s.bbr.probe.priorCwnd
  {
    EstimatesFrame(s, rs, env);
    CheckDrainFrame(UpdateEstimates(s, rs, env), env);
    var s2 := CheckDrain(UpdateEstimates(s, rs, env), env);
    UpdateMinRttPrior(s2, rs, env);
    UpdateMinRttFrame(s2, rs, env);
  }

  lemma BeforeWindowPrior(s: State, rs: Sample, env: Env)
    ensures var b := BeforeWindow(s, rs, env).bbr;
            && b.prevCaState == s.bbr.prevCaState && (In(b) <==> In(OnAck(s, rs, env).bbr))
            && b.probe.priorCwnd == OnAck(s, rs, env).bbr.probe.priorCwnd
            && b.probe.priorCwnd == Apply(s.bbr.probe.priorCwnd, SaveOf(s, Ack(rs), env))
  {
    ModelPrior(s, rs, env);
    PacedFrame(AfterMinRtt(s, rs, env), env);
    OnAckFrame(s, rs, env);
  }

  lemma TxStartPrior(s: State, env: Env)
    ensures TxStart(s, env).bbr.probe.priorCwnd == Apply(s.bbr.probe.priorCwnd, SaveOf(s, Idle, env))
  {
    if s.sk.appLimited != 0 {
      var s1 := AtIdle(s, env);
      SetPacingRateFrame(s1, Bw(s1.bbr), BBR_UNIT, env);
      CheckProbeRttDoneFrame(s1, env);
    }
  }

  lemma StepPrior(s: State, e: Event, env: Env)
    ensures Step(s, e, env).bbr.probe.priorCwnd == Apply(s.bbr.probe.priorCwnd, SaveOf(s, e, env))
  {
    match e
    case Ack(rs) => BeforeWindowPrior(s, rs, env);
    case Idle => TxStartPrior(s, env);
    case NewState(newState) =>
      LtSamplingFrame(AtLoss(s.bbr), 1, false, env);
    case _ =>
  }

  // ---------- over runs ----------

  function SavesOf(s: State, events: seq<(Event, Env)>): (saves: seq<Save>)
    ensures |saves| == |events|
  {
    if events == [] then []
    else
      var k := |events| - 1;
      SavesOf(s, events[..k]) + [SaveOf(Run(s, events[..k]), events[k].0, events[k].1)]
  }

  function Saved(prior: u32, saves: seq<Save>): u32 {
    if saves == [] then prior else Apply(Saved(prior, saves[..|saves| - 1]), saves[|saves| - 1])
  }

  lemma {:induction false} RunPrior(s: State, events: seq<(Event, Env)>)
    ensures Run(s, events).bbr.probe.priorCwnd == Saved(s.bbr.probe.priorCwnd, SavesOf(s, events))
  {
    if events != [] {
      var k := |events| - 1;
      RunPrior(s, events[..k]);
      StepPrior(Run(s, events[..k]), events[k].0, events[k].1);
      assert SavesOf(s, events)[..k] == SavesOf(s, events[..k]);
    }
  }

  /** A window of at least `w` was saved by event `n` and has not been replaced since. */
  ghost predicate Stands(saves: seq<Save>, n: int, w: nat) {
    && 0 <= n < |saves| && !saves[n].Leave? && saves[n].cwnd >= w
    && (forall r :: n < r < |saves| ==> !saves[r].Replace?)
  }

  /** Some save since event `i`, of a window of at least `w`, stands. */
  ghost predicate Standing(saves: seq<Save>, i: nat, w: nat) {
    exists n :: i <= n && Stands(saves, n, w)
  }

  /** After a save of `w`, the saved window covers `w` exactly if some save since then stands. */
  lemma {:induction false} SavedCovers(prior: u32, saves: seq<Save>, i: nat, w: nat)
    requires i < |saves| && !saves[i].Leave? && saves[i].cwnd == w
    ensures Saved(prior, saves) >= w <==> Standing(saves, i, w)
    decreases |saves|
  {
    var k := |saves| - 1;
    var init := saves[..k];
    if i == k {
      assert Stands(saves, k, w);
    } else {
      SavedCovers(prior, init, i, w);
      StandsOneMore(saves, i, w);
    }
  }

  lemma StandsOneMore(saves: seq<Save>, i: nat, w: nat)
    requires i < |saves| - 1
    ensures var k := |saves| - 1;
            Standing(saves, i, w)
            <==> (!saves[k].Leave? && saves[k].cwnd >= w) || (!saves[k].Replace? && Standing(saves[..k], i, w))
  {
    var k := |saves| - 1;
    var init := saves[..k];
    if n :| i <= n && Stands(saves, n, w) {
      if n < k {
        assert Stands(init, n, w);
      }
    }
    if !saves[k].Leave? && saves[k].cwnd >= w {
      assert Stands(saves, k, w);
    } else if !saves[k].Replace? {
      if n :| i <= n && Stands(init, n, w) {
        assert Stands(saves, n, w);
      }
    }
  }

  // ---------- leaving recovery ----------

  /** This ACK is the first after the recovery. */
  predicate LeavesRecovery(s: State, rs: Sample, env: Env) {
    s.bbr.prevCaState >= TCP_CA_RECOVERY && env.caState < TCP_CA_RECOVERY && rs.ackedSacked > 0
  }

  /** The present window less the losses of the ACK, at least one. */
  function CutWindow(cwnd: u32, losses: s32): u32 {
    if losses > 0 then Max(S32(cwnd - losses), 1) else cwnd
  }

  /** The window that the ACK continues from. */
  function Restored(s: State, rs: Sample, env: Env): u32 {
    RecoverOrRestore(BeforeWindow(s, rs, env), rs.losses, rs.ackedSacked, env).1
  }

  lemma RestoredIs(s: State, rs: Sample, env: Env)
    requires LeavesRecovery(s, rs, env)
    ensures Restored(s, rs, env)
            == Max(CutWindow(BeforeWindow(s, rs, env).sk.sndCwnd, rs.losses), OnAck(s, rs, env).bbr.probe.priorCwnd)
  {
    BeforeWindowPrior(s, rs, env);
    RestoreIs(BeforeWindow(s, rs, env), rs.losses, rs.ackedSacked, env);
  }

  lemma RestoreIs(s: State, losses: s32, acked: u32, env: Env)
    requires s.bbr.prevCaState >= TCP_CA_RECOVERY && env.caState < TCP_CA_RECOVERY
    ensures RecoverOrRestore(s, losses, acked, env).1 == Max(CutWindow(s.sk.sndCwnd, losses), s.bbr.probe.priorCwnd)
  {
  }

  /** Event `i` enters recovery, or another reduction, and event `j` is the ACK that leaves it. */
  ghost predicate Recovery(s: State, events: seq<(Event, Env)>, i: nat, j: nat) {
    && i < j < |events| && events[i].0.Ssthresh? && events[j].0.Ack?
    && LeavesRecovery(At(s, events, j), events[j].0.rs, events[j].1)
  }

  /** The saved window after event `j`, from the saves up to it. */
  lemma PriorAfter(s: State, events: seq<(Event, Env)>, i: nat, j: nat)
    requires i <= j < |events| && events[i].0.Ssthresh? && events[j].0.Ack?
    ensures var w := At(s, events, i).sk.sndCwnd;
            OnAck(At(s, events, j), events[j].0.rs, events[j].1).bbr.probe.priorCwnd >= w
            <==> Standing(SavesOf(s, events[..j + 1]), i, w)
  {
    var upTo := events[..j + 1];
    assert upTo[..j] == events[..j] && upTo[..i] == events[..i];
    RunPrior(s, upTo);
    EntrySaves(s, upTo, i);
    SavedCovers(s.bbr.probe.priorCwnd, SavesOf(s, upTo), i, At(s, events, i).sk.sndCwnd);
  }

  lemma EntrySaves(s: State, events: seq<(Event, Env)>, i: nat)
    requires i < |events| && events[i].0.Ssthresh?
    ensures var save := SavesOf(s, events)[i];
            !save.Leave? && save.cwnd == At(s, events, i).sk.sndCwnd
  {
    SaveAt(s, events, i);
  }

  lemma {:induction false} SavesPrefix(s: State, events: seq<(Event, Env)>, n: nat)
    requires n <= |events|
    ensures SavesOf(s, events[..n]) == SavesOf(s, events)[..n]
    decreases |events|
  {
    if n == |events| {
      assert events[..n] == events;
    } else {
      var init := events[..|events| - 1];
      SavesPrefix(s, init, n);
      assert init[..n] == events[..n];
    }
  }

  lemma SaveAt(s: State, events: seq<(Event, Env)>, i: nat)
    requires i < |events|
    ensures SavesOf(s, events)[i] == SaveOf(Run(s, events[..i]), events[i].0, events[i].1)
  {
    SavesPrefix(s, events, i + 1);
    assert events[..i + 1][..i] == events[..i];
  }

  /**
   Exactly when the window at entry is covered by the one restored: the window is not smaller anyway, or some
   save from the entry on, of a window at least as large, has not been replaced.
   */
  lemma RecoveryRestores(s: State, events: seq<(Event, Env)>, i: nat, j: nat)
    requires Recovery(s, events, i, j)
    ensures var w, last := At(s, events, i).sk.sndCwnd, At(s, events, j);
            var (e, env) := events[j];
            Restored(last, e.rs, env) >= w
            <==> CutWindow(BeforeWindow(last, e.rs, env).sk.sndCwnd, e.rs.losses) >= w
                 || Standing(SavesOf(s, events[..j + 1]), i, w)
  {
    RestoredIs(At(s, events, j), events[j].0.rs, events[j].1);
    PriorAfter(s, events, i, j);
  }

  ghost predicate NotReplaced(saves: seq<Save>, i: nat, j: nat)
    requires j < |saves|
  {
    forall r :: i < r < j ==> !saves[r].Replace?
  }

  /** So the window at entry is covered whenever no later entry has replaced the save, in PROBE_RTT or out of it. */
  lemma RecoveryRestoresEntry(s: State, events: seq<(Event, Env)>, i: nat, j: nat)
    requires Recovery(s, events, i, j)
    requires NotReplaced(SavesOf(s, events[..j + 1]), i, j)
    ensures Restored(At(s, events, j), events[j].0.rs, events[j].1) >= At(s, events, i).sk.sndCwnd
  {
    RecoveryRestores(s, events, i, j);
    var upTo := events[..j + 1];
    EntrySaves(s, upTo, i);
    SaveAt(s, upTo, j);
    assert upTo[..i] == events[..i] && upTo[..j] == events[..j];
    assert Stands(SavesOf(s, upTo), i, At(s, events, i).sk.sndCwnd);
  }

  /**
   Outside PROBE_RTT the ACK that leaves recovery keeps the restored window, up to the clamp and, once the pipe is
   full, the target.
   */
  lemma RestoredIsKept(s: State, losses: s32, acked: u32, bw: u32, gain: u32, env: Env)
    requires s.bbr.prevCaState >= TCP_CA_RECOVERY && env.caState < TCP_CA_RECOVERY && acked > 0 && !In(s.bbr)
    requires RecoverOrRestore(s, losses, acked, env).1 + acked < TWO32
    ensures var (b, restored, _) := RecoverOrRestore(s, losses, acked, env);
            var kept := SetCwnd(s, losses, acked, bw, gain, env).sk.sndCwnd;
            kept >= Min(env.sndCwndClamp,
                        if b.pipe.reached then Min(restored, TargetCwnd(b, bw, gain, env)) else restored)
  {
  }

  /** The target that the window update of this ACK aims at. */
  function TargetAt(s: State, rs: Sample, env: Env): u32 {
    var s1, before := UpdateModel(s, rs, env), BeforeWindow(s, rs, env);
    TargetCwnd(RecoverOrRestore(before, rs.losses, rs.ackedSacked, env).0, Bw(s1.bbr), s1.bbr.cwndGain, env)
  }

  /**
   What the ACK that leaves recovery sets the window to, outside PROBE_RTT: what is restored, as clamp and target
   allow.
   */
  lemma OnAckKeepsRestored(s: State, rs: Sample, env: Env, w: nat)
    requires LeavesRecovery(s, rs, env) && !In(OnAck(s, rs, env).bbr)
    requires w <= Restored(s, rs, env) < TWO32 - rs.ackedSacked
    ensures var after := OnAck(s, rs, env);
            after.sk.sndCwnd >= Min(env.sndCwndClamp,
                                    if after.bbr.pipe.reached then Min(w, TargetAt(s, rs, env)) else w)
  {
    BeforeWindowPrior(s, rs, env);
    var s1, before := UpdateModel(s, rs, env), BeforeWindow(s, rs, env);
    RestoredIsKept(before, rs.losses, rs.ackedSacked, Bw(s1.bbr), s1.bbr.cwndGain, env);
    RecoverKeepsPipe(before, rs.losses, rs.ackedSacked, Bw(s1.bbr), s1.bbr.cwndGain, env);
  }

  lemma RecoverKeepsPipe(s: State, losses: s32, acked: u32, bw: u32, gain: u32, env: Env)
    ensures RecoverOrRestore(s, losses, acked, env).0.pipe == s.bbr.pipe
    ensures SetCwnd(s, losses, acked, bw, gain, env).bbr.pipe == s.bbr.pipe
  {
  }

  /**
   From the entry to a reduction to the ACK that leaves recovery, outside PROBE_RTT: when no later entry has replaced
   the save, snd_cwnd is at least what it was at entry, as far as the clamp and, once the pipe is full, the target
   allow.
   */
  lemma WindowAfterRecovery(s: State, events: seq<(Event, Env)>, i: nat, j: nat)
    requires Recovery(s, events, i, j) && NotReplaced(SavesOf(s, events[..j + 1]), i, j)
    requires !In(At(s, events, j + 1).bbr)
    requires Restored(At(s, events, j), events[j].0.rs, events[j].1) + events[j].0.rs.ackedSacked < TWO32
    ensures var w, last, after := At(s, events, i).sk.sndCwnd, At(s, events, j), At(s, events, j + 1);
            var (e, env) := events[j];
            after.sk.sndCwnd >= Min(env.sndCwndClamp,
                                    if after.bbr.pipe.reached then Min(w, TargetAt(last, e.rs, env)) else w)
  {
    RecoveryRestoresEntry(s, events, i, j);
    assert events[..j + 1][..j] == events[..j];
    OnAckKeepsRestored(At(s, events, j), events[j].0.rs, events[j].1, At(s, events, i).sk.sndCwnd);
  }

  // ---------- a window that is not restored ----------

  lemma LeavesAtFifty(s: State, rs: Sample, env: Env)
    requires !In(s.bbr) && s.sk.sndCwnd == 50 && s.bbr.probe.priorCwnd == 50 && s.bbr.prevCaState == TCP_CA_LOSS
    requires env.caState == TCP_CA_OPEN && rs.ackedSacked > 0 && rs.losses == 0
    ensures LeavesRecovery(s, rs, env) && Restored(s, rs, env) == 50
  {
    RestoredIs(s, rs, env);
    BeforeWindowPrior(s, rs, env);
    BeforeWindowCwnd(s, rs, env);
  }

  /** An ACK outside PROBE_RTT does not change the window before the window update. */
  lemma BeforeWindowCwnd(s: State, rs: Sample, env: Env)
    requires !In(s.bbr)
    ensures BeforeWindow(s, rs, env).sk.sndCwnd == s.sk.sndCwnd
  {
    EstimatesFrame(s, rs, env);
    CheckDrainFrame(UpdateEstimates(s, rs, env), env);
    EnterKeepsCwnd(CheckDrain(UpdateEstimates(s, rs, env), env), rs, env);
    PacedFrame(AfterMinRtt(s, rs, env), env);
  }

  lemma EnterKeepsCwnd(s: State, rs: Sample, env: Env)
    requires !In(s.bbr)
    ensures UpdateMinRtt(s, rs, env).sk.sndCwnd == s.sk.sndCwnd
  {
  }

  /** The kernel sets the window and a reduction is entered, before any ACK. */
  lemma Reduced(s: State, sk: Sock, env: Env)
    requires !In(s.bbr) && s.bbr.prevCaState == TCP_CA_OPEN
    ensures var after := Step(Step(s, Kernel(sk), env), Ssthresh, env);
            && after.sk == sk && after.bbr.probe.priorCwnd == sk.sndCwnd
            && !In(after.bbr) && after.bbr.prevCaState == TCP_CA_OPEN
  {
  }

  lemma TimesOut(s: State, env: Env)
    requires !In(s.bbr)
    ensures var after := Step(s, NewState(TCP_CA_LOSS), env);
            && after.sk == s.sk && after.bbr.probe == s.bbr.probe
            && !In(after.bbr) && after.bbr.prevCaState == TCP_CA_LOSS
  {
    LtSamplingFrame(AtLoss(s.bbr), 1, false, env);
  }

  lemma RunOneMore(s: State, events: seq<(Event, Env)>, e: Event, env: Env)
    ensures Run(s, events + [(e, env)]) == Step(Run(s, events), e, env)
  {
    assert (events + [(e, env)])[..|events|] == events;
  }

  lemma RunReduced(s0: State, events: seq<(Event, Env)>, sk: Sock, env: Env) returns (more: seq<(Event, Env)>)
    requires !In(Run(s0, events).bbr) && Run(s0, events).bbr.prevCaState == TCP_CA_OPEN
    ensures more == events + [(Kernel(sk), env)] + [(Ssthresh, env)]
    ensures Run(s0, events + [(Kernel(sk), env)]).sk == sk
    ensures var after := Run(s0, more);
            && after.sk == sk && after.bbr.probe.priorCwnd == sk.sndCwnd
            && !In(after.bbr) && after.bbr.prevCaState == TCP_CA_OPEN
  {
    more := events + [(Kernel(sk), env)] + [(Ssthresh, env)];
    Reduced(Run(s0, events), sk, env);
    RunOneMore(s0, events, Kernel(sk), env);
    RunOneMore(s0, events + [(Kernel(sk), env)], Ssthresh, env);
  }

  /** Two entries to a reduction without an ACK between them, the second at a smaller window, and a timeout. */
  lemma RunFive(s0: State, sk1: Sock, sk2: Sock, env: Env) returns (events: seq<(Event, Env)>)
    requires !In(s0.bbr) && s0.bbr.prevCaState == TCP_CA_OPEN && sk1.sndCwnd == 100 && sk2.sndCwnd == 50
    ensures |events| == 5 && events[1] == (Ssthresh, env) && Run(s0, events[..1]).sk.sndCwnd == 100
    ensures var s5 := Run(s0, events);
            !In(s5.bbr) && s5.sk.sndCwnd == 50 && s5.bbr.probe.priorCwnd == 50 && s5.bbr.prevCaState == TCP_CA_LOSS
  {
    var two := RunReduced(s0, [], sk1, env);
    var four := RunReduced(s0, two, sk2, env);
    events := four + [(NewState(TCP_CA_LOSS), env)];
    TimesOut(Run(s0, four), env);
    RunOneMore(s0, four, NewState(TCP_CA_LOSS), env);
    assert events[..1] == [] + [(Kernel(sk1), env)];
  }

  /**
   A run from a new connection whose window is not restored: it enters a reduction at 100 packets, and again at 50
   before any ACK; after the timeout that follows the first ACK goes on from 50.
   */
  lemma EntryNotRestored(sk: Sock, minRttUs: u32, env0: Env, sk1: Sock, sk2: Sock, env: Env, rs: Sample, env6: Env)
    returns (events: seq<(Event, Env)>)
    requires sk1.sndCwnd == 100 && sk2.sndCwnd == 50
    requires env6.caState == TCP_CA_OPEN && rs.ackedSacked > 0 && rs.losses == 0
    ensures var s0, all := Init(sk, minRttUs, env0), events + [(Ack(rs), env6)];
            && |events| == 5 && Recovery(s0, all, 1, 5) && At(s0, all, 1).sk.sndCwnd == 100
            && Restored(At(s0, all, 5), rs, env6) == 50
  {
    InitFrame(sk, minRttUs, env0);
    events := ShortRestore(Init(sk, minRttUs, env0), sk1, sk2, env, rs, env6);
  }

  lemma ShortRestore(s0: State, sk1: Sock, sk2: Sock, env: Env, rs: Sample, env6: Env)
    returns (events: seq<(Event, Env)>)
    requires !In(s0.bbr) && s0.bbr.prevCaState == TCP_CA_OPEN && sk1.sndCwnd == 100 && sk2.sndCwnd == 50
    requires env6.caState == TCP_CA_OPEN && rs.ackedSacked > 0 && rs.losses == 0
    ensures var all := events + [(Ack(rs), env6)];
            && |events| == 5 && Recovery(s0, all, 1, 5) && At(s0, all, 1).sk.sndCwnd == 100
            && Restored(At(s0, all, 5), rs, env6) == 50
  {
    events := RunFive(s0, sk1, sk2, env);
    LeavesAtFifty(Run(s0, events), rs, env6);
    var all := events + [(Ack(rs), env6)];
    assert all[..5] == events && all[..1] == events[..1];
  }
}
