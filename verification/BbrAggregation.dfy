/**
 The two-slot window over excess acknowledged packets, against the full history of samples:
 it is the maximum over the last five to ten counted rounds.
 */
module BbrAggregation {
  import opened Words
  import opened BbrRates
  import opened Bbr
  import opened BbrFrames

  /** A sample and the counted round in which it was recorded. */
  datatype Entry = Entry(round: nat, sample: u32)

  /** Everything recorded so far. */
  datatype Log = Log(rounds: nat, entries: seq<Entry>)

  const EMPTY_LOG := Log(0, [])

  /** The largest sample recorded in rounds 5*block to 5*block + 4. */
  function BlockMax(entries: seq<Entry>, block: int): u32 {
    if entries == [] then 0
    else
      var e := entries[|entries| - 1];
      var before := BlockMax(entries[..|entries| - 1], block);
      if e.round / EXTRA_ACKED_WIN_RTTS == block then Max(before, e.sample) else before
  }

  /** The largest sample recorded in round `first` or later. */
  function MaxSince(entries: seq<Entry>, first: int): u32 {
    if entries == [] then 0
    else
      var e := entries[|entries| - 1];
      var before := MaxSince(entries[..|entries| - 1], first);
      if e.round >= first then Max(before, e.sample) else before
  }

  lemma {:induction false} MaxSinceIsMaximum(entries: seq<Entry>, first: int)
    ensures forall i :: 0 <= i < |entries| && entries[i].round >= first ==>
                          entries[i].sample <= MaxSince(entries, first)
    ensures MaxSince(entries, first) == 0
            || exists i :: 0 <= i < |entries| && entries[i].round >= first
                           && entries[i].sample == MaxSince(entries, first)
  {
    if entries != [] {
      var init := entries[..|entries| - 1];
      MaxSinceIsMaximum(init, first);
      var e := entries[|entries| - 1];
      if MaxSince(entries, first) == MaxSince(init, first) && MaxSince(init, first) != 0 {
        var i :| 0 <= i < |init| && init[i].round >= first && init[i].sample == MaxSince(init, first);
        assert entries[i] == init[i];
      } else if e.round >= first {
        assert entries[|entries| - 1].sample == MaxSince(entries, first) || MaxSince(entries, first) == 0;
      }
    }
  }

  ghost predicate WellFormed(log: Log) {
    forall i :: 0 <= i < |log.entries| ==> log.entries[i].round <= log.rounds
  }

  /** The two slots hold the maxima of the current block of five rounds and of the one before. */
  ghost predicate Holds(a: Agg, log: Log) {
    var block := log.rounds / EXTRA_ACKED_WIN_RTTS;
    && WellFormed(log)
    && a.winRtts == log.rounds % EXTRA_ACKED_WIN_RTTS
    && a.winIdx == block % 2
    && (if a.winIdx == 0 then a.slot0 else a.slot1) == BlockMax(log.entries, block)
    && (if a.winIdx == 0 then a.slot1 else a.slot0) == BlockMax(log.entries, block - 1)
  }

  lemma {:induction false} FutureBlockIsEmpty(entries: seq<Entry>, rounds: nat, block: int)
    requires forall i :: 0 <= i < |entries| ==> entries[i].round <= rounds
    requires rounds / EXTRA_ACKED_WIN_RTTS < block
    ensures BlockMax(entries, block) == 0
  {
    if entries != [] {
      FutureBlockIsEmpty(entries[..|entries| - 1], rounds, block);
    }
  }

  lemma RotateHolds(a: Agg, log: Log)
    requires Holds(a, log)
    ensures Holds(RotateSlots(a), log.(rounds := log.rounds + 1))
  {
    FutureBlockIsEmpty(log.entries, log.rounds, log.rounds / EXTRA_ACKED_WIN_RTTS + 1);
  }

  lemma BlockMaxAppend(entries: seq<Entry>, e: Entry, block: int)
    ensures BlockMax(entries + [e], block)
            == if e.round / EXTRA_ACKED_WIN_RTTS == block then Max(BlockMax(entries, block), e.sample)
               else BlockMax(entries, block)
  {
    assert (entries + [e])[..|entries|] == entries;
  }

  lemma RecordHolds(a: Agg, log: Log, extra: u32)
    requires Holds(a, log) && extra < TWO16
    ensures Holds(Record(a, extra), log.(entries := log.entries + [Entry(log.rounds, extra)]))
  {
    var block := log.rounds / EXTRA_ACKED_WIN_RTTS;
    BlockMaxAppend(log.entries, Entry(log.rounds, extra), block);
    BlockMaxAppend(log.entries, Entry(log.rounds, extra), block - 1);
  }

  /** A slot takes a new maximum exactly when it fits 16 bits; a larger one is truncated. */
  lemma RecordIsMaximum(a: Agg, extra: u32)
    ensures var before, after := if a.winIdx == 0 then a.slot0 else a.slot1,
                                 if a.winIdx == 0 then Record(a, extra).slot0 else Record(a, extra).slot1;
            after == Max(before, extra) <==> extra < TWO16
  {
    var before := if a.winIdx == 0 then a.slot0 else a.slot1;
    if extra >= TWO16 {
      assert U16(extra) < TWO16 <= extra;
    }
  }

  // ---------- what the two slots cover ----------

  lemma {:induction false} TwoBlocks(entries: seq<Entry>, rounds: nat)
    requires forall i :: 0 <= i < |entries| ==> entries[i].round <= rounds
    ensures var block := rounds / EXTRA_ACKED_WIN_RTTS;
            Max(BlockMax(entries, block), BlockMax(entries, block - 1))
            == MaxSince(entries, EXTRA_ACKED_WIN_RTTS * (block - 1))
  {
    if entries != [] {
      TwoBlocks(entries[..|entries| - 1], rounds);
    }
  }

  /** The estimate is the maximum over a window that reaches back at least five and at most nine rounds. */
  lemma SlotsCover(a: Agg, log: Log)
    requires Holds(a, log)
    ensures var first := EXTRA_ACKED_WIN_RTTS * (log.rounds / EXTRA_ACKED_WIN_RTTS - 1);
            ExtraAcked(a) == MaxSince(log.entries, first) && 5 <= log.rounds - first <= 9
  {
    TwoBlocks(log.entries, log.rounds);
  }

  // ---------- over runs ----------

  /** This ACK is counted, and the sample it records. */
  predicate Counts(rs: Sample) {
    rs.ackedSacked != 0 && rs.delivered >= 0 && rs.intervalUs > 0
  }

  function SampleOf(s: State, rs: Sample, env: Env): u32 {
    var b := UpdateBw(s.bbr, rs, env);
    var a := if b.roundStart then RotateSlots(b.agg) else b.agg;
    Min(CountAcked(b, a, rs.ackedSacked, env).1, s.sk.sndCwnd)
  }

  function NextLog(log: Log, s: State, e: Event, env: Env): Log {
    if !e.Ack? || !Counts(e.rs) then log
    else
      var rounds := if UpdateBw(s.bbr, e.rs, env).roundStart then log.rounds + 1 else log.rounds;
      Log(rounds, log.entries + [Entry(rounds, SampleOf(s, e.rs, env))])
  }

  function History(s: State, events: seq<(Event, Env)>): Log {
    if events == [] then EMPTY_LOG
    else
      var init := events[..|events| - 1];
      NextLog(History(s, init), Run(s, init), events[|events| - 1].0, events[|events| - 1].1)
  }

  lemma AggregationHolds(s: State, rs: Sample, env: Env, log: Log)
    requires Holds(s.bbr.agg, log) && s.sk.sndCwnd < TWO16
    ensures Holds(UpdateAggregation(UpdateBw(s.bbr, rs, env), s.sk.sndCwnd, rs, env).agg, NextLog(log, s, Ack(rs), env))
  {
    UpdateBwFrame(s.bbr, rs, env);
    var b := UpdateBw(s.bbr, rs, env);
    if Counts(rs) {
      RotateHolds(b.agg, log);
      var a := if b.roundStart then RotateSlots(b.agg) else b.agg;
      var rounds := if b.roundStart then log.rounds + 1 else log.rounds;
      var (a1, extra) := CountAcked(b, a, rs.ackedSacked, env);
      assert a1 == a.(epochAcked := a1.epochAcked, epochMstamp := a1.epochMstamp);
      RecordHolds(a1, log.(rounds := rounds), SampleOf(s, rs, env));
    }
  }

  lemma StepHolds(s: State, e: Event, env: Env, log: Log)
    requires Holds(s.bbr.agg, log) && (e.Ack? ==> s.sk.sndCwnd < TWO16)
    ensures Holds(Step(s, e, env).bbr.agg, NextLog(log, s, e, env))
  {
    match e
    case Ack(rs) =>
      AggregationHolds(s, rs, env, log);
      EstimatesFrame(s, rs, env);
      var s1 := UpdateEstimates(s, rs, env);
      CheckDrainFrame(s1, env);
      UpdateMinRttFrame(CheckDrain(s1, env), rs, env);
      OnAckFrame(s, rs, env);
    case Idle =>
      IdleKeepsSlots(s, env);
    case NewState(newState) =>
      LtSamplingFrame(AtLoss(s.bbr), 1, false, env);
    case _ =>
  }

  lemma IdleKeepsSlots(s: State, env: Env)
    ensures var a := TxStart(s, env).bbr.agg;
            a == s.bbr.agg.(epochMstamp := a.epochMstamp, epochAcked := a.epochAcked)
  {
    if s.sk.appLimited != 0 {
      var s1 := AtIdle(s, env);
      SetPacingRateFrame(s1, Bw(s1.bbr), BBR_UNIT, env);
      CheckProbeRttDoneFrame(s1, env);
    }
  }

  /** Windows stay below 2^16 packets whenever an ACK is processed. */
  ghost predicate SmallWindows(s: State, events: seq<(Event, Env)>) {
    forall i :: 0 <= i < |events| && events[i].0.Ack? ==> Run(s, events[..i]).sk.sndCwnd < TWO16
  }

  lemma {:induction false} RunHolds(s: State, events: seq<(Event, Env)>)
    requires Holds(s.bbr.agg, EMPTY_LOG) && SmallWindows(s, events)
    ensures Holds(Run(s, events).bbr.agg, History(s, events))
  {
    if events != [] {
      var init := events[..|events| - 1];
      assert forall i :: 0 <= i < |init| ==> init[..i] == events[..i];
      RunHolds(s, init);
      StepHolds(Run(s, init), events[|events| - 1].0, events[|events| - 1].1, History(s, init));
    }
  }

  /**
   After any run from `Init` the estimate is the maximum of all samples recorded since some round
   that lies five to nine counted rounds back: every sample of the last five rounds is
   covered, and none older than nine.
   */
  lemma EstimateIsWindowedMaximum(sk: Sock, minRttUs: u32, env0: Env, events: seq<(Event, Env)>) returns (first: int)
    requires SmallWindows(Init(sk, minRttUs, env0), events)
    ensures var s0 := Init(sk, minRttUs, env0);
            var log := History(s0, events);
            5 <= log.rounds - first <= 9 && ExtraAcked(Run(s0, events).bbr.agg) == MaxSince(log.entries, first)
  {
    InitHolds(sk, minRttUs, env0);
    first := WindowAfter(Init(sk, minRttUs, env0), events);
  }

  lemma InitHolds(sk: Sock, minRttUs: u32, env0: Env)
    ensures Holds(Init(sk, minRttUs, env0).bbr.agg, EMPTY_LOG)
  {
  }

  lemma WindowAfter(s: State, events: seq<(Event, Env)>) returns (first: int)
    requires Holds(s.bbr.agg, EMPTY_LOG) && SmallWindows(s, events)
    ensures var log := History(s, events);
            5 <= log.rounds - first <= 9 && ExtraAcked(Run(s, events).bbr.agg) == MaxSince(log.entries, first)
  {
    RunHolds(s, events);
    SlotsCover(Run(s, events).bbr.agg, History(s, events));
    first := EXTRA_ACKED_WIN_RTTS * (History(s, events).rounds / EXTRA_ACKED_WIN_RTTS - 1);
  }
}
