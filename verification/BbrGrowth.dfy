/**
 How BBR's window grows: packet for packet up to the target, or to the tenth packet delivered, and from then on it
 rests at the target; what the target is in packets; and when packets are conserved instead.
 */
module BbrGrowth {
  import opened Words
  import opened BbrRates
  import opened Bbr
  import opened BbrFrames
  import opened BbrProbeRtt
  import opened BbrRecovery

  // ---------- packet conservation ----------

  /** The sample counts, and acknowledges a packet sent after the last round trip had ended. */
  predicate NewRound(b: Block, rs: Sample) {
    rs.delivered >= 0 && rs.intervalUs > 0 && !Before(rs.priorDelivered, b.nextRttDelivered)
  }

  lemma EstimatesConserve(s: State, rs: Sample, env: Env)
    ensures UpdateEstimates(s, rs, env).bbr.packetConservation
            == (s.bbr.packetConservation && !NewRound(s.bbr, rs))
  {
    LtSamplingFrame(StartRound(s.bbr.(roundStart := false), rs, env), rs.losses, rs.isAppLimited, env);
    var b1 := UpdateBw(s.bbr, rs, env);
    SmallFrames(b1, s.sk.sndCwnd, rs, env);
    var b2 := UpdateAggregation(b1, s.sk.sndCwnd, rs, env);
    SmallFrames(b2, s.sk.sndCwnd, rs, env);
    SmallFrames(UpdateCyclePhase(b2, rs, env), s.sk.sndCwnd, rs, env);
  }

  lemma BeforeWindowConserves(s: State, rs: Sample, env: Env)
    ensures BeforeWindow(s, rs, env).bbr.packetConservation
            == (s.bbr.packetConservation && !NewRound(s.bbr, rs))
  {
    EstimatesConserve(s, rs, env);
    CheckDrainFrame(UpdateEstimates(s, rs, env), env);
    UpdateMinRttFrame(CheckDrain(UpdateEstimates(s, rs, env), env), rs, env);
    PacedFrame(AfterMinRtt(s, rs, env), env);
  }

  /**
   An ACK for at least one packet that finds the flow in recovery for the first time, and one for the first time out
   of it.
   */
  predicate EntersRecovery(b: Block, rs: Sample, env: Env) {
    rs.ackedSacked > 0 && env.caState == TCP_CA_RECOVERY && b.prevCaState != TCP_CA_RECOVERY
  }

  predicate EndsRecovery(b: Block, rs: Sample, env: Env) {
    rs.ackedSacked > 0 && env.caState < TCP_CA_RECOVERY && b.prevCaState >= TCP_CA_RECOVERY
  }

  lemma SetCwndConserves(s: State, rs: Sample, bw: u32, gain: u32, env: Env)
    ensures SetCwnd(s, rs.losses, rs.ackedSacked, bw, gain, env).bbr.packetConservation
            == if EntersRecovery(s.bbr, rs, env) then true
               else s.bbr.packetConservation && !EndsRecovery(s.bbr, rs, env)
  {
  }

  lemma AckConserves(s: State, rs: Sample, env: Env)
    ensures OnAck(s, rs, env).bbr.packetConservation
            == if EntersRecovery(s.bbr, rs, env) then true
               else s.bbr.packetConservation && !NewRound(s.bbr, rs) && !EndsRecovery(s.bbr, rs, env)
  {
    BeforeWindowConserves(s, rs, env);
    BeforeWindowPrior(s, rs, env);
    AckSetsWindow(s, rs, env);
    var p := BeforeWindow(s, rs, env);
    SetCwndConserves(p, rs, Bw(p.bbr), p.bbr.cwndGain, env);
  }

  lemma StepConserves(s: State, e: Event, env: Env)
    requires !e.Ack?
    ensures Step(s, e, env).bbr.packetConservation == s.bbr.packetConservation
  {
    match e
    case Idle =>
      if s.sk.appLimited != 0 {
        var s1 := AtIdle(s, env);
        SetPacingRateFrame(s1, Bw(s1.bbr), BBR_UNIT, env);
        CheckProbeRttDoneFrame(s1, env);
      }
    case NewState(newState) => LtSamplingFrame(AtLoss(s.bbr), 1, false, env);
    case _ =>
  }

  /** Whether packets are conserved, from the ACKs that began recovery, left it, or began a round trip. */
  function Conserving(s: State, events: seq<(Event, Env)>): bool {
    if events == [] then s.bbr.packetConservation
    else
      var k := |events| - 1;
      var (e, env) := events[k];
      var b := Run(s, events[..k]).bbr;
      if !e.Ack? then Conserving(s, events[..k])
      else if EntersRecovery(b, e.rs, env) then true
      else if EndsRecovery(b, e.rs, env) || NewRound(b, e.rs) then false
      else Conserving(s, events[..k])
  }

  /**
   Over any run: packets are conserved from the first ACK in recovery until the next round trip, or the end of
   recovery.
   */
  lemma {:induction false} RunConserves(s: State, events: seq<(Event, Env)>)
    ensures Run(s, events).bbr.packetConservation == Conserving(s, events)
  {
    if events != [] {
      var k := |events| - 1;
      RunConserves(s, events[..k]);
      match events[k].0
      case Ack(rs) => AckConserves(Run(s, events[..k]), rs, events[k].1);
      case _ => StepConserves(Run(s, events[..k]), events[k].0, events[k].1);
    }
  }

  // ---------- one ACK ----------

  /** No recovery, no packet conservation and no visit to PROBE_RTT. */
  predicate Unhindered(b: Block) {
    b.prevCaState < TCP_CA_RECOVERY && !b.packetConservation && !In(b)
  }

  /** This ACK brings packets and no loss, and begins neither recovery nor a visit to PROBE_RTT. */
  predicate Quiet(s: State, rs: Sample, env: Env) {
    rs.losses == 0 && rs.ackedSacked > 0 && env.caState < TCP_CA_RECOVERY && !In(OnAck(s, rs, env).bbr)
  }

  /** What the window update goes by. */
  datatype Look = Look(acked: u32, target: u32, isFull: bool, isYoung: bool, clamp: u32)

  function LookAt(s: State, rs: Sample, env: Env): Look {
    var b := OnAck(s, rs, env).bbr;
    Look(rs.ackedSacked, TargetCwnd(b, Bw(b), b.cwndGain, env), b.pipe.reached, env.delivered < 10, env.sndCwndClamp)
  }

  function NextWindow(cwnd: u32, k: Look): u32 {
    var wanted := if k.isFull then Min(U32(cwnd + k.acked), k.target)
                  else if cwnd < k.target || k.isYoung then U32(cwnd + k.acked)
                  else cwnd;
    Min(Max(wanted, 4), k.clamp)
  }

  lemma SetCwndUnhindered(p: State, rs: Sample, env: Env)
    requires Unhindered(p.bbr) && rs.losses == 0 && rs.ackedSacked > 0 && env.caState < TCP_CA_RECOVERY
    ensures var after := SetCwnd(p, rs.losses, rs.ackedSacked, Bw(p.bbr), p.bbr.cwndGain, env);
            var b := after.bbr;
            && Unhindered(b) && b.mode == p.bbr.mode
            && after.sk.sndCwnd
               == NextWindow(p.sk.sndCwnd, Look(rs.ackedSacked, TargetCwnd(b, Bw(b), b.cwndGain, env), b.pipe.reached,
                                                env.delivered < 10, env.sndCwndClamp))
  {
  }

  lemma QuietAck(s: State, rs: Sample, env: Env)
    requires Unhindered(s.bbr) && Quiet(s, rs, env)
    ensures Unhindered(OnAck(s, rs, env).bbr)
    ensures OnAck(s, rs, env).sk.sndCwnd == NextWindow(s.sk.sndCwnd, LookAt(s, rs, env))
  {
    BeforeWindowConserves(s, rs, env);
    BeforeWindowPrior(s, rs, env);
    BeforeWindowCwnd(s, rs, env);
    AckSetsWindow(s, rs, env);
    SetCwndUnhindered(BeforeWindow(s, rs, env), rs, env);
  }

  /** No ACK leaves the window above the clamp, and one that acknowledges nothing does no more than cut it to that. */
  lemma ClampHolds(s: State, rs: Sample, env: Env)
    ensures var after := OnAck(s, rs, env);
            && after.sk.sndCwnd <= env.sndCwndClamp
            && (rs.ackedSacked == 0 && !In(s.bbr) && !In(after.bbr) ==>
                  after.sk.sndCwnd == Min(s.sk.sndCwnd, env.sndCwndClamp))
  {
    AckSetsWindow(s, rs, env);
    var p := BeforeWindow(s, rs, env);
    SetCwndFrame(p, rs.losses, rs.ackedSacked, Bw(p.bbr), p.bbr.cwndGain, env);
    CapHolds(p, rs.losses, rs.ackedSacked, Bw(p.bbr), p.bbr.cwndGain, env);
    if !In(s.bbr) {
      BeforeWindowCwnd(s, rs, env);
    }
  }

  lemma CapHolds(p: State, losses: s32, acked: u32, bw: u32, gain: u32, env: Env)
    ensures var after := SetCwnd(p, losses, acked, bw, gain, env);
            && after.sk.sndCwnd <= env.sndCwndClamp
            && (acked == 0 && !In(after.bbr) ==> after.sk.sndCwnd == Min(p.sk.sndCwnd, env.sndCwndClamp))
  {
  }

  // ---------- runs of ACKs ----------

  function AckRun(s: State, acks: seq<(Sample, Env)>): State {
    if acks == [] then s
    else OnAck(AckRun(s, acks[..|acks| - 1]), acks[|acks| - 1].0, acks[|acks| - 1].1)
  }

  predicate QuietRun(s: State, acks: seq<(Sample, Env)>) {
    acks == []
    || (var k := |acks| - 1;
        QuietRun(s, acks[..k]) && Quiet(AckRun(s, acks[..k]), acks[k].0, acks[k].1))
  }

  function Looks(s: State, acks: seq<(Sample, Env)>): (looks: seq<Look>)
    ensures |looks| == |acks|
  {
    if acks == [] then []
    else
      var k := |acks| - 1;
      Looks(s, acks[..k]) + [LookAt(AckRun(s, acks[..k]), acks[k].0, acks[k].1)]
  }

  function Grow(cwnd: u32, looks: seq<Look>): u32 {
    if looks == [] then cwnd else NextWindow(Grow(cwnd, looks[..|looks| - 1]), looks[|looks| - 1])
  }

  function Acked(looks: seq<Look>): nat {
    if looks == [] then 0 else Acked(looks[..|looks| - 1]) + looks[|looks| - 1].acked
  }

  /** Over a run of such ACKs the window is moved by what each ACK looks at, and by nothing else. */
  lemma {:induction false} RunWindow(s: State, acks: seq<(Sample, Env)>)
    requires Unhindered(s.bbr) && QuietRun(s, acks)
    ensures var after := AckRun(s, acks);
            Unhindered(after.bbr) && after.sk.sndCwnd == Grow(s.sk.sndCwnd, Looks(s, acks))
  {
    if acks != [] {
      var k := |acks| - 1;
      RunWindow(s, acks[..k]);
      QuietAck(AckRun(s, acks[..k]), acks[k].0, acks[k].1);
      assert Looks(s, acks)[..k] == Looks(s, acks[..k]);
    }
  }

  // ---------- slow start, and rest ----------

  /** Before a full pipe, every ACK finds the window below the target or fewer than ten packets delivered; no clamp. */
  predicate Climbs(start: u32, looks: seq<Look>) {
    looks == []
    || (var k, init := looks[|looks| - 1], looks[..|looks| - 1];
        && Climbs(start, init)
        && !k.isFull && (start + Acked(init) < k.target || k.isYoung) && start + Acked(looks) <= k.clamp)
  }

  lemma {:induction false} GrowClimbs(start: u32, looks: seq<Look>)
    requires CWND_MIN_TARGET <= start && Climbs(start, looks)
    ensures Grow(start, looks) == start + Acked(looks)
  {
    if looks != [] {
      GrowClimbs(start, looks[..|looks| - 1]);
    }
  }

  /** Slow start: the window is the starting window and every packet acknowledged since. */
  lemma WindowClimbs(s: State, acks: seq<(Sample, Env)>)
    requires Unhindered(s.bbr) && QuietRun(s, acks)
    requires CWND_MIN_TARGET <= s.sk.sndCwnd && Climbs(s.sk.sndCwnd, Looks(s, acks))
    ensures AckRun(s, acks).sk.sndCwnd == s.sk.sndCwnd + Acked(Looks(s, acks))
  {
    RunWindow(s, acks);
    GrowClimbs(s.sk.sndCwnd, Looks(s, acks));
  }

  /** Before a full pipe, a window at or above every target, ten packets having been delivered, and below the clamp. */
  ghost predicate Sated(start: u32, looks: seq<Look>) {
    forall i :: 0 <= i < |looks| ==>
      !looks[i].isFull && looks[i].target <= start && !looks[i].isYoung && start <= looks[i].clamp
  }

  lemma {:induction false} GrowRests(start: u32, looks: seq<Look>)
    requires CWND_MIN_TARGET <= start && Sated(start, looks)
    ensures Grow(start, looks) == start
  {
    if looks != [] {
      GrowRests(start, looks[..|looks| - 1]);
    }
  }

  /** It stays where it is. */
  lemma WindowRests(s: State, acks: seq<(Sample, Env)>)
    requires Unhindered(s.bbr) && QuietRun(s, acks)
    requires CWND_MIN_TARGET <= s.sk.sndCwnd && Sated(s.sk.sndCwnd, Looks(s, acks))
    ensures AckRun(s, acks).sk.sndCwnd == s.sk.sndCwnd
  {
    RunWindow(s, acks);
    GrowRests(s.sk.sndCwnd, Looks(s, acks));
  }

  /** After a full pipe, with all targets between `low` and `high` and below the clamp. */
  ghost predicate Between(low: nat, high: nat, looks: seq<Look>) {
    forall i :: 0 <= i < |looks| ==> looks[i].isFull && low <= looks[i].target <= high <= looks[i].clamp
  }

  lemma {:induction false} GrowBetween(start: u32, low: nat, high: nat, looks: seq<Look>)
    requires CWND_MIN_TARGET <= start && CWND_MIN_TARGET <= low && Between(low, high, looks)
    requires start + Acked(looks) < TWO32
    ensures Min(low, start + Acked(looks)) <= Grow(start, looks) <= start + Acked(looks)
    ensures looks != [] ==> Grow(start, looks) <= high
  {
    if looks != [] {
      GrowBetween(start, low, high, looks[..|looks| - 1]);
    }
  }

  /**
   From `start`, after `n` ACKs for `acked` packets, no less than the targets or all that was acknowledged, and no
   more.
   */
  predicate Takes(start: nat, after: nat, acked: nat, n: nat, low: nat, high: nat) {
    && Min(low, start + acked) <= after <= start + acked
    && (n > 0 ==> after <= high)
    && (n > 0 && low == high ==> after == Min(high, start + acked))
  }

  lemma GrowTakes(start: u32, looks: seq<Look>, low: nat, high: nat)
    requires CWND_MIN_TARGET <= start && CWND_MIN_TARGET <= low && Between(low, high, looks)
    requires start + Acked(looks) < TWO32
    ensures Takes(start, Grow(start, looks), Acked(looks), |looks|, low, high)
  {
    GrowBetween(start, low, high, looks);
  }

  /**
   The window grows by what is acknowledged until it is between the targets, and comes down to them at once; so it
   reaches a constant target with enough packets acknowledged, exactly, and rests there.
   */
  lemma WindowTakesTarget(s: State, acks: seq<(Sample, Env)>, low: nat, high: nat)
    requires Unhindered(s.bbr) && QuietRun(s, acks)
    requires CWND_MIN_TARGET <= s.sk.sndCwnd && CWND_MIN_TARGET <= low && Between(low, high, Looks(s, acks))
    requires s.sk.sndCwnd + Acked(Looks(s, acks)) < TWO32
    ensures Takes(s.sk.sndCwnd, AckRun(s, acks).sk.sndCwnd, Acked(Looks(s, acks)), |acks|, low, high)
  {
    RunWindow(s, acks);
    GrowTakes(s.sk.sndCwnd, Looks(s, acks), low, high);
  }

  // ---------- the target in packets ----------

  /**
   The packets that fill the path, from their product in units of 2^-32: rounded up, or one less just above a whole
   number.
   */
  function PathPackets(product: nat): nat {
    (product + TWO32 - 1) / TWO32 - (if 0 < product % TWO32 < BBR_UNIT then 1 else 0)
  }

  /** The excess seen, at most what the bandwidth delivers in 100 ms, once the pipe has been full. */
  function Headroom(b: Block): nat {
    if b.pipe.reached then Min(Max(b.agg.slot0, b.agg.slot1), Bw(b) * 100_000 / BW_UNIT) else 0
  }

  function EvenUp(x: nat): nat {
    x + x % 2
  }

  lemma BudgetInPackets(b: Block, cwnd: u32, env: Env)
    requires cwnd + 3 * env.tsoSegsGoal + 3 < TWO32
    ensures QuantizationBudget(b, cwnd, env)
            == EvenUp(cwnd + 3 * env.tsoSegsGoal) + if b.mode == ProbeBw && b.cycle.idx == 0 then 2 else 0
  {
  }

  lemma HeadroomInPackets(b: Block)
    ensures AckAggregationCwnd(b) == Headroom(b) < TWO16
  {
  }

  lemma PathInPackets(bw: u32, minRttUs: u32, gain: u32, product: nat)
    requires product == bw * minRttUs * gain < TWO64 - TWO32 + BBR_UNIT && minRttUs != NO_RTT
    ensures Bdp(bw, minRttUs, gain) == PathPackets(product)
  {
    BdpNearExact(bw, minRttUs, gain);
  }

  /**
   The target: what fills the path, the headroom for aggregated ACKs, and three bursts of segmentation offload,
   rounded up to an even number; two more while probing. The premise keeps the sum, and the product, within their
   words.
   */
  lemma TargetInPackets(b: Block, bw: u32, gain: u32, env: Env, product: nat)
    requires product == bw * b.probe.minRttUs * gain < TWO64 - TWO32 + BBR_UNIT && b.probe.minRttUs != NO_RTT
    requires PathPackets(product) + TWO16 + 3 * env.tsoSegsGoal + 3 < TWO32
    ensures TargetCwnd(b, bw, gain, env)
            == EvenUp(PathPackets(product) + Headroom(b) + 3 * env.tsoSegsGoal)
               + if b.mode == ProbeBw && b.cycle.idx == 0 then 2 else 0
  {
    PathInPackets(bw, b.probe.minRttUs, gain, product);
    TargetFrom(b, bw, gain, env, PathPackets(product));
  }

  lemma TargetFrom(b: Block, bw: u32, gain: u32, env: Env, path: nat)
    requires Bdp(bw, b.probe.minRttUs, gain) == path && path + TWO16 + 3 * env.tsoSegsGoal + 3 < TWO32
    ensures TargetCwnd(b, bw, gain, env)
            == EvenUp(path + Headroom(b) + 3 * env.tsoSegsGoal) + if b.mode == ProbeBw && b.cycle.idx == 0 then 2 else 0
  {
    HeadroomInPackets(b);
    BudgetInPackets(b, path + AckAggregationCwnd(b), env);
  }

  /** Without a round-trip sample the path is taken to hold the initial window of ten. */
  lemma TargetWithoutSample(b: Block, bw: u32, gain: u32, env: Env)
    requires b.probe.minRttUs == NO_RTT && TWO16 + 3 * env.tsoSegsGoal + 13 < TWO32
    ensures TargetCwnd(b, bw, gain, env)
            == EvenUp(10 + Headroom(b) + 3 * env.tsoSegsGoal) + if b.mode == ProbeBw && b.cycle.idx == 0 then 2 else 0
  {
    TargetFrom(b, bw, gain, env, 10);
  }
}
