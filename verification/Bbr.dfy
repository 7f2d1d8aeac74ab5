/**
 BBR's callbacks as functions on the connection state, one function per step of the original.
 */
module Bbr {
  import opened Words
  import opened BbrRates

  const CYCLE_LEN := 8
  const MIN_RTT_WIN_SEC := 10
  const HIGH_GAIN := 739
  const DRAIN_GAIN := 88
  const CWND_GAIN := 512
  const CWND_MIN_TARGET := 4
  const FULL_BW_CNT := 3
  const LT_INTVL_MIN_RTTS := 4
  const LT_LOSS_THRESH := 50
  const LT_BW_RATIO := 32
  const LT_BW_DIFF := 500
  const LT_BW_MAX_RTTS := 48
  const EXTRA_ACKED_WIN_RTTS := 5
  const EXTRA_ACKED_MAX_US := 100_000
  const ACK_EPOCH_ACKED_MAX := 0xFFFFF
  const TCP_CA_OPEN: u8 := 0
  const TCP_CA_RECOVERY: u8 := 3
  const TCP_CA_LOSS: u8 := 4

  datatype Mode = Startup | Drain | ProbeBw | ProbeRtt

  /** The long-term ("policer") estimator. */
  datatype Lt = Lt(isSampling: bool, rttCnt: nat, useBw: bool, bw: u32,
                   lastDelivered: u32, lastStamp: u32, lastLost: u32)

  /** The two-slot window over excess acknowledged packets. */
  datatype Agg = Agg(epochMstamp: u64, epochAcked: u32, winRtts: nat, winIdx: nat, slot0: u16, slot1: u16)

  /** The full-pipe detector. */
  datatype Pipe = Pipe(fullBw: u32, cnt: nat, reached: bool)

  /** The minimum round-trip time and the visit to PROBE_RTT that refreshes it. */
  datatype Probe = Probe(minRttUs: u32, minRttStamp: u32, doneStamp: u32, roundDone: bool, priorCwnd: u32)

  /** The phase of the gain cycle. */
  datatype Cycle = Cycle(idx: nat, mstamp: u64)

  /** The control block. `maxBw` is the value of the windowed maximum filter over bandwidth samples. */
  datatype Block = Block(
    mode: Mode,
    prevCaState: u8,
    packetConservation: bool,
    roundStart: bool,
    idleRestart: bool,
    hasSeenRtt: bool,
    pacingGain: u32,
    cwndGain: u32,
    maxBw: u32,
    rttCnt: u32,
    nextRttDelivered: u32,
    lt: Lt,
    agg: Agg,
    pipe: Pipe,
    probe: Probe,
    cycle: Cycle)

  /** The fields of the socket that BBR writes. */
  datatype Sock = Sock(sndCwnd: u32, sndSsthresh: u32, appLimited: u32, pacingRate: u64)

  datatype State = State(sk: Sock, bbr: Block)

  /**
   What a callback reads from the kernel, including the clock, the random draw and the new value of the bandwidth
   filter.
   */
  datatype Env = Env(
    now: u32,
    hz: u32,
    probeJiffies: u32,
    delivered: u32,
    lost: u32,
    deliveredMstamp: u64,
    tcpMstamp: u64,
    inFlight: u32,
    caState: u8,
    mss: u32,
    srttUs: u32,
    maxPacingRate: u64,
    clockCacheNs: u64,
    wstampNs: u64,
    sndCwndClamp: u32,
    tsoSegsGoal: u32,
    rand: u32,
    filteredBw: u32)

  /** `struct rate_sample`. */
  datatype Sample = Sample(
    delivered: s32,
    intervalUs: int,
    priorDelivered: u32,
    rttUs: int,
    losses: s32,
    ackedSacked: u32,
    priorInFlight: u32,
    isAppLimited: bool,
    isAckDelayed: bool)

  /** Microseconds from `t0` to `t1`, not less than zero. */
  function StampDelta(t1: u64, t0: u64): u32 {
    U32(Max(t1 - t0, 0))
  }

  // ---------- estimates ----------

  function Bw(b: Block): u32 {
    if b.lt.useBw then b.lt.bw else b.maxBw
  }

  function ExtraAcked(a: Agg): u16 {
    Max(a.slot0, a.slot1)
  }

  /** Headroom for segmentation offload, rounded up to even, and two more in the probing phase. */
  function QuantizationBudget(b: Block, cwnd: u32, env: Env): u32 {
    var even := U32(U32(cwnd + U32(3 * env.tsoSegsGoal)) + 1) / 2 * 2;
    if b.mode == ProbeBw && b.cycle.idx == 0 then U32(even + 2) else even
  }

  function Inflight(b: Block, bw: u32, gain: u32, env: Env): u32 {
    QuantizationBudget(b, Bdp(bw, b.probe.minRttUs, gain), env)
  }

  /** The packets still in the network when the next segment departs. */
  function PacketsInNetAtEdt(b: Block, inflightNow: u32, env: Env): u32 {
    var edtNs := Max(env.wstampNs, env.clockCacheNs);
    var intervalUs := (edtNs - env.clockCacheNs) / 1000;
    var delivered := U32(U64(Bw(b) * intervalUs) / BW_UNIT);
    var atEdt := if b.pacingGain > BBR_UNIT then U32(inflightNow + env.tsoSegsGoal) else inflightNow;
    if delivered >= atEdt then 0 else atEdt - delivered
  }

  function AckAggregationCwnd(b: Block): u32 {
    if b.pipe.reached then Min(ExtraAcked(b.agg), U32(U64(Bw(b) * EXTRA_ACKED_MAX_US) / BW_UNIT)) else 0
  }

  // ---------- pacing ----------

  function BwToPacingRate(bw: u32, gain: u32, env: Env): u64 {
    Min(RateBytesPerSec(bw, env.mss, gain), env.maxPacingRate)
  }

  function InitPacingRateFromRtt(s: State, env: Env): State {
    var rttUs := if env.srttUs != 0 then Max(env.srttUs / 8, 1) else 1000;
    var bw := U32(Div(U64(s.sk.sndCwnd * BW_UNIT), rttUs));
    State(s.sk.(pacingRate := BwToPacingRate(bw, HIGH_GAIN, env)),
          s.bbr.(hasSeenRtt := s.bbr.hasSeenRtt || env.srttUs != 0))
  }

  function SetPacingRate(s: State, bw: u32, gain: u32, env: Env): State {
    var rate := BwToPacingRate(bw, gain, env);
    var s1 := if !s.bbr.hasSeenRtt && env.srttUs != 0 then InitPacingRateFromRtt(s, env) else s;
    if s1.bbr.pipe.reached || rate > s1.sk.pacingRate then s1.(sk := s1.sk.(pacingRate := rate)) else s1
  }

  // ---------- modes ----------

  function AdvanceCyclePhase(b: Block, env: Env): Block {
    b.(cycle := Cycle((b.cycle.idx + 1) % CYCLE_LEN, env.deliveredMstamp))
  }

  /** PROBE_BW from a random phase, advanced by one, so never the phase after it. */
  function ResetProbeBw(b: Block, env: Env): Block {
    AdvanceCyclePhase(b.(mode := ProbeBw, cycle := b.cycle.(idx := CYCLE_LEN - 1 - env.rand % 7)), env)
  }

  function ResetMode(b: Block, env: Env): Block {
    if b.pipe.reached then ResetProbeBw(b, env) else b.(mode := Startup)
  }

  // ---------- the long-term estimator ----------

  function ResetLtInterval(lt: Lt, env: Env): Lt {
    lt.(lastStamp := U32(env.deliveredMstamp / 1000), lastDelivered := env.delivered, lastLost := env.lost, rttCnt := 0)
  }

  function ResetLt(lt: Lt, env: Env): Lt {
    ResetLtInterval(lt.(bw := 0, useBw := false, isSampling := false), env)
  }

  function Abs(x: int): int {
    if x < 0 then -x else x
  }

  /** Two rates differ by at most an eighth, or by at most 500 bytes per second, in 32-bit arithmetic. */
  predicate RatesAgree(last: u32, bw: u32, env: Env) {
    var diff := Abs(S32(bw - last));
    U32(diff * BBR_UNIT) <= U32(LT_BW_RATIO * last) || RateBytesPerSec(diff, env.mss, BBR_UNIT) <= LT_BW_DIFF
  }

  /** Two intervals have seen about the same bandwidth. */
  predicate LtConsistent(lt: Lt, bw: u32, env: Env) {
    lt.bw != 0 && RatesAgree(lt.bw, bw, env)
  }

  function LtIntervalDone(b: Block, bw: u32, env: Env): Block {
    if LtConsistent(b.lt, bw, env)
    then b.(lt := b.lt.(bw := U32(bw + b.lt.bw) / 2, useBw := true, rttCnt := 0), pacingGain := BBR_UNIT)
    else b.(lt := ResetLtInterval(b.lt.(bw := bw), env))
  }

  /** Less than 50/256 of what the interval delivered was lost, in 32-bit arithmetic, or nothing was delivered. */
  predicate LtLossLow(lt: Lt, env: Env) {
    var lost, delivered := U32(env.lost - lt.lastLost), U32(env.delivered - lt.lastDelivered);
    delivered == 0 || U32(lost * 256) < U32(LT_LOSS_THRESH * delivered)
  }

  /** Milliseconds since the interval began. */
  function LtInterval(lt: Lt, env: Env): u32 {
    U32(env.deliveredMstamp / 1000 - lt.lastStamp)
  }

  /** The end of `bbr_lt_bw_sampling`: a loss ends an interval that is long enough and lossy enough. */
  function LtEndInterval(b: Block, env: Env): Block {
    var t := LtInterval(b.lt, env);
    if LtLossLow(b.lt, env) || S32(t) < 1 then b
    else if t >= 0xFFFF_FFFF / 1000 then b.(lt := ResetLt(b.lt, env))
    else
      var bw := Div(U64(U32(env.delivered - b.lt.lastDelivered) * BW_UNIT), t * 1000);
      LtIntervalDone(b, U32(bw), env)
  }

  /** Counts the rounds for which the long-term rate has been in use, and stops using it after 48. */
  function LtCountUse(b: Block, env: Env): Block {
    if b.mode == ProbeBw && b.roundStart then
      var cnt := Bits(b.lt.rttCnt + 1, 128);
      if cnt >= LT_BW_MAX_RTTS then ResetProbeBw(b.(lt := ResetLt(b.lt, env)), env)
      else b.(lt := b.lt.(rttCnt := cnt))
    else b
  }

  function LtSampling(b: Block, losses: s32, isAppLimited: bool, env: Env): Block {
    if b.lt.useBw then LtCountUse(b, env)
    else if !b.lt.isSampling && losses == 0 then b
    else
      var lt := if b.lt.isSampling then b.lt else ResetLtInterval(b.lt, env).(isSampling := true);
      if isAppLimited then b.(lt := ResetLt(lt, env))
      else
        var counted := if b.roundStart then lt.(rttCnt := Bits(lt.rttCnt + 1, 128)) else lt;
        if counted.rttCnt < LT_INTVL_MIN_RTTS then b.(lt := counted)
        else if counted.rttCnt > 4 * LT_INTVL_MIN_RTTS then b.(lt := ResetLt(counted, env))
        else if losses == 0 then b.(lt := counted)
        else LtEndInterval(b.(lt := counted), env)
  }

  // ---------- the model, step by step ----------

  /** The next round trip has begun: what was in flight at its start has been delivered. */
  function StartRound(b: Block, rs: Sample, env: Env): Block {
    if Before(rs.priorDelivered, b.nextRttDelivered) then b
    else
      b.(nextRttDelivered := env.delivered, rttCnt := U32(b.rttCnt + 1),
         roundStart := true, packetConservation := false)
  }

  function UpdateBw(b: Block, rs: Sample, env: Env): Block {
    var b0 := b.(roundStart := false);
    if rs.delivered < 0 || rs.intervalUs <= 0 then b0
    else
      var b1 := LtSampling(StartRound(b0, rs, env), rs.losses, rs.isAppLimited, env);
      var bw := Div(rs.delivered * BW_UNIT, rs.intervalUs);
      if !rs.isAppLimited || bw >= b1.maxBw then b1.(maxBw := env.filteredBw) else b1
  }

  /** A round has passed: after five of them the older slot is cleared and becomes the current one. */
  function RotateSlots(a: Agg): Agg {
    var rtts := Min(0x1F, a.winRtts + 1);
    if rtts < EXTRA_ACKED_WIN_RTTS then a.(winRtts := rtts)
    else if a.winIdx == 0 then a.(winRtts := 0, winIdx := 1, slot1 := 0)
    else a.(winRtts := 0, winIdx := 0, slot0 := 0)
  }

  /** Packets expected since the epoch began, at the estimated bandwidth. */
  function ExpectedAcked(b: Block, a: Agg, env: Env): u32 {
    U32(U64(Bw(b) * StampDelta(env.deliveredMstamp, a.epochMstamp)) / BW_UNIT)
  }

  /** Starts a new epoch when ACKs have fallen behind or the count is about to leave its field. */
  predicate EpochEnds(a: Agg, expected: u32, acked: u32) {
    a.epochAcked <= expected || U32(a.epochAcked + acked) >= TWO20
  }

  /** The epoch with the new packets counted, and the excess over what was expected. */
  function CountAcked(b: Block, a: Agg, acked: u32, env: Env): (Agg, u32) {
    var expected := ExpectedAcked(b, a, env);
    var (a1, expected1) := if EpochEnds(a, expected, acked)
                           then (a.(epochAcked := 0, epochMstamp := env.deliveredMstamp), 0) else (a, expected);
    var total := Min(ACK_EPOCH_ACKED_MAX, U32(a1.epochAcked + acked));
    (a1.(epochAcked := total), U32(total - expected1))
  }

  function Record(a: Agg, extra: u32): Agg {
    if a.winIdx == 0 then (if extra > a.slot0 then a.(slot0 := U16(extra)) else a)
    else (if extra > a.slot1 then a.(slot1 := U16(extra)) else a)
  }

  function UpdateAggregation(b: Block, sndCwnd: u32, rs: Sample, env: Env): Block {
    if rs.ackedSacked == 0 || rs.delivered < 0 || rs.intervalUs <= 0 then b
    else
      var a := if b.roundStart then RotateSlots(b.agg) else b.agg;
      var (a1, extra) := CountAcked(b, a, rs.ackedSacked, env);
      b.(agg := Record(a1, Min(extra, sndCwnd)))
  }

  predicate NextCyclePhase(b: Block, rs: Sample, env: Env) {
    var isFullLength := StampDelta(env.deliveredMstamp, b.cycle.mstamp) > b.probe.minRttUs;
    var inflight := PacketsInNetAtEdt(b, rs.priorInFlight, env);
    if b.pacingGain == BBR_UNIT then isFullLength
    else if b.pacingGain > BBR_UNIT then
      isFullLength && (rs.losses != 0 || inflight >= Inflight(b, b.maxBw, b.pacingGain, env))
    else isFullLength || inflight <= Inflight(b, b.maxBw, BBR_UNIT, env)
  }

  function UpdateCyclePhase(b: Block, rs: Sample, env: Env): Block {
    if b.mode == ProbeBw && NextCyclePhase(b, rs, env) then AdvanceCyclePhase(b, env) else b
  }

  /** 1.25 times the last bandwidth that counted as growth, in 32 bits. */
  function BwThresh(fullBw: u32): u32 {
    U32(fullBw * 320 / 256)
  }

  /** The detector on its own: it looks at `bw` at the start of a round that the application did not limit. */
  function Detect(p: Pipe, bw: u32): Pipe {
    if p.reached then p
    else if bw >= BwThresh(p.fullBw) then Pipe(bw, 0, false)
    else
      var cnt := Bits(p.cnt + 1, 4);
      Pipe(p.fullBw, cnt, cnt >= FULL_BW_CNT)
  }

  function CheckFullBw(b: Block, rs: Sample): Block {
    if b.pipe.reached || !b.roundStart || rs.isAppLimited then b
    else b.(pipe := Detect(b.pipe, b.maxBw))
  }

  function CheckDrain(s: State, env: Env): State {
    var s1 :=
      if s.bbr.mode == Startup && s.bbr.pipe.reached then
        var b := s.bbr.(mode := Drain);
        State(s.sk.(sndSsthresh := Inflight(b, b.maxBw, BBR_UNIT, env)), b)
      else s;
    if s1.bbr.mode == Drain
       && PacketsInNetAtEdt(s1.bbr, env.inFlight, env) <= Inflight(s1.bbr, s1.bbr.maxBw, BBR_UNIT, env)
    then s1.(bbr := ResetProbeBw(s1.bbr, env))
    else s1
  }

  // ---------- PROBE_RTT ----------

  /** Remember the last good window; in recovery and in PROBE_RTT the window is cut, so keep the larger. */
  function SaveCwnd(s: State): Block {
    var prior := if s.bbr.prevCaState < TCP_CA_RECOVERY && s.bbr.mode != ProbeRtt then s.sk.sndCwnd
                 else Max(s.bbr.probe.priorCwnd, s.sk.sndCwnd);
    s.bbr.(probe := s.bbr.probe.(priorCwnd := prior))
  }

  predicate ProbeRttDone(b: Block, env: Env) {
    b.probe.doneStamp != 0 && After(env.now, b.probe.doneStamp)
  }

  function CheckProbeRttDone(s: State, env: Env): State {
    if !ProbeRttDone(s.bbr, env) then s
    else State(s.sk.(sndCwnd := Max(s.sk.sndCwnd, s.bbr.probe.priorCwnd)),
               ResetMode(s.bbr.(probe := s.bbr.probe.(minRttStamp := env.now)), env))
  }

  predicate FilterExpired(b: Block, env: Env) {
    After(env.now, U32(b.probe.minRttStamp + MIN_RTT_WIN_SEC * env.hz))
  }

  function TakeMinRtt(b: Block, rs: Sample, expired: bool, env: Env): Block {
    if rs.rttUs >= 0 && (rs.rttUs < b.probe.minRttUs || (expired && !rs.isAckDelayed))
    then b.(probe := b.probe.(minRttUs := U32(rs.rttUs), minRttStamp := env.now)) else b
  }

  predicate EntersProbeRtt(b: Block, env: Env) {
    FilterExpired(b, env) && !b.idleRestart && b.mode != ProbeRtt
  }

  function EnterProbeRtt(s: State): State {
    var saved := SaveCwnd(s.(bbr := s.bbr.(mode := ProbeRtt)));
    s.(bbr := saved.(probe := saved.probe.(doneStamp := 0)))
  }

  /** In the mode: wait for few packets in flight, then for the time and one round to pass. */
  function StayInProbeRtt(s: State, env: Env): State {
    var limit := U32(env.delivered + env.inFlight);
    var s1 := s.(sk := s.sk.(appLimited := if limit == 0 then 1 else limit));
    var p := s1.bbr.probe;
    if p.doneStamp == 0 && env.inFlight <= CWND_MIN_TARGET then
      s1.(bbr := s1.bbr.(probe := p.(doneStamp := U32(env.now + env.probeJiffies), roundDone := false),
                         nextRttDelivered := env.delivered))
    else if p.doneStamp != 0 then
      var s2 := if s1.bbr.roundStart then s1.(bbr := s1.bbr.(probe := p.(roundDone := true))) else s1;
      if s2.bbr.probe.roundDone then CheckProbeRttDone(s2, env) else s2
    else s1
  }

  function UpdateMinRtt(s: State, rs: Sample, env: Env): State {
    var s1 := s.(bbr := TakeMinRtt(s.bbr, rs, FilterExpired(s.bbr, env), env));
    var s2 := if EntersProbeRtt(s.bbr, env) then EnterProbeRtt(s1) else s1;
    var s3 := if s2.bbr.mode == ProbeRtt then StayInProbeRtt(s2, env) else s2;
    if rs.delivered > 0 then s3.(bbr := s3.bbr.(idleRestart := false)) else s3
  }

  function PacingGainOf(idx: nat): u32 {
    if idx == 0 then 320 else if idx == 1 then 192 else 256
  }

  function UpdateGains(b: Block): Block {
    match b.mode
    case Startup => b.(pacingGain := HIGH_GAIN, cwndGain := HIGH_GAIN)
    case Drain => b.(pacingGain := DRAIN_GAIN, cwndGain := HIGH_GAIN)
    case ProbeBw => b.(pacingGain := if b.lt.useBw then BBR_UNIT else PacingGainOf(b.cycle.idx), cwndGain := CWND_GAIN)
    case ProbeRtt => b.(pacingGain := BBR_UNIT, cwndGain := BBR_UNIT)
  }

  /** The steps of the model up to and including the cycle phase and the full-pipe detector. */
  function UpdateEstimates(s: State, rs: Sample, env: Env): State {
    var b1 := UpdateBw(s.bbr, rs, env);
    var b2 := UpdateAggregation(b1, s.sk.sndCwnd, rs, env);
    s.(bbr := CheckFullBw(UpdateCyclePhase(b2, rs, env), rs))
  }

  function UpdateModel(s: State, rs: Sample, env: Env): State {
    var s1 := UpdateMinRtt(CheckDrain(UpdateEstimates(s, rs, env), env), rs, env);
    s1.(bbr := UpdateGains(s1.bbr))
  }

  // ---------- the window ----------

  /** Recovery: the window to continue from, and whether packets are being conserved. */
  function RecoverOrRestore(s: State, losses: s32, acked: u32, env: Env): (Block, u32, bool) {
    var prev, state := s.bbr.prevCaState, env.caState;
    var cut: u32 := if losses > 0 then Max(S32(s.sk.sndCwnd - losses), 1) else s.sk.sndCwnd;
    var entering := state == TCP_CA_RECOVERY && prev != TCP_CA_RECOVERY;
    var leaving := prev >= TCP_CA_RECOVERY && state < TCP_CA_RECOVERY;
    var cwnd: u32 := if entering then U32(env.inFlight + acked)
                     else if leaving then Max(cut, s.bbr.probe.priorCwnd) else cut;
    var b := s.bbr.(
      packetConservation := entering || (!leaving && s.bbr.packetConservation),
      nextRttDelivered := if entering then env.delivered else s.bbr.nextRttDelivered,
      prevCaState := state);
    (b, if b.packetConservation then Max(cwnd, U32(env.inFlight + acked)) else cwnd, b.packetConservation)
  }

  function TargetCwnd(b: Block, bw: u32, gain: u32, env: Env): u32 {
    QuantizationBudget(b, U32(Bdp(bw, b.probe.minRttUs, gain) + AckAggregationCwnd(b)), env)
  }

  /** Slow start towards the target, or down to it once the pipe has been full. */
  function Approach(b: Block, cwnd: u32, acked: u32, target: u32, env: Env): u32 {
    var next := if b.pipe.reached then Min(U32(cwnd + acked), target)
                else if cwnd < target || env.delivered < TCP_INIT_CWND then U32(cwnd + acked)
                else cwnd;
    Max(next, CWND_MIN_TARGET)
  }

  /** The global cap, and the smaller one of PROBE_RTT. */
  function Cap(b: Block, cwnd: u32, env: Env): u32 {
    var capped := Min(cwnd, env.sndCwndClamp);
    if b.mode == ProbeRtt then Min(capped, CWND_MIN_TARGET) else capped
  }

  function SetCwnd(s: State, losses: s32, acked: u32, bw: u32, gain: u32, env: Env): State {
    if acked == 0 then s.(sk := s.sk.(sndCwnd := Cap(s.bbr, s.sk.sndCwnd, env)))
    else
      var (b, cwnd, conserve) := RecoverOrRestore(s, losses, acked, env);
      var next := if conserve then cwnd else Approach(b, cwnd, acked, TargetCwnd(b, bw, gain, env), env);
      State(s.sk.(sndCwnd := Cap(b, next, env)), b)
  }

  // ---------- the callbacks ----------

  function OnAck(s: State, rs: Sample, env: Env): State {
    var s1 := UpdateModel(s, rs, env);
    var s2 := SetPacingRate(s1, Bw(s1.bbr), s1.bbr.pacingGain, env);
    SetCwnd(s2, rs.losses, rs.ackedSacked, Bw(s1.bbr), s1.bbr.cwndGain, env)
  }

  const FRESH := Block(Startup, TCP_CA_OPEN, false, false, false, false, 0, 0, 0, 0, 0,
                       Lt(false, 0, false, 0, 0, 0, 0), Agg(0, 0, 0, 0, 0, 0), Pipe(0, 0, false),
                       Probe(NO_RTT, 0, 0, false, 0), Cycle(0, 0))

  /** `bbr_init`, with the kernel's own minimum round-trip time as a starting value. */
  function Init(sk: Sock, minRttUs: u32, env: Env): State {
    var b := FRESH.(nextRttDelivered := env.delivered, probe := Probe(minRttUs, env.now, 0, false, 0),
                    lt := ResetLt(FRESH.lt, env), agg := FRESH.agg.(epochMstamp := env.tcpMstamp));
    InitPacingRateFromRtt(State(sk.(sndSsthresh := 0x7FFF_FFFF), b), env)
  }

  /** A new epoch of ACKs begins after an idle period. */
  function AtIdle(s: State, env: Env): State {
    s.(bbr := s.bbr.(idleRestart := true, agg := s.bbr.agg.(epochMstamp := env.tcpMstamp, epochAcked := 0)))
  }

  /** Sending restarts after an idle period that the application caused. */
  function TxStart(s: State, env: Env): State {
    if s.sk.appLimited == 0 then s
    else
      var s1 := AtIdle(s, env);
      match s1.bbr.mode
      case ProbeBw => SetPacingRate(s1, Bw(s1.bbr), BBR_UNIT, env)
      case ProbeRtt => CheckProbeRttDone(s1, env)
      case _ => s1
  }

  function UndoCwnd(b: Block, env: Env): Block {
    b.(pipe := b.pipe.(fullBw := 0, cnt := 0), lt := ResetLt(b.lt, env))
  }

  /** A retransmission timeout counts as the end of a round. */
  function AtLoss(b: Block): Block {
    b.(prevCaState := TCP_CA_LOSS, pipe := b.pipe.(fullBw := 0), roundStart := true)
  }

  function SetState(b: Block, newState: u8, env: Env): Block {
    if newState == TCP_CA_LOSS
    then LtSampling(AtLoss(b), 1, false, env)
    else b
  }

  /** `Kernel` stands for everything the kernel does to the socket between two callbacks. */
  datatype Event =
    | Ack(rs: Sample)
    | Idle
    | Undo
    | Ssthresh
    | NewState(newState: u8)
    | Kernel(sk: Sock)

  function Step(s: State, e: Event, env: Env): State {
    match e
    case Ack(rs) => OnAck(s, rs, env)
    case Idle => TxStart(s, env)
    case Undo => s.(bbr := UndoCwnd(s.bbr, env))
    case Ssthresh => s.(bbr := SaveCwnd(s))
    case NewState(newState) => s.(bbr := SetState(s.bbr, newState, env))
    case Kernel(sk) => s.(sk := sk)
  }

  function Run(s: State, events: seq<(Event, Env)>): State {
    if events == [] then s
    else Step(Run(s, events[..|events| - 1]), events[|events| - 1].0, events[|events| - 1].1)
  }
}
