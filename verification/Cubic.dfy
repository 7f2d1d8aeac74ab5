/**
 CUBIC's callbacks as functions on the connection state, and what holds in every
 state they can reach.
 */
module Cubic {
  import opened Words
  import opened Tcp
  import opened CubicCurve

  const BETA := 717
  const BETA_SCALE := 15  // 8 (1024 + beta) / 3 / (1024 - beta)
  const HYSTART_MIN_SAMPLES := 8
  const HYSTART_LOW_WINDOW := 16
  const HYSTART_ACK_DELTA_US := 2000
  const NO_RTT: u32 := 0xFFFF_FFFF
  const TCP_CA_LOSS := 4

  /** CONFIG_HZ; the code asks for less than 100 000 jiffies per second. */
  type hertz = h: nat | 0 < h < 100_000 witness 1000

  /** CUBIC's private control block. */
  datatype Bictcp = Bictcp(
    cnt: u32,
    lastMaxCwnd: u32,
    lastCwnd: u32,
    lastTime: u32,
    bicOriginPoint: u32,
    bicK: u32,
    delayMin: u32,
    epochStart: u32,
    ackCnt: u32,
    tcpCwnd: u32,
    sampleCnt: u8,
    found: bool,
    roundStart: u32,
    endSeq: u32,
    lastAck: u32,
    currRtt: u32)

  datatype State = State(tp: Tp, ca: Bictcp)

  /** What a callback reads from the kernel: clocks, sequence numbers and the pacing settings. */
  datatype Env = Env(
    jiffies: u32,
    hz: hertz,
    sndNxt: u32,
    lsndtime: u32,
    clockUs: u32,
    pacingRate: u64,
    pacingNone: bool)

  const ZERO := Bictcp(0, 0, 0, 0, 0, 0, 0, 0, 0, 0, 0, false, 0, 0, 0, 0)

  function Reset(ca: Bictcp): Bictcp {
    Bictcp(0, 0, 0, 0, 0, 0, 0, 0, 0, 0,
           ca.sampleCnt, false, ca.roundStart, ca.endSeq, ca.lastAck, ca.currRtt)
  }

  function HystartReset(ca: Bictcp, env: Env): Bictcp {
    ca.(roundStart := env.clockUs, lastAck := env.clockUs, endSeq := env.sndNxt,
        currRtt := NO_RTT, sampleCnt := 0)
  }

  function Init(tp: Tp, ca: Bictcp, env: Env): State {
    State(tp, HystartReset(Reset(ca), env))
  }

  // ---------- bictcp_update ----------

  /** Time since the start of the epoch plus the smallest delay, in units of 1/1024 second. */
  function ElapsedTime(ca: Bictcp, now: u32, hz: hertz): u64 {
    var t := U64(S32(now - ca.epochStart) * Div(1_000_000, hz));
    U64(U64(t + ca.delayMin) * 1024) / 1_000_000
  }

  /**
   Starts an epoch unless one is running: the curve is anchored at the window of the last loss, or at the current one.
   */
  function StartEpoch(ca: Bictcp, cwnd: u32, acked: u32, now: u32): Bictcp {
    if ca.epochStart != 0 then ca
    else
      ca.(epochStart := now, ackCnt := acked, tcpCwnd := cwnd,
          bicK := if ca.lastMaxCwnd <= cwnd then 0 else TimeToOrigin(ca.lastMaxCwnd, cwnd),
          bicOriginPoint := if ca.lastMaxCwnd <= cwnd then cwnd else ca.lastMaxCwnd)
  }

  function CurveTarget(ca: Bictcp, now: u32, hz: hertz): u32 {
    Target(ca.bicOriginPoint, ca.bicK, ElapsedTime(ca, now, hz))
  }

  /** The number of ACKed packets per packet of growth that takes the window to `target` in one round trip. */
  function PriceFor(ca: Bictcp, cwnd: u32, target: u32): u32 {
    var cnt := if target > cwnd then Div(cwnd, target - cwnd) else U32(100 * cwnd);
    if ca.lastMaxCwnd == 0 && cnt > 20 then 20 else cnt
  }

  /** The window a Reno flow would have by now, and a price no higher than that window asks for. */
  function TcpFriendly(ca: Bictcp, cwnd: u32): Bictcp {
    var perPacket := U32(cwnd * BETA_SCALE) / 8;
    var c := if ca.ackCnt > perPacket && perPacket != 0
             then ca.(ackCnt := Rem(ca.ackCnt, perPacket), tcpCwnd := U32(ca.tcpCwnd + Div(ca.ackCnt, perPacket)))
             else ca;
    if c.tcpCwnd > cwnd then c.(cnt := Min(c.cnt, Div(cwnd, c.tcpCwnd - cwnd))) else c
  }

  /** The window is unchanged and was looked at less than 1/32 second ago. */
  predicate RecentlyUpdated(ca: Bictcp, cwnd: u32, now: u32, hz: hertz) {
    ca.lastCwnd == cwnd && 0 <= S32(now - ca.lastTime) <= hz / 32
  }

  /** The curve is evaluated at most once per jiffy. */
  predicate SameJiffy(ca: Bictcp, now: u32) {
    ca.epochStart != 0 && now == ca.lastTime
  }

  /** The state in which the curve is evaluated. */
  function AtCurve(ca: Bictcp, cwnd: u32, acked: u32, now: u32): Bictcp {
    StartEpoch(ca.(ackCnt := U32(ca.ackCnt + acked), lastCwnd := cwnd, lastTime := now), cwnd, acked, now)
  }

  function Update(ca: Bictcp, cwnd: u32, acked: u32, now: u32, hz: hertz): Bictcp {
    var counted := ca.(ackCnt := U32(ca.ackCnt + acked));
    if RecentlyUpdated(ca, cwnd, now, hz) then counted
    else
      var priced :=
        if SameJiffy(ca, now) then counted
        else
          var c := AtCurve(ca, cwnd, acked, now);
          c.(cnt := PriceFor(c, cwnd, CurveTarget(c, now, hz)));
      var friendly := TcpFriendly(priced, cwnd);
      friendly.(cnt := Max(friendly.cnt, 2))
  }

  // ---------- the callbacks ----------

  /** The packets left for congestion avoidance, after slow start has taken its share. */
  function AfterSlowStart(s: State, ack: u32, acked: u32, env: Env): (State, u32) {
    if !InSlowStart(s.tp) then (s, acked)
    else
      var ca := if After(ack, s.ca.endSeq) then HystartReset(s.ca, env) else s.ca;
      var (tp, left) := SlowStart(s.tp, acked);
      (State(tp, ca), left)
  }

  function CongAvoid(s: State, ack: u32, acked: u32, env: Env): State {
    if !IsCwndLimited(s.tp) then s
    else
      var (s1, left) := AfterSlowStart(s, ack, acked, env);
      if InSlowStart(s.tp) && left == 0 then s1
      else
        var ca := Update(s1.ca, s1.tp.sndCwnd, left, env.jiffies, env.hz);
        State(CongAvoidAi(s1.tp, ca.cnt, left), ca)
  }

  /**
   The new threshold after a loss; the window of the loss is remembered, a smaller one than last time further reduced.
   */
  function RecalcSsthresh(s: State): (Bictcp, u32) {
    var cwnd := s.tp.sndCwnd;
    (s.ca.(epochStart := 0,
           lastMaxCwnd := if cwnd < s.ca.lastMaxCwnd then U32(cwnd * (1024 + BETA)) / 2048 else cwnd),
     Max(U32(cwnd * BETA) / 1024, 2))
  }

  function SetState(ca: Bictcp, newState: u8, env: Env): Bictcp {
    if newState == TCP_CA_LOSS then HystartReset(Reset(ca), env) else ca
  }

  /** Sending restarts after an idle period: the epoch is shifted by its length, but not past now. */
  function TxStart(ca: Bictcp, env: Env): Bictcp {
    var idle := S32(env.jiffies - env.lsndtime);
    if ca.epochStart == 0 || idle <= 0 then ca
    else
      var shifted := U32(ca.epochStart + idle);
      ca.(epochStart := if After(shifted, env.jiffies) then env.jiffies else shifted)
  }

  function AckDelay(env: Env): u32 {
    if env.pacingRate == 0 then 0 else Min(1000, Div(65536 * 4 * 1_000_000, env.pacingRate))
  }

  /** HyStart's first test: ACKs have kept coming closely spaced for long enough. */
  predicate LongAckTrain(ca: Bictcp, env: Env) {
    var threshold := U32(ca.delayMin + AckDelay(env));
    && S32(env.clockUs - ca.lastAck) <= HYSTART_ACK_DELTA_US
    && U32(env.clockUs - ca.roundStart) > if env.pacingNone then threshold / 2 else threshold
  }

  /** HyStart's second test: the smallest of eight delays exceeds the smallest ever by a margin. */
  predicate DelayIncreased(ca: Bictcp) {
    && ca.sampleCnt >= HYSTART_MIN_SAMPLES
    && ca.currRtt > U32(ca.delayMin + Min(Max(ca.delayMin / 8, 4000), 16000))
  }

  function HystartUpdate(s: State, delay: u32, env: Env): State {
    var train := LongAckTrain(s.ca, env);
    var isClose := S32(env.clockUs - s.ca.lastAck) <= HYSTART_ACK_DELTA_US;
    var ca := s.ca.(lastAck := if isClose then env.clockUs else s.ca.lastAck);
    var sampled := if ca.sampleCnt < HYSTART_MIN_SAMPLES
                   then ca.(currRtt := Min(ca.currRtt, delay), sampleCnt := ca.sampleCnt + 1) else ca;
    if train || DelayIncreased(ca)
    then State(s.tp.(sndSsthresh := s.tp.sndCwnd), sampled.(found := true))
    else State(s.tp, sampled)
  }

  /** Samples without a time stamp and those of the first second of an epoch are discarded. */
  predicate Discarded(ca: Bictcp, rttUs: s32, env: Env) {
    rttUs < 0 || (ca.epochStart != 0 && 0 <= S32(env.jiffies - ca.epochStart) < env.hz)
  }

  function PktsAcked(s: State, rttUs: s32, env: Env): State {
    if Discarded(s.ca, rttUs, env) then s
    else
      var delay: u32 := Max(rttUs, 1);
      var ca := s.ca.(delayMin := if s.ca.delayMin == 0 then delay else Min(s.ca.delayMin, delay));
      if !ca.found && InSlowStart(s.tp) && s.tp.sndCwnd >= HYSTART_LOW_WINDOW
      then HystartUpdate(State(s.tp, ca), delay, env)
      else State(s.tp, ca)
  }

  /** `Kernel` stands for everything the kernel does to the window between two callbacks. */
  datatype Event =
    | Acked(ack: u32, acked: u32)
    | Sample(rttUs: s32)
    | Loss
    | NewState(newState: u8)
    | Restart
    | Kernel(tp: Tp)

  function Step(s: State, e: Event, env: Env): State {
    match e
    case Acked(ack, acked) => CongAvoid(s, ack, acked, env)
    case Sample(rttUs) => PktsAcked(s, rttUs, env)
    case Loss => s.(ca := RecalcSsthresh(s).0)
    case NewState(newState) => s.(ca := SetState(s.ca, newState, env))
    case Restart => s.(ca := TxStart(s.ca, env))
    case Kernel(tp) => s.(tp := tp)
  }

  /** The state after a run of events, the last one last. */
  function Run(s: State, events: seq<(Event, Env)>): State {
    if events == [] then s
    else
      var (e, env) := events[|events| - 1];
      Step(Run(s, events[..|events| - 1]), e, env)
  }
}
