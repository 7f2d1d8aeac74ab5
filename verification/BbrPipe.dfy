/**
 BBR's full-pipe detector terminates: how often the bandwidth can grow by a quarter, and
 after how many rounds the verdict must come.
 */
module BbrPipe {
  import opened Words
  import opened BbrRates
  import opened Bbr
  import opened BbrFrames

  /** The largest bandwidth whose threshold fits 32 bits. */
  const BW_LIMIT := 3435973836
  const MAX_GROWTHS := 93

  /** The detector over a sequence of bandwidths, the last one last. */
  function Detections(p: Pipe, bws: seq<u32>): Pipe {
    if bws == [] then p else Detect(Detections(p, bws[..|bws| - 1]), bws[|bws| - 1])
  }

  /** This bandwidth counts as growth. */
  predicate Grows(p: Pipe, bw: u32) {
    !p.reached && bw >= BwThresh(p.fullBw)
  }

  function Growths(p: Pipe, bws: seq<u32>): nat {
    if bws == [] then 0
    else Growths(p, bws[..|bws| - 1]) + if Grows(Detections(p, bws[..|bws| - 1]), bws[|bws| - 1]) then 1 else 0
  }

  /** The least bandwidth after `n` growths from `x`. */
  function Level(x: nat, n: nat): nat {
    if n == 0 then x else Level(x, n - 1) * 5 / 4
  }

  lemma {:induction false} LevelMono(x: nat, m: nat, n: nat)
    requires m <= n
    ensures Level(x, m) <= Level(x, n)
    decreases n
  {
    if m < n {
      LevelMono(x, m, n - 1);
    }
  }

  /** Five growths, by explicit lower bounds. */
  lemma FiveMore(m: nat, v0: nat, v1: nat, v2: nat, v3: nat, v4: nat, v5: nat)
    requires Level(4, m) >= v0 && 4 * v1 <= 5 * v0 && 4 * v2 <= 5 * v1 && 4 * v3 <= 5 * v2
    requires 4 * v4 <= 5 * v3 && 4 * v5 <= 5 * v4
    ensures Level(4, m + 5) >= v5
    ensures Level(4, m + 4) >= v4
  {
    OneMore(m, v0, v1);
    OneMore(m + 1, v1, v2);
    OneMore(m + 2, v2, v3);
    OneMore(m + 3, v3, v4);
    OneMore(m + 4, v4, v5);
  }

  lemma OneMore(m: nat, v0: nat, v1: nat)
    requires Level(4, m) >= v0 && 4 * v1 <= 5 * v0
    ensures Level(4, m + 1) >= v1
  {
  }

  /** From four, 94 growths lead past every bandwidth whose threshold fits. */
  lemma LevelExceedsLimit(n: nat)
    requires n == MAX_GROWTHS + 1
    ensures Level(4, n) > BW_LIMIT
  {
    var m := n - 94;
    assert Level(4, m) >= 4;
    FiveMore(m, 4, 5, 6, 7, 8, 10);
    FiveMore(m + 5, 10, 12, 15, 18, 22, 27);
    FiveMore(m + 10, 27, 33, 41, 51, 63, 78);
    FiveMore(m + 15, 78, 97, 121, 151, 188, 235);
    FiveMore(m + 20, 235, 293, 366, 457, 571, 713);
    FiveMore(m + 25, 713, 891, 1113, 1391, 1738, 2172);
    SixtyMore(m + 30);
  }

  lemma SixtyMore(m: nat)
    requires Level(4, m) >= 2172
    ensures Level(4, m + 64) > BW_LIMIT
  {
    FiveMore(m, 2172, 2715, 3393, 4241, 5301, 6626);
    FiveMore(m + 5, 6626, 8282, 10352, 12940, 16175, 20218);
    FiveMore(m + 10, 20218, 25272, 31590, 39487, 49358, 61697);
    FiveMore(m + 15, 61697, 77121, 96401, 120501, 150626, 188282);
    FiveMore(m + 20, 188282, 235352, 294190, 367737, 459671, 574588);
    FiveMore(m + 25, 574588, 718235, 897793, 1122241, 1402801, 1753501);
    ThirtyMore(m + 30);
  }

  lemma ThirtyMore(m: nat)
    requires Level(4, m) >= 1753501
    ensures Level(4, m + 34) > BW_LIMIT
  {
    FiveMore(m, 1753501, 2191876, 2739845, 3424806, 4281007, 5351258);
    FiveMore(m + 5, 5351258, 6689072, 8361340, 10451675, 13064593, 16330741);
    FiveMore(m + 10, 16330741, 20413426, 25516782, 31895977, 39869971, 49837463);
    FiveMore(m + 15, 49837463, 62296828, 77871035, 97338793, 121673491, 152091863);
    FiveMore(m + 20, 152091863, 190114828, 237643535, 297054418, 371318022, 464147527);
    FiveMore(m + 25, 464147527, 580184408, 725230510, 906538137, 1133172671, 1416465838);
    FiveMore(m + 30, 1416465838, 1770582297, 2213227871, 2766534838, 3458168547, 4322710683);
  }

  /** A run of bandwidths within the limit, from a bandwidth of at least four with nothing counted. */
  ghost predicate Fair(p: Pipe, bws: seq<u32>) {
    && !p.reached && p.cnt == 0 && 4 <= p.fullBw <= BW_LIMIT
    && (forall i :: 0 <= i < |bws| ==> bws[i] <= BW_LIMIT)
  }

  lemma {:induction false} DetectionBound(p: Pipe, bws: seq<u32>)
    requires Fair(p, bws)
    ensures var q, g := Detections(p, bws), Growths(p, bws);
            && Level(4, g) <= q.fullBw <= BW_LIMIT
            && (!q.reached ==> q.cnt <= 2 && |bws| <= 3 * g + q.cnt)
  {
    if bws != [] {
      var init, bw := bws[..|bws| - 1], bws[|bws| - 1];
      DetectionBound(p, init);
    }
  }

  /** At most 93 rounds count as growth, and after 282 rounds the verdict is there. */
  lemma DetectorTerminates(p: Pipe, bws: seq<u32>)
    requires Fair(p, bws)
    ensures Growths(p, bws) <= MAX_GROWTHS
    ensures |bws| >= 3 * MAX_GROWTHS + 3 ==> Detections(p, bws).reached
  {
    DetectionBound(p, bws);
    LevelExceedsLimit(MAX_GROWTHS + 1);
    if Growths(p, bws) > MAX_GROWTHS {
      LevelMono(4, MAX_GROWTHS + 1, Growths(p, bws));
    }
  }

  // ---------- why both limits are needed ----------

  /** An unchanged bandwidth counts as growth exactly below four and above the limit. */
  lemma StallsAt(bw: u32)
    ensures bw >= BwThresh(bw) <==> bw <= 3 || bw > BW_LIMIT
  {
  }

  /**
   There the verdict never comes, however long the bandwidth stays the same; everywhere else it comes after three
   rounds.
   */
  lemma {:induction false} ConstantBandwidth(bw: u32, bws: seq<u32>)
    requires forall i :: 0 <= i < |bws| ==> bws[i] == bw
    ensures var q := Detections(Pipe(bw, 0, false), bws);
            if bw <= 3 || bw > BW_LIMIT then !q.reached else q.reached <==> |bws| >= 3
    ensures var q := Detections(Pipe(bw, 0, false), bws);
            && q.fullBw == bw && (bw <= 3 || bw > BW_LIMIT ==> q.cnt == 0)
            && (3 < bw <= BW_LIMIT ==> q.cnt == Min(|bws|, 3))
  {
    StallsAt(bw);
    if bws != [] {
      ConstantBandwidth(bw, bws[..|bws| - 1]);
    }
  }

  // ---------- in the state machine ----------

  /** The detector looks at the bandwidth at this event. */
  predicate Detecting(s: State, e: Event, env: Env) {
    e.Ack? && UpdateBw(s.bbr, e.rs, env).roundStart && !e.rs.isAppLimited
  }

  /** The bandwidths that the detector looks at during a run. */
  function Inputs(s: State, events: seq<(Event, Env)>): seq<u32> {
    if events == [] then []
    else
      var init := events[..|events| - 1];
      var (e, env) := events[|events| - 1];
      Inputs(s, init) + if Detecting(Run(s, init), e, env) then [UpdateBw(Run(s, init).bbr, e.rs, env).maxBw] else []
  }

  /** Neither an undo nor a retransmission timeout, the two events that restart the detector. */
  predicate Undisturbed(events: seq<(Event, Env)>) {
    forall x :: x in events ==> !x.0.Undo? && x.0 != NewState(TCP_CA_LOSS)
  }

  lemma StepDetects(s: State, e: Event, env: Env)
    requires !e.Undo? && e != NewState(TCP_CA_LOSS)
    ensures Step(s, e, env).bbr.pipe
            == if Detecting(s, e, env) then Detect(s.bbr.pipe, UpdateBw(s.bbr, e.rs, env).maxBw) else s.bbr.pipe
  {
    match e
    case Ack(rs) =>
      AckDetects(s, rs, env);
    case Idle =>
      var s1 := AtIdle(s, env);
      SetPacingRateFrame(s1, Bw(s1.bbr), BBR_UNIT, env);
      CheckProbeRttDoneFrame(s1, env);
    case _ =>
  }

  lemma AckDetects(s: State, rs: Sample, env: Env)
    ensures OnAck(s, rs, env).bbr.pipe
            == if Detecting(s, Ack(rs), env) then Detect(s.bbr.pipe, UpdateBw(s.bbr, rs, env).maxBw) else s.bbr.pipe
  {
    UpdateBwFrame(s.bbr, rs, env);
    var b1 := UpdateBw(s.bbr, rs, env);
    SmallFrames(b1, s.sk.sndCwnd, rs, env);
    var b2 := UpdateAggregation(b1, s.sk.sndCwnd, rs, env);
    SmallFrames(b2, s.sk.sndCwnd, rs, env);
    var s1 := UpdateEstimates(s, rs, env);
    CheckDrainFrame(s1, env);
    UpdateMinRttFrame(CheckDrain(s1, env), rs, env);
    OnAckFrame(s, rs, env);
  }

  lemma DetectionsAppend(p: Pipe, bws: seq<u32>, bw: u32)
    ensures Detections(p, bws + [bw]) == Detect(Detections(p, bws), bw)
  {
    assert (bws + [bw])[..|bws|] == bws;
  }

  lemma {:induction false} RunDetects(s: State, events: seq<(Event, Env)>)
    requires Undisturbed(events)
    ensures Run(s, events).bbr.pipe == Detections(s.bbr.pipe, Inputs(s, events))
  {
    if events != [] {
      var init := events[..|events| - 1];
      var (e, env) := events[|events| - 1];
      assert events == init + [events[|events| - 1]];
      RunDetects(s, init);
      StepDetects(Run(s, init), e, env);
      if Detecting(Run(s, init), e, env) {
        DetectionsAppend(s.bbr.pipe, Inputs(s, init), UpdateBw(Run(s, init).bbr, e.rs, env).maxBw);
      } else {
        assert Inputs(s, events) == Inputs(s, init);
      }
    }
  }

  /**
   In any run without an undo or a retransmission timeout, with bandwidths within the limit, the
   pipe is declared full within 282 rounds that the application does not limit.
   */
  lemma PipeIsFound(s: State, events: seq<(Event, Env)>)
    requires Undisturbed(events) && Fair(s.bbr.pipe, Inputs(s, events))
    ensures |Inputs(s, events)| >= 3 * MAX_GROWTHS + 3 ==> Run(s, events).bbr.pipe.reached
    ensures Growths(s.bbr.pipe, Inputs(s, events)) <= MAX_GROWTHS
  {
    RunDetects(s, events);
    DetectorTerminates(s.bbr.pipe, Inputs(s, events));
  }
}
