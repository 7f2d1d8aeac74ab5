/**
 What Vegas keeps over whole runs: its two filters are minima over their own windows, and with
 steady samples the window moves straight to a resting point and stays there.
 */
module VegasRuns {
  import opened Words
  import opened Tcp
  import opened Vegas
  import Reno

  // ---------- the filters ----------

  /** The smallest sample, capped at the filters' initial value. */
  function Smallest(samples: seq<u32>): u32 {
    if samples == [] then NO_RTT else Min(Smallest(samples[..|samples| - 1]), samples[|samples| - 1])
  }

  lemma {:induction false} SmallestIsMinimum(samples: seq<u32>)
    ensures Smallest(samples) <= NO_RTT
    ensures forall x :: x in samples ==> Smallest(samples) <= x
    ensures Smallest(samples) == NO_RTT || Smallest(samples) in samples
  {
    if samples != [] {
      var init := samples[..|samples| - 1];
      SmallestIsMinimum(init);
      assert samples == init + [samples[|samples| - 1]];
    }
  }

  /** Fewer samples have a larger minimum. */
  lemma {:induction false} SmallestOfMore(older: seq<u32>, samples: seq<u32>)
    ensures Smallest(older + samples) <= Smallest(samples)
  {
    SmallestIsMinimum(samples);
    SmallestIsMinimum(older + samples);
    if Smallest(samples) != NO_RTT {
      assert Smallest(samples) in older + samples;
    }
  }

  /** Since the connection began or last restarted from idle: the samples after one more event. */
  function NextBase(samples: seq<u32>, e: Event): seq<u32> {
    match e
    case Sample(rttUs) => if rttUs < 0 then samples else samples + [Vrtt(rttUs)]
    case RestartIdle => []
    case _ => samples
  }

  /** In the current round trip: a restart, a return to the open state and the end of a round begin a new one. */
  function NextRound(samples: seq<u32>, v: Block, e: Event): seq<u32> {
    match e
    case Sample(rttUs) => if rttUs < 0 then samples else samples + [Vrtt(rttUs)]
    case RestartIdle => []
    case NewState(caState) => if caState == TCP_CA_OPEN then [] else samples
    case Acked(ack, _) => if EndsRound(v, ack) then [] else samples
    case Kernel(_) => samples
  }

  function SinceRestart(events: seq<(Event, Env)>): seq<u32> {
    if events == [] then []
    else NextBase(SinceRestart(events[..|events| - 1]), events[|events| - 1].0)
  }

  function SinceRound(s: State, events: seq<(Event, Env)>): seq<u32> {
    if events == [] then []
    else
      var init := events[..|events| - 1];
      NextRound(SinceRound(s, init), Run(s, init).vegas, events[|events| - 1].0)
  }

  /** The samples of the round are the latest of those since the restart. */
  lemma {:induction false} RoundIsRecent(s: State, events: seq<(Event, Env)>) returns (older: seq<u32>)
    ensures SinceRestart(events) == older + SinceRound(s, events)
  {
    older := [];
    if events != [] {
      older := RoundIsRecent(s, events[..|events| - 1]);
      if SinceRound(s, events) == [] {
        older := SinceRestart(events);
      }
    }
  }

  lemma {:induction false} SamplesPositive(events: seq<(Event, Env)>)
    ensures forall x :: x in SinceRestart(events) ==> x >= 1
  {
    if events != [] {
      SamplesPositive(events[..|events| - 1]);
    }
  }

  lemma SmallestAppend(samples: seq<u32>, x: u32)
    ensures Smallest(samples + [x]) == Min(Smallest(samples), x)
  {
    assert (samples + [x])[..|samples|] == samples;
  }

  /** The two fields are the minima of these samples, and the count is that of the second, in 16 bits. */
  ghost predicate Filters(v: Block, base: seq<u32>, round: seq<u32>) {
    && v.baseRtt == Smallest(base)
    && v.minRtt == Smallest(round)
    && v.cntRtt == |round| % TWO16
  }

  lemma SampleKeepsFilters(v: Block, rttUs: s32, base: seq<u32>, round: seq<u32>)
    requires Filters(v, base, round) && rttUs >= 0
    ensures Filters(PktsAcked(v, rttUs), base + [Vrtt(rttUs)], round + [Vrtt(rttUs)])
  {
    SmallestAppend(base, Vrtt(rttUs));
    SmallestAppend(round, Vrtt(rttUs));
    CountWraps(|round|);
  }

  lemma CountWraps(n: nat)
    ensures U16(n % TWO16 + 1) == (n + 1) % TWO16
  {
  }

  lemma StepKeepsFilters(s: State, e: Event, env: Env, base: seq<u32>, round: seq<u32>)
    requires Filters(s.vegas, base, round)
    ensures Filters(Step(s, e, env).vegas, NextBase(base, e), NextRound(round, s.vegas, e))
  {
    match e
    case Sample(rttUs) =>
      if rttUs >= 0 {
        SampleKeepsFilters(s.vegas, rttUs, base, round);
      }
    case Acked(ack, acked) =>
      assert (Step(s, e, env).vegas == s.vegas) || EndsRound(s.vegas, ack);
    case _ =>
  }

  /** After any run, each filter holds the minimum of the samples since its own last reset. */
  lemma {:induction false} FiltersAreMinima(tp: Tp, v: Block, env0: Env, events: seq<(Event, Env)>)
    ensures var s0 := Init(tp, v, env0);
            Filters(Run(s0, events).vegas, SinceRestart(events), SinceRound(s0, events))
  {
    var s0 := Init(tp, v, env0);
    if events != [] {
      var init := events[..|events| - 1];
      var (e, env) := events[|events| - 1];
      FiltersAreMinima(tp, v, env0, init);
      StepKeepsFilters(Run(s0, init), e, env, SinceRestart(init), SinceRound(s0, init));
    }
  }

  /** Hence no division by zero and no negative queueing delay, in any reachable state. */
  lemma FiltersOrdered(tp: Tp, v: Block, env0: Env, events: seq<(Event, Env)>)
    ensures var after := Run(Init(tp, v, env0), events).vegas;
            1 <= after.baseRtt <= after.minRtt <= NO_RTT
  {
    var s0 := Init(tp, v, env0);
    FiltersAreMinima(tp, v, env0, events);
    var older := RoundIsRecent(s0, events);
    SmallestOfMore(older, SinceRound(s0, events));
    SmallestIsMinimum(SinceRestart(events));
    SmallestIsMinimum(SinceRound(s0, events));
    SamplesPositive(events);
  }

  // ---------- leaving slow start ----------

  /** When packets queue, the window is cut to the rate actually achieved, plus one, and is never raised. */
  lemma SlowStartCut(tp: Tp, rtt: u32, base: u32, acked: u32)
    requires 1 <= base < rtt && tp.sndCwnd >= 1 && InSlowStart(tp) && Diff(tp.sndCwnd, rtt, base) > GAMMA
    ensures var after, target := Compare(tp, rtt, base, acked), tp.sndCwnd * base / rtt;
            target < tp.sndCwnd && after.sndCwnd == target + 1 && !InSlowStart(after)
  {
    ProductFits(tp.sndCwnd, base);
    TargetBelow(tp.sndCwnd, base, rtt);
    DivIsQuotient(tp.sndCwnd * base, rtt);
  }

  /** The packets queued: the window times the queueing delay per propagation delay, while that product fits 32 bits. */
  lemma QueuedPackets(cwnd: u32, rtt: u32, base: u32)
    requires 1 <= base <= rtt && cwnd * (rtt - base) < TWO32
    ensures Diff(cwnd, rtt, base) == cwnd * (rtt - base) / base
  {
    MulMono(cwnd, 0, rtt - base);
    DivIsQuotient(cwnd * (rtt - base), base);
  }

  lemma TargetBelow(cwnd: nat, base: nat, rtt: nat)
    requires cwnd >= 1 && base < rtt
    ensures Div(cwnd * base, rtt) < cwnd
  {
    var product := cwnd * base;
    assert product < cwnd * rtt by {
      MulMono(cwnd, base, rtt - 1);
      assert cwnd * rtt == cwnd * (rtt - 1) + cwnd;
    }
    DivRem(product, rtt);
    if Div(product, rtt) >= cwnd {
      MulMono(rtt, cwnd, Div(product, rtt));
    }
  }

  // ---------- convergence ----------

  /** The smallest window that keeps two packets queued, for a queueing delay of `q`. */
  function Lowest(q: nat, base: nat): nat
    requires q > 0
  {
    Div(2 * base + q - 1, q)
  }

  /** The largest window that keeps no more than four packets queued. */
  function Highest(q: nat, base: nat): nat
    requires base > 0
  {
    Div(5 * base - 1, q)
  }

  /** What one adjustment does to a window in congestion avoidance. */
  function Next(c: nat, q: nat, base: nat, clamp: nat): nat {
    if Div(c * q, base) > 4 then Max(2, c - 1)
    else if Div(c * q, base) < 2 then Min(c + 1, clamp)
    else c
  }

  /**
   The window after `n` adjustments: straight up to the band or the clamp, straight
   down to the band or two packets, or where it was.
   */
  function Trajectory(c0: nat, n: nat, q: nat, base: nat, clamp: nat): nat
    requires q > 0 && base > 0
  {
    if c0 < Lowest(q, base) then Min(c0 + n, Min(clamp, Lowest(q, base)))
    else if c0 > Highest(q, base) then Max(c0 - n, Max(2, Highest(q, base)))
    else c0
  }

  lemma DivLess(x: nat, y: nat, k: nat)
    requires y > 0
    ensures Div(x, y) < k <==> x < k * y
  {
    DivRem(x, y);
    if Div(x, y) < k {
      MulMono(y, Div(x, y) + 1, k);
      assert y * (Div(x, y) + 1) == Div(x, y) * y + y;
    } else {
      MulMono(y, k, Div(x, y));
    }
  }

  /** The two ends of the band, in packets. */
  lemma BandEnds(c: nat, q: nat, base: nat)
    requires q > 0 && base > 0
    ensures Div(c * q, base) < 2 <==> c < Lowest(q, base)
    ensures c < Lowest(q, base) <==> c * q < 2 * base
    ensures Div(c * q, base) > 4 <==> c > Highest(q, base)
    ensures c > Highest(q, base) <==> c * q >= 5 * base
  {
    DivLess(c * q, base, 2);
    DivLess(c * q, base, 5);
    LowEnd(c, q, base);
    HighEnd(c, q, base);
  }

  lemma LowEnd(c: nat, q: nat, base: nat)
    requires q > 0 && base > 0
    ensures c < Lowest(q, base) <==> c * q < 2 * base
  {
    DivLess(2 * base + q - 1, q, c + 1);
    assert (c + 1) * q == c * q + q;
  }

  lemma HighEnd(c: nat, q: nat, base: nat)
    requires q > 0 && base > 0
    ensures c > Highest(q, base) <==> c * q >= 5 * base
  {
    DivLess(5 * base - 1, q, c);
  }

  /** The band is wide enough: from either side the window cannot jump across it. */
  lemma BandIsWide(c0: nat, q: nat, base: nat)
    requires q > 0 && base > 0 && c0 >= 2
    ensures c0 < Lowest(q, base) ==> Lowest(q, base) <= Highest(q, base)
    ensures Highest(q, base) >= 2 ==> Lowest(q, base) <= Highest(q, base)
  {
    if c0 < Lowest(q, base) {
      WideFromBelow(c0, q, base);
    }
    if Highest(q, base) >= 2 {
      WideFromAbove(Highest(q, base), q, base);
    }
  }

  lemma WideFromBelow(c0: nat, q: nat, base: nat)
    requires q > 0 && base > 0 && 2 <= c0 < Lowest(q, base)
    ensures Lowest(q, base) <= Highest(q, base)
  {
    var l := Lowest(q, base);
    LowEnd(c0, q, base);
    LowEnd(l - 1, q, base);
    HighEnd(l, q, base);
    MulMono(q, 2, c0);
    assert l * q == (l - 1) * q + q;
  }

  lemma WideFromAbove(h: nat, q: nat, base: nat)
    requires q > 0 && base > 0 && 2 <= h == Highest(q, base)
    ensures Lowest(q, base) <= h
  {
    LowEnd(h, q, base);
    HighEnd(h + 1, q, base);
    MulMono(q, 2, h);
    assert (h + 1) * q == h * q + q;
  }

  lemma TrajectoryStep(c0: nat, n: nat, q: nat, base: nat, clamp: nat)
    requires q > 0 && base > 0 && 2 <= c0 <= clamp
    ensures var c := Trajectory(c0, n, q, base, clamp);
            2 <= c <= clamp && Next(c, q, base, clamp) == Trajectory(c0, n + 1, q, base, clamp)
  {
    BandIsWide(c0, q, base);
    BandEnds(Trajectory(c0, n, q, base, clamp), q, base);
  }

  /** The window moves in one direction only, one packet per round trip, and from some round on not at all. */
  lemma TrajectorySettles(c0: nat, n: nat, q: nat, base: nat, clamp: nat)
    requires q > 0 && base > 0 && 2 <= c0 <= clamp
    ensures var c, d := Trajectory(c0, n, q, base, clamp), Trajectory(c0, n + 1, q, base, clamp);
            if c0 < Lowest(q, base) then c <= d <= c + 1 else d <= c <= d + 1
    ensures n >= Max(c0, Lowest(q, base)) ==> Resting(Trajectory(c0, n, q, base, clamp), q, base, clamp)
  {
    TrajectoryStep(c0, n, q, base, clamp);
    BandEnds(Trajectory(c0, n, q, base, clamp), q, base);
  }

  /** Two to four packets are queued, or the window has met the clamp or the floor. */
  ghost predicate Resting(c: nat, q: nat, base: nat, clamp: nat) {
    var diff := Div(c * q, base);
    && Next(c, q, base, clamp) == c
    && (2 <= diff <= 4 || (diff < 2 && c == clamp) || (diff > 4 && c == 2))
  }

  // ---------- the adjustment is that step ----------

  /** Congestion avoidance, with no 32-bit overflow in `Diff`, now or one packet up. */
  ghost predicate Steady(tp: Tp, q: nat, base: nat) {
    && base >= 1 && 3 * base < TWO32
    && 2 <= tp.sndCwnd <= tp.sndCwndClamp && !InSlowStart(tp)
    && tp.sndCwnd * q < TWO32
  }

  lemma CompareIsStep(tp: Tp, q: nat, base: u32, acked: u32)
    requires Steady(tp, q, base) && q > 0 && base + q < TWO32
    ensures var after, diff := Compare(tp, base + q, base, acked), Div(tp.sndCwnd * q, base);
            && after.sndCwnd == (if diff > BETA then tp.sndCwnd - 1
                                 else if diff < ALPHA then tp.sndCwnd + 1 else tp.sndCwnd)
            && after.sndSsthresh <= after.sndCwnd && after.sndCwndClamp == tp.sndCwndClamp
  {
    var diff := Div(tp.sndCwnd * q, base);
    assert Diff(tp.sndCwnd, base + q, base) == diff;
    DivLess(tp.sndCwnd * q, base, ALPHA);
    MulMono(tp.sndCwnd, 1, q);
  }

  lemma AdjustIsNext(tp: Tp, q: nat, base: u32, acked: u32, env: Env)
    requires Steady(tp, q, base) && q > 0 && base + q < TWO32
    ensures var after := Adjust(tp, base + q, base, acked, env);
            && after.sndCwnd == Next(tp.sndCwnd, q, base, tp.sndCwndClamp)
            && after.sndCwndClamp == tp.sndCwndClamp
            && Steady(after, q, base)
  {
    CompareIsStep(tp, q, base, acked);
    NextFits(tp.sndCwnd, q, base, tp.sndCwndClamp);
  }

  lemma NextFits(c: nat, q: nat, base: nat, clamp: nat)
    requires base >= 1 && 3 * base < TWO32 && c >= 2 && c * q < TWO32 && c <= clamp
    ensures Next(c, q, base, clamp) * q < TWO32
  {
    DivLess(c * q, base, ALPHA);
    var d := Next(c, q, base, clamp);
    if d <= c {
      MulMono(q, d, c);
    } else {
      MulMono(q, 2, c);
      assert d * q == c * q + q;
    }
  }

  // ---------- round trips ----------

  /** One round trip: samples and ACKs inside the window, in any order, then the ACK that ends it. */
  datatype RoundTrip = RoundTrip(inner: seq<(Event, Env)>, ack: u32, acked: u32, env: Env)

  /** A sample of `rtt`, or an ACK that does not pass the right edge. */
  predicate Inside(e: Event, beg: u32, rtt: u32) {
    match e
    case Sample(rttUs) => rttUs >= 0 && Vrtt(rttUs) == rtt
    case Acked(ack, _) => !After(ack, beg)
    case _ => false
  }

  function Samples(events: seq<(Event, Env)>): nat {
    if events == [] then 0
    else Samples(events[..|events| - 1]) + if events[|events| - 1].0.Sample? then 1 else 0
  }

  ghost predicate SteadyRound(s: State, r: RoundTrip, rtt: u32) {
    && (forall x :: x in r.inner ==> Inside(x.0, s.vegas.begSndNxt, rtt))
    && After(r.ack, s.vegas.begSndNxt)
    && Samples(r.inner) % TWO16 >= 3
  }

  function PlayRound(s: State, r: RoundTrip): State {
    CongAvoid(Run(s, r.inner), r.ack, r.acked, r.env)
  }

  function PlayRounds(s: State, rounds: seq<RoundTrip>): State {
    if rounds == [] then s else PlayRound(PlayRounds(s, rounds[..|rounds| - 1]), rounds[|rounds| - 1])
  }

  ghost predicate SteadyRounds(s: State, rounds: seq<RoundTrip>, rtt: u32) {
    forall i :: 0 <= i < |rounds| ==> SteadyRound(PlayRounds(s, rounds[..i]), rounds[i], rtt)
  }

  /** At the start of a round trip, with the propagation delay known. */
  ghost predicate RoundStarts(v: Block, base: u32) {
    v.doingVegasNow && v.baseRtt == base && v.minRtt == NO_RTT && v.cntRtt == 0
  }

  lemma {:induction false} InnerEvents(s: State, events: seq<(Event, Env)>, base: u32, rtt: u32)
    requires !InSlowStart(s.tp) && RoundStarts(s.vegas, base) && base <= rtt <= NO_RTT
    requires forall x :: x in events ==> Inside(x.0, s.vegas.begSndNxt, rtt)
    ensures Run(s, events) == s.(vegas := s.vegas.(
              minRtt := if Samples(events) == 0 then NO_RTT else rtt,
              cntRtt := Samples(events) % TWO16))
  {
    if events != [] {
      var init := events[..|events| - 1];
      InnerEvents(s, init, base, rtt);
      assert events[|events| - 1] in events;
      CountWraps(Samples(init));
    }
  }

  /**
   In every reachable state, the ACK that ends a round trip adjusts the window by the Vegas rule, on the two minima,
   exactly when the number of samples since the round began, taken modulo 2^16, is at least three; after 65536 samples
   the round counts as empty and Reno answers.
   */
  lemma RoundAdjusts(tp: Tp, v: Block, env0: Env, events: seq<(Event, Env)>, ack: u32, acked: u32, env: Env)
    ensures var s0 := Init(tp, v, env0);
            var s, round := Run(s0, events), SinceRound(s0, events);
            EndsRound(s.vegas, ack) ==>
              CongAvoid(s, ack, acked, env).tp
              == if |round| % TWO16 >= 3 then Adjust(s.tp, Smallest(round), Smallest(SinceRestart(events)), acked, env)
                 else Reno.CongAvoid(s.tp, acked)
  {
    FiltersAreMinima(tp, v, env0, events);
  }

  /** `n` samples of the same round-trip time. */
  function SampleRun(n: nat, rttUs: s32, env: Env): seq<(Event, Env)> {
    if n == 0 then [] else SampleRun(n - 1, rttUs, env) + [(Sample(rttUs), env)]
  }

  lemma {:induction false} SampleRunRound(s: State, n: nat, rttUs: s32, env: Env)
    requires rttUs >= 0
    ensures |SampleRun(n, rttUs, env)| == n && |SinceRound(s, SampleRun(n, rttUs, env))| == n
    ensures var after := Run(s, SampleRun(n, rttUs, env));
            && after.tp == s.tp && after.vegas.doingVegasNow == s.vegas.doingVegasNow
            && after.vegas.begSndNxt == s.vegas.begSndNxt
  {
    if n > 0 {
      SampleRunRound(s, n - 1, rttUs, env);
      var events := SampleRun(n, rttUs, env);
      assert events[..n - 1] == SampleRun(n - 1, rttUs, env);
    }
  }

  lemma {:induction false} SampleRunMinima(s: State, n: nat, rttUs: s32, env: Env)
    requires rttUs >= 0
    ensures SinceRestart(SampleRun(n, rttUs, env)) == SinceRound(s, SampleRun(n, rttUs, env))
    ensures Smallest(SinceRound(s, SampleRun(n, rttUs, env))) == if n == 0 then NO_RTT else Min(NO_RTT, Vrtt(rttUs))
  {
    if n > 0 {
      SampleRunMinima(s, n - 1, rttUs, env);
      SampleRunRound(s, n - 1, rttUs, env);
      var events := SampleRun(n, rttUs, env);
      assert events[..n - 1] == SampleRun(n - 1, rttUs, env);
      SmallestAppend(SinceRound(s, SampleRun(n - 1, rttUs, env)), Vrtt(rttUs));
    }
  }

  /** The first round trip of a connection with `n` samples of one round-trip time, and the ACK that ends it. */
  lemma FirstRound(tp: Tp, v: Block, env0: Env, n: nat, rttUs: s32, ack: u32, acked: u32, env: Env)
    requires n > 0 && rttUs >= 0 && After(ack, env0.sndNxt)
    ensures var rtt := Min(NO_RTT, Vrtt(rttUs));
            CongAvoid(Run(Init(tp, v, env0), SampleRun(n, rttUs, env)), ack, acked, env).tp
            == if n % TWO16 >= 3 then Adjust(tp, rtt, rtt, acked, env) else Reno.CongAvoid(tp, acked)
  {
    var s0 := Init(tp, v, env0);
    SampleRunRound(s0, n, rttUs, env);
    SampleRunMinima(s0, n, rttUs, env);
    RoundAdjusts(tp, v, env0, SampleRun(n, rttUs, env), ack, acked, env);
  }

  /** A run from a new connection in which Vegas has 65536 samples of the round trip, and Reno answers. */
  lemma FullCountIsEmpty(tp: Tp, v: Block, env0: Env, n: nat, rttUs: s32, ack: u32, acked: u32, env: Env)
    requires n == TWO16 && rttUs >= 0 && After(ack, env0.sndNxt)
    ensures var s := Run(Init(tp, v, env0), SampleRun(n, rttUs, env));
            && |SampleRun(n, rttUs, env)| == 65536 && s.vegas.doingVegasNow
            && CongAvoid(s, ack, acked, env).tp == Reno.CongAvoid(tp, acked)
  {
    SampleRunRound(Init(tp, v, env0), n, rttUs, env);
    FirstRound(tp, v, env0, n, rttUs, ack, acked, env);
  }

  /** A round trip with one round-trip time. */
  lemma SteadyRoundAdjusts(s: State, r: RoundTrip, base: u32, rtt: u32)
    requires !InSlowStart(s.tp) && RoundStarts(s.vegas, base) && 1 <= base <= rtt <= NO_RTT
    requires forall x :: x in r.inner ==> Inside(x.0, s.vegas.begSndNxt, rtt)
    requires After(r.ack, s.vegas.begSndNxt)
    ensures PlayRound(s, r).tp == if Samples(r.inner) % TWO16 >= 3
                                  then Adjust(s.tp, rtt, base, r.acked, r.env)
                                  else Reno.CongAvoid(s.tp, r.acked)
    ensures RoundStarts(PlayRound(s, r).vegas, base)
  {
    InnerEvents(s, r.inner, base, rtt);
  }

  /**
   Convergence, over whole event runs: with a constant round-trip time above the propagation
   delay, after n round trips the window is exactly `Trajectory(n)`, and slow start is never re-entered.
   */
  lemma {:induction false} Converges(s: State, rounds: seq<RoundTrip>, base: u32, q: nat)
    requires RoundStarts(s.vegas, base) && Steady(s.tp, q, base) && q > 0 && base + q <= NO_RTT
    requires SteadyRounds(s, rounds, base + q)
    ensures var after := PlayRounds(s, rounds);
            && RoundStarts(after.vegas, base) && Steady(after.tp, q, base)
            && after.tp.sndCwndClamp == s.tp.sndCwndClamp
            && after.tp.sndCwnd == Trajectory(s.tp.sndCwnd, |rounds|, q, base, s.tp.sndCwndClamp)
  {
    if rounds != [] {
      var init, last := rounds[..|rounds| - 1], rounds[|rounds| - 1];
      assert forall i :: 0 <= i < |init| ==> init[..i] == rounds[..i];
      Converges(s, init, base, q);
      TrajectoryStep(s.tp.sndCwnd, |init|, q, base, s.tp.sndCwndClamp);
      OneRound(PlayRounds(s, init), last, base, q);
    }
  }

  lemma OneRound(s: State, r: RoundTrip, base: u32, q: nat)
    requires RoundStarts(s.vegas, base) && Steady(s.tp, q, base) && q > 0 && base + q <= NO_RTT
    requires SteadyRound(s, r, base + q)
    ensures var after := PlayRound(s, r);
            && RoundStarts(after.vegas, base) && Steady(after.tp, q, base)
            && after.tp.sndCwndClamp == s.tp.sndCwndClamp
            && after.tp.sndCwnd == Next(s.tp.sndCwnd, q, base, s.tp.sndCwndClamp)
  {
    SteadyRoundAdjusts(s, r, base, base + q);
    AdjustIsNext(s.tp, q, base, r.acked, r.env);
  }
}
