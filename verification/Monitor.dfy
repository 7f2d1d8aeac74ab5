/**
 The bandwidth monitor of the client and server: after every ten megabytes the throughput is recorded, and when an entry
 behind the cursor is followed by a smaller one the next congestion controller is switched on and the cursor moves onto
 the smaller one. A drop straight after that one is not seen: the scan starts behind the cursor.
 */
module Monitor {
  import opened RateList

  const CHUNK := 10_000_000

  /** Which controllers have been switched on; the original's order of trying them is cubic, vegas, reno. */
  datatype Flags = Flags(cubic: bool, vegas: bool, reno: bool) {
    function Unset(): nat {
      (if cubic then 0 else 1) + (if vegas then 0 else 1) + (if reno then 0 else 1)
    }
  }

  function SwitchOn(f: Flags): Flags {
    if !f.cubic then f.(cubic := true)
    else if !f.vegas then f.(vegas := true)
    else f.(reno := true)
  }

  /**
   The measurements of one direction. The cursor stands before `bws[cursor]`: on the head, or on entry `cursor - 1`.
   */
  datatype Stream = Stream(bws: seq<real>, cursor: nat)

  /** The flags, both directions, the chunks counted in each, and how many switches have been made. */
  datatype State = State(flags: Flags, switches: nat, recv: Stream, sent: Stream, recvMb: nat, sentMb: nat)

  /** The first entry from `from` on that is followed by a smaller one, or the last entry. */
  function FirstDrop(bws: seq<real>, from: nat): nat
    decreases |bws| - from
  {
    if from + 1 >= |bws| || bws[from + 1] < bws[from] then from else FirstDrop(bws, from + 1)
  }

  predicate HasDrop(s: Stream) {
    FirstDrop(s.bws, s.cursor) + 1 < |s.bws|
  }

  /** The cursor moves onto the smaller of the two entries. */
  function Advance(s: Stream): Stream {
    if HasDrop(s) then s.(cursor := FirstDrop(s.bws, s.cursor) + 2) else s
  }

  function Switch(s: State): State {
    s.(flags := SwitchOn(s.flags), switches := if s.flags.Unset() > 0 then s.switches + 1 else s.switches)
  }

  function AnalyzeRecv(s: State): State {
    if HasDrop(s.recv) then Switch(s).(recv := Advance(s.recv)) else s
  }

  function AnalyzeSent(s: State): State {
    if HasDrop(s.sent) then Switch(s).(sent := Advance(s.sent)) else s
  }

  /** `bandwidth_analyzer`. */
  function Analyze(s: State): State {
    AnalyzeSent(AnalyzeRecv(s))
  }

  /** `log_data` for one direction: at most one chunk is counted per call, however many have passed. */
  function LogRecv(s: State, nbytes: nat, bw: real, enabled: bool): State {
    if nbytes / CHUNK > s.recvMb then
      var s1 := s.(recvMb := s.recvMb + 1, recv := s.recv.(bws := s.recv.bws + [bw]));
      if enabled then Analyze(s1) else s1
    else s
  }

  function LogSent(s: State, nbytes: nat, bw: real, enabled: bool): State {
    if nbytes / CHUNK > s.sentMb then
      var s1 := s.(sentMb := s.sentMb + 1, sent := s.sent.(bws := s.sent.bws + [bw]));
      if enabled then Analyze(s1) else s1
    else s
  }

  const START := State(Flags(false, false, false), 0, Stream([], 0), Stream([], 0), 0, 0)

  // ---------- the analysis ----------

  /** Entries `from` and later do not decrease. */
  ghost predicate NonDecreasing(bws: seq<real>, from: nat) {
    forall i, j :: from <= i <= j < |bws| ==> bws[i] <= bws[j]
  }

  /** No drop is left to be seen. */
  ghost predicate Settled(s: Stream) {
    s.cursor <= |s.bws| && NonDecreasing(s.bws, s.cursor)
  }

  lemma {:induction false} FirstDropIsFirst(bws: seq<real>, from: nat)
    ensures var d := FirstDrop(bws, from);
            && d >= from
            && (from < |bws| ==> d < |bws|)
            && (forall i, j :: from <= i <= j <= d && j < |bws| ==> bws[i] <= bws[j])
            && (d + 1 < |bws| ==> bws[d + 1] < bws[d])
    decreases |bws| - from
  {
    if from + 1 < |bws| && bws[from + 1] >= bws[from] {
      FirstDropIsFirst(bws, from + 1);
    }
  }

  /** There is a drop to react to exactly when the entries after the cursor decrease somewhere. */
  lemma DropIffDecreasing(s: Stream)
    ensures HasDrop(s) <==> !NonDecreasing(s.bws, s.cursor)
  {
    FirstDropIsFirst(s.bws, s.cursor);
    var d := FirstDrop(s.bws, s.cursor);
    if d + 1 < |s.bws| {
      assert s.bws[d + 1] < s.bws[d];
    }
  }

  /**
   With one measurement more than a settled stream, one look settles it again. The look finds a drop exactly when the
   new measurement is below the last one and the cursor does not stand on that.
   */
  lemma AppendThenAdvance(s: Stream, bw: real)
    requires Settled(s)
    ensures var t := s.(bws := s.bws + [bw]);
            && Settled(Advance(t)) && s.cursor <= Advance(t).cursor
            && (HasDrop(t) <==> s.cursor < |s.bws| && bw < s.bws[|s.bws| - 1])
            && (HasDrop(t) ==> Advance(t).cursor == |t.bws|)
  {
    var t := s.(bws := s.bws + [bw]);
    var n := |s.bws|;
    assert forall i, j :: s.cursor <= i <= j < n ==> t.bws[i] <= t.bws[j];
    FirstDropIsFirst(t.bws, t.cursor);
    var d := FirstDrop(t.bws, t.cursor);
    if s.cursor < n && d == n {
      assert t.bws[n - 1] <= t.bws[n];
    }
  }

  /** A settled stream gives no reason to switch. */
  lemma SettledHasNoDrop(s: Stream)
    requires Settled(s)
    ensures !HasDrop(s)
  {
    DropIffDecreasing(s);
  }

  ghost predicate AllSettled(s: State) {
    Settled(s.recv) && Settled(s.sent)
  }

  /** What one call of `log_data` keeps, with the analysis enabled. */
  ghost predicate LogStep(s: State, after: State) {
    && AllSettled(after)
    && s.recv.cursor <= after.recv.cursor && s.sent.cursor <= after.sent.cursor
    && s.recv.bws <= after.recv.bws && s.sent.bws <= after.sent.bws
    && after.switches + after.flags.Unset() == s.switches + s.flags.Unset()
  }

  lemma LogKeepsSettled(s: State, nbytes: nat, bw: real)
    requires AllSettled(s)
    ensures LogStep(s, LogRecv(s, nbytes, bw, true))
    ensures LogStep(s, LogSent(s, nbytes, bw, true))
  {
    AppendThenAdvance(s.recv, bw);
    AppendThenAdvance(s.sent, bw);
    SettledHasNoDrop(s.recv);
    SettledHasNoDrop(s.sent);
  }

  /** A call of `log_data` in one of the two directions. */
  datatype Call = Received(nbytes: nat, bw: real) | Sent(nbytes: nat, bw: real)

  function Play(s: State, calls: seq<Call>): State {
    if calls == [] then s
    else
      var before := Play(s, calls[..|calls| - 1]);
      match calls[|calls| - 1]
      case Received(nbytes, bw) => LogRecv(before, nbytes, bw, true)
      case Sent(nbytes, bw) => LogSent(before, nbytes, bw, true)
  }

  /**
   With the analysis enabled from the start: after every call the entries after each cursor do not decrease, cursors
   only move forward, and there are never more switches than controllers that were off at the start.
   */
  lemma {:induction false} MonitorRuns(s: State, calls: seq<Call>)
    requires AllSettled(s)
    ensures LogStep(s, Play(s, calls))
    ensures Play(s, calls).switches - s.switches <= s.flags.Unset() <= 3
  {
    if calls != [] {
      var init := calls[..|calls| - 1];
      MonitorRuns(s, init);
      LogKeepsSettled(Play(s, init), calls[|calls| - 1].nbytes, calls[|calls| - 1].bw);
    }
  }

  // ---------- exactly how often ----------

  /**
   One more measurement of this stream is a drop that the analysis sees: the cursor does not stand on the last entry.
   */
  predicate Reacts(s: Stream, bw: real) {
    s.cursor < |s.bws| && bw < s.bws[|s.bws| - 1]
  }

  /** This call logs a chunk and the analysis reacts to it. */
  predicate Reaction(s: State, c: Call) {
    match c
    case Received(nbytes, bw) => nbytes / CHUNK > s.recvMb && Reacts(s.recv, bw)
    case Sent(nbytes, bw) => nbytes / CHUNK > s.sentMb && Reacts(s.sent, bw)
  }

  function Reactions(s: State, calls: seq<Call>): nat {
    if calls == [] then 0
    else
      var k := |calls| - 1;
      Reactions(s, calls[..k]) + if Reaction(Play(s, calls[..k]), calls[k]) then 1 else 0
  }

  lemma CallSwitches(s: State, c: Call)
    requires AllSettled(s)
    ensures var after := if c.Received? then LogRecv(s, c.nbytes, c.bw, true) else LogSent(s, c.nbytes, c.bw, true);
            after.switches == s.switches + if Reaction(s, c) && s.flags.Unset() > 0 then 1 else 0
  {
    AppendThenAdvance(s.recv, c.bw);
    AppendThenAdvance(s.sent, c.bw);
    SettledHasNoDrop(s.recv);
    SettledHasNoDrop(s.sent);
  }

  /** Over any run there are exactly as many switches as reactions, until every controller is on. */
  lemma {:induction false} SwitchesAreReactions(s: State, calls: seq<Call>)
    requires AllSettled(s)
    ensures var after, n := Play(s, calls), Reactions(s, calls);
            after.switches - s.switches == if n < s.flags.Unset() then n else s.flags.Unset()
  {
    if calls != [] {
      var k := |calls| - 1;
      SwitchesAreReactions(s, calls[..k]);
      MonitorRuns(s, calls[..k]);
      CallSwitches(Play(s, calls[..k]), calls[k]);
    }
  }

  /** The controllers that are on after `n` switches: cubic first, then vegas, and reno last. */
  function OnAfter(n: nat): Flags {
    Flags(n >= 1, n >= 2, n >= 3)
  }

  lemma CallOrders(s: State, c: Call)
    requires s.flags == OnAfter(s.switches) && s.switches <= 3
    ensures var after := if c.Received? then LogRecv(s, c.nbytes, c.bw, true) else LogSent(s, c.nbytes, c.bw, true);
            after.flags == OnAfter(after.switches) && after.switches <= 3
  {
  }

  /** From a monitor with every controller off, they are switched on in that order, one per reaction. */
  lemma {:induction false} SwitchOrder(calls: seq<Call>)
    ensures var after, n := Play(START, calls), Reactions(START, calls);
            after.flags == OnAfter(after.switches) && after.switches == if n < 3 then n else 3
  {
    SwitchesAreReactions(START, calls);
    if calls != [] {
      SwitchOrder(calls[..|calls| - 1]);
      CallOrders(Play(START, calls[..|calls| - 1]), calls[|calls| - 1]);
    }
  }

  // ---------- what is recorded ----------

  /** The measurements that a run of calls adds in one direction, `mb` chunks having been counted. */
  function Recorded(mb: nat, calls: seq<Call>, isRecv: bool): (nat, seq<real>) {
    if calls == [] then (mb, [])
    else
      var (n, bws) := Recorded(mb, calls[..|calls| - 1], isRecv);
      var c := calls[|calls| - 1];
      if c.Received? == isRecv && c.nbytes / CHUNK > n then (n + 1, bws + [c.bw]) else (n, bws)
  }

  lemma CallRecords(s: State, c: Call)
    ensures var after := if c.Received? then LogRecv(s, c.nbytes, c.bw, true) else LogSent(s, c.nbytes, c.bw, true);
            var isRecv := c.Received? && c.nbytes / CHUNK > s.recvMb;
            var isSent := c.Sent? && c.nbytes / CHUNK > s.sentMb;
            && after.recvMb == (if isRecv then s.recvMb + 1 else s.recvMb)
            && after.recv.bws == (if isRecv then s.recv.bws + [c.bw] else s.recv.bws)
            && after.sentMb == (if isSent then s.sentMb + 1 else s.sentMb)
            && after.sent.bws == (if isSent then s.sent.bws + [c.bw] else s.sent.bws)
  {
  }

  /** Over any run, each direction holds its own measurements in order, one for each call that completes a chunk. */
  lemma {:induction false} RunRecords(s: State, calls: seq<Call>)
    ensures var after := Play(s, calls);
            && after.recvMb == Recorded(s.recvMb, calls, true).0
            && after.recv.bws == s.recv.bws + Recorded(s.recvMb, calls, true).1
            && after.sentMb == Recorded(s.sentMb, calls, false).0
            && after.sent.bws == s.sent.bws + Recorded(s.sentMb, calls, false).1
  {
    if calls != [] {
      RunRecords(s, calls[..|calls| - 1]);
      CallRecords(Play(s, calls[..|calls| - 1]), calls[|calls| - 1]);
    }
  }

  /** With the analysis disabled a call only records. */
  lemma DisabledOnlyRecords(s: State, nbytes: nat, bw: real)
    ensures var after := LogRecv(s, nbytes, bw, false);
            after == s.(recv := s.recv.(bws := after.recv.bws), recvMb := after.recvMb)
            && after.recv.bws == LogRecv(s, nbytes, bw, true).recv.bws
    ensures var after := LogSent(s, nbytes, bw, false);
            after == s.(sent := s.sent.(bws := after.sent.bws), sentMb := after.sentMb)
            && after.sent.bws == LogSent(s, nbytes, bw, true).sent.bws
  {
  }

  /** A run in which the throughput drops twice and the second drop is missed: 5, 4 and 3 make one switch. */
  lemma SecondDropMissed()
    ensures var calls := [Received(CHUNK, 5.0), Received(2 * CHUNK, 4.0), Received(3 * CHUNK, 3.0)];
            var after := Play(START, calls);
            after.recv.bws == [5.0, 4.0, 3.0] && after.switches == 1 && after.flags == Flags(true, false, false)
  {
    var c1, c2, c3 := Received(CHUNK, 5.0), Received(2 * CHUNK, 4.0), Received(3 * CHUNK, 3.0);
    var s1 := LogRecv(START, c1.nbytes, c1.bw, true);
    assert [c1][..0] == [] && [c1, c2][..1] == [c1] && [c1, c2, c3][..2] == [c1, c2];
    assert Play(START, [c1]) == s1;
    FirstMeasurement(s1);
    var s2 := LogRecv(s1, c2.nbytes, c2.bw, true);
    assert Play(START, [c1, c2]) == s2;
    SecondMeasurement(s1, s2);
    assert Play(START, [c1, c2, c3]) == LogRecv(s2, c3.nbytes, c3.bw, true);
    ThirdMeasurement(s2);
  }

  lemma FirstMeasurement(after: State)
    requires after == LogRecv(START, CHUNK, 5.0, true)
    ensures after == START.(recv := Stream([5.0], 0), recvMb := 1)
  {
    AppendThenAdvance(START.recv, 5.0);
    SettledHasNoDrop(START.sent);
  }

  lemma SecondMeasurement(s: State, after: State)
    requires s == START.(recv := Stream([5.0], 0), recvMb := 1) && after == LogRecv(s, 2 * CHUNK, 4.0, true)
    ensures after == State(Flags(true, false, false), 1, Stream([5.0, 4.0], 2), Stream([], 0), 2, 0)
  {
    AppendThenAdvance(s.recv, 4.0);
    SettledHasNoDrop(s.sent);
  }

  lemma ThirdMeasurement(s: State)
    requires s == State(Flags(true, false, false), 1, Stream([5.0, 4.0], 2), Stream([], 0), 2, 0)
    ensures LogRecv(s, 3 * CHUNK, 3.0, true) == s.(recv := Stream([5.0, 4.0, 3.0], 2), recvMb := 3)
  {
    AppendThenAdvance(s.recv, 3.0);
    SettledHasNoDrop(s.sent);
  }

  // ---------- the monitor in place ----------

  class BandwidthMonitor {
    const recvList: List
    const sendList: List
    var recvIt: Node
    var sendIt: Node
    var flags: Flags
    var recvMb: nat
    var sentMb: nat
    const enabled: bool
    ghost var switches: nat
    ghost var recvPos: nat
    ghost var sendPos: nat

    /** The lists are sound and share nothing, and the cursors stand on them. */
    ghost predicate Valid()
      reads this, recvList, sendList, recvList.chain, sendList.chain
    {
      && recvList != sendList && recvList.Valid() && sendList.Valid()
      && (forall x :: x in recvList.chain ==> x !in sendList.chain)
      && recvPos < |recvList.chain| && recvList.chain[recvPos] == recvIt
      && sendPos < |sendList.chain| && sendList.chain[sendPos] == sendIt
    }

    ghost function View(): State
      reads this, recvList, sendList
    {
      State(flags, switches, Stream(recvList.Bws(), recvPos), Stream(sendList.Bws(), sendPos), recvMb, sentMb)
    }

    /** `init_params` and `init_sockfd`. */
    constructor (enabled: bool, flags: Flags)
      ensures Valid() && View() == START.(flags := flags) && this.enabled == enabled
    {
      var r := new List();
      var s := new List();
      recvList, sendList, recvIt, sendIt := r, s, r.head, s.head;
      this.flags, this.enabled, recvMb, sentMb := flags, enabled, 0, 0;
      switches, recvPos, sendPos := 0, 0, 0;
    }

    /** `switch_bpfcc`: the first controller that is off is switched on. */
    method SwitchInPlace()
      modifies this`flags, this`switches
      ensures flags == SwitchOn(old(flags))
      ensures switches == old(switches) + if old(flags).Unset() > 0 then 1 else 0
    {
      if !flags.cubic {
        flags, switches := flags.(cubic := true), switches + 1;
      } else if !flags.vegas {
        flags, switches := flags.(vegas := true), switches + 1;
      } else if !flags.reno {
        flags, switches := flags.(reno := true), switches + 1;
      }
    }

    /** The half of `bandwidth_analyzer` that looks at what was received. */
    method AnalyzeRecvInPlace()
      requires Valid()
      modifies this`flags, this`switches, this`recvIt, this`recvPos
      ensures Valid() && View() == AnalyzeRecv(old(View()))
    {
      var found, at := Scan(recvList, recvIt, recvPos);
      if found != null {
        SwitchInPlace();
        recvIt, recvPos := found, at;
      }
    }

    /** The half of `bandwidth_analyzer` that looks at what was sent. */
    method AnalyzeSentInPlace()
      requires Valid()
      modifies this`flags, this`switches, this`sendIt, this`sendPos
      ensures Valid() && View() == AnalyzeSent(old(View()))
    {
      var found, at := Scan(sendList, sendIt, sendPos);
      if found != null {
        SwitchInPlace();
        sendIt, sendPos := found, at;
      }
    }

    /** `bandwidth_analyzer`. */
    method AnalyzeInPlace()
      requires Valid()
      modifies this`flags, this`switches, this`recvIt, this`sendIt, this`recvPos, this`sendPos
      ensures Valid() && View() == Analyze(old(View()))
    {
      AnalyzeRecvInPlace();
      AnalyzeSentInPlace();
    }

    /** A new measurement of what was received. */
    method AppendRecv(bw: real)
      requires Valid()
      modifies this`recvMb, recvList, recvList.lastHead
      ensures Valid()
      ensures var before := old(View());
              View() == before.(recvMb := before.recvMb + 1, recv := before.recv.(bws := before.recv.bws + [bw]))
    {
      recvMb := recvMb + 1;
      assert recvList.lastHead in recvList.chain;
      var rate := new Node(bw);
      AppendValues(recvList.chain, rate);
      recvList.Insert(rate);
    }

    /** `log_data` for what was received. */
    method LogRecvInPlace(nbytes: nat, bw: real)
      requires Valid()
      modifies this, recvList, recvList.lastHead
      ensures Valid() && View() == LogRecv(old(View()), nbytes, bw, enabled)
    {
      if nbytes / CHUNK > recvMb {
        AppendRecv(bw);
        if enabled {
          AnalyzeInPlace();
        }
      }
    }

    /** A new measurement of what was sent. */
    method AppendSent(bw: real)
      requires Valid()
      modifies this`sentMb, sendList, sendList.lastHead
      ensures Valid()
      ensures var before := old(View());
              View() == before.(sentMb := before.sentMb + 1, sent := before.sent.(bws := before.sent.bws + [bw]))
    {
      sentMb := sentMb + 1;
      assert sendList.lastHead in sendList.chain;
      var rate := new Node(bw);
      AppendValues(sendList.chain, rate);
      sendList.Insert(rate);
    }

    /** `log_data` for what was sent. */
    method LogSentInPlace(nbytes: nat, bw: real)
      requires Valid()
      modifies this, sendList, sendList.lastHead
      ensures Valid() && View() == LogSent(old(View()), nbytes, bw, enabled)
    {
      if nbytes / CHUNK > sentMb {
        AppendSent(bw);
        if enabled {
          AnalyzeInPlace();
        }
      }
    }
  }

  lemma AppendValues(chain: seq<Node>, node: Node)
    requires |chain| >= 1
    ensures Values(chain + [node]) == Values(chain) + [node.bw]
  {
  }

  /** The scan that both directions share: walk from the cursor to the first entry followed by a smaller one. */
  method Scan(list: List, cursor: Node, ghost pos: nat) returns (found: Node?, ghost at: nat)
    requires list.Valid() && pos < |list.chain| && list.chain[pos] == cursor
    ensures (found != null) == HasDrop(Stream(list.Bws(), pos))
    ensures found != null ==> at == FirstDrop(list.Bws(), pos) + 2 && at < |list.chain| && list.chain[at] == found
  {
    ghost var bws := list.Bws();
    var it := cursor.next;
    ghost var i := pos;
    while it != null
      invariant i >= pos
      invariant if it == null then i >= |bws| && FirstDrop(bws, pos) + 1 >= |bws|
                else i < |bws| && it == list.chain[i + 1] && FirstDrop(bws, pos) == FirstDrop(bws, i)
      decreases |bws| - i
    {
      if it.next != null {
        if it.next.bw < it.bw {
          return it.next, i + 2;
        }
      }
      it := it.next;
      i := i + 1;
    }
    return null, 0;
  }
}
