# Congestion controllers and bandwidth monitor: verified model

This project models, in Dafny, the four TCP congestion controllers that the repository implements as eBPF kernel
callbacks (CUBIC, BBR, Vegas and Reno), and the bandwidth monitor of its client and server, which switches
controllers on when the throughput drops. It proves what each controller keeps over whole runs of ACKs, losses,
timeouts, idle restarts and clock ticks.

Every callback exists twice. The in-place form is a method on a class whose fields are those of the socket and the
control block, step by step as in the C code. The functional form is what that method is proved equal to;
the properties, including those over arbitrary sequences of events, are lemmas about it. Between two
callbacks a `Kernel` event may set the socket's fields to anything.

All arithmetic is explicit: `Words` gives the wrapping 16-, 32- and 64-bit conversions, the signed reading of a 32-bit
difference, and division with the eBPF result 0 for a zero divisor (section 4.1 of RFC 9669). "No wrap" is
always proved, never built in.

| file | content |
|---|---|
| `Words.dfy`, `Arith.dfy` | machine words; powers of two and cubes |
| `Tcp.dfy`, `Reno.dfy` | slow start and additive increase; Reno and its potential |
| `CubicRoot.dfy`, `CubicCurve.dfy` | integer cube root; the window curve |
| `Cubic.dfy`, `CubicSock.dfy`, `CubicRuns.dfy`, `CubicGrowth.dfy`, `CubicHystart.dfy` | CUBIC as functions, in place, over runs, its growth from both sides, and HyStart's evidence |
| `Vegas.dfy`, `VegasRuns.dfy`, `VegasStart.dfy` | Vegas; its filters and its convergence; slow start, and when it is on |
| `BbrRates.dfy`, `Bbr.dfy`, `BbrSock.dfy`, `BbrFrames.dfy` | BBR's fixed-point products, steps as functions, in place, and what each step can change |
| `BbrModes.dfy`, `BbrPipe.dfy`, `BbrAggregation.dfy`, `BbrProbeRtt.dfy`, `BbrRoundWait.dfy`, `BbrMinRtt.dfy`, `BbrPolicer.dfy`, `BbrCycle.dfy`, `BbrRecovery.dfy`, `BbrWindow.dfy`, `BbrGains.dfy`, `BbrGrowth.dfy`, `BbrTriggers.dfy`, `BbrRounds.dfy` | BBR over runs: modes and counters, full-pipe detector, excess window, PROBE_RTT, round-trip filter, policer, gain cycle, recovery, outputs, gains and rates, growth of the window, exact conditions of each transition, rounds |
| `RateList.dfy`, `Monitor.dfy`, `Message.dfy` | linked list, bandwidth analysis, wire format |

`dafny verify dfyconfig.toml` checks the whole project.

## Where the code differs from what is written about it

The model follows the code. All but the first are stated as lemmas, with the exact
condition and, where a promise fails, a run or an input that shows it.

- The last step of `fls64` is commented out, so the bit number is the bit length rounded up to even
  (`CubicRoot.EvenBitLengthBounds`). The average error of 0.195% noted at the cube root is not stated or refuted for this
  variant; `RootNotLow` and `RootNotHigh` bound it for every input.
- The full-pipe threshold of BBR is cut to 32 bits, and rounded down for small values: at a constant bandwidth of
  at most 3 or above 3435973836 units the pipe is never declared full (`BbrPipe.ConstantBandwidth`).
- The excess of acknowledged packets is computed below zero for ACKs of almost 2^32 packets
  (`BbrModes.ExcessUnderflow`, `ExcessWraps`); a slot truncates an excess of 2^16 or more (`BbrAggregation.RecordIsMaximum`).
- The comment on PROBE_RTT promises at least one round trip in the mode. An idle restart leaves without one unless it had
  been noted (`BbrRoundWait.ExitSeesRound`, `IdleExitSkipsRound`).
- The round-trip filter is called the minimum of a window of ten seconds. It is exactly when no smaller recent sample was
  forgotten and a recent one confirms it (`BbrMinRtt.WindowMinimumIff`, `NotASlidingMinimum`).
- The window at the entry to recovery is said to be restored. It is unless a later entry replaces the saved one by less
  (`BbrRecovery.RecoveryRestores`, `EntryNotRestored`).
- An interval is called lossy above 20%. The threshold is 50/256, less than a fifth (`BbrPolicer.FifthIff`, `LossTestBelowFifth`);
  and with more than 85899345 packets delivered the test misjudges some number of losses below 2^24, unless 50 times the
  delivered packets wraps to one of the 255 largest values (`BbrPolicer.LossTestIff`, `LossTestRightIff`, `LossTestWraps`).
- The monitor is to react when the throughput drops. A drop straight after one it has reacted to is not seen, because the
  scan starts behind the cursor (`Monitor.SwitchesAreReactions`, `SecondDropMissed`).
- Vegas counts samples in 16 bits, so a round trip with 65536 to 65538 of them counts as one with too few
  (`VegasRuns.RoundAdjusts`, `FullCountIsEmpty`).
- A CUBIC epoch that starts below a seventh of the remembered maximum can ask for almost 2^32 packets
  (`CubicCurve.ConcaveWrapsIff`, `EightIsTooMuch`, `CubicRuns.EightIsReached`); the restart after a loss never does (`CubicRuns.EpochAfterLoss`).

## Model

| member | source | states |
|---|---|---|
| `Tcp.TcpSock.SlowStartInPlace` | bpf_reno/bpfreno.bpf.c:37-43 | updates the window in place as `SlowStart` says and returns the unused packets |
| `Tcp.TcpSock.CongAvoidAiInPlace` | bpf_reno/bpfreno.bpf.c:59-75 | the in-place credit arithmetic, with its wrapping subtraction, leaves exactly quotient and remainder of the credit; old credit is paid out first, for one packet (`AiRunExact`) |
| `Tcp.SlowStartConserves` | bpf_reno/bpfreno.bpf.c:37-43 | window plus leftover is conserved if and only if the clamp does not cut the window, and packets are left over only at the threshold |
| `Tcp.CreditLimit` | bpf_cubic/bpfcubic.bpf.c:197-213 | at a price of at least m, m times the window plus the credit never grows by more than the packets acknowledged, even when a field wraps |
| `Tcp.AiRunPays` | bpf_cubic/bpfcubic.bpf.c:197-213 | however packets are split over calls, each w of them pay for one packet of window up to the clamp, from any initial credit |
| `Tcp.AiRunConserves` | bpf_cubic/bpfcubic.bpf.c:197-213 | from a credit below the price nothing is lost either: below the clamp, w per packet gained plus the final credit is exactly the initial credit plus the packets acknowledged |
| `Tcp.AiRunGains` | bpf_cubic/bpfcubic.bpf.c:197-213 | hence a run that acknowledges n packets gains at least floor(n / w) packets of window, up to the clamp |
| `Tcp.DivInTwo` | bpf_cubic/bpfcubic.bpf.c:204-210 | a credit may be converted in two parts: the quotient of a sum is that of the first part plus that of its remainder and the second |
| `Tcp.AiIsIncreased` | bpf_cubic/bpfcubic.bpf.c:197-213 | one call: a credit of the price or more becomes one packet and is cleared, and the packets are added to what is left |
| `Tcp.AiRunExact` | bpf_cubic/bpfcubic.bpf.c:197-213 | any non-empty run of calls, from any credit and however split, ends exactly where one call for all its packets ends, and changes nothing else |
| `Tcp.SavedCreditBuysOne` | bpf_cubic/bpfcubic.bpf.c:198-203 | so credit saved at a higher price buys one packet: the gain is 1 + floor(n / w) up to the clamp, and the final credit is n mod w |
| `Reno.CongAvoidInPlace` | bpf_reno/bpfreno.bpf.c:77-92 | slow start up to the threshold, the remainder of the same ACK as additive increase, and no change at all when the window is not the limit |
| `Reno.PotentialStep` | bpf_reno/bpfreno.bpf.c:59-75 | a call that acknowledges n packets raises cwnd(cwnd-1)/2 + credit by n + d(d-1)/2, d being the growth of the window |
| `Reno.TriangleClosed` | bpf_reno/bpfreno.bpf.c:59-75 | the potential's triangle number has the closed form n(n-1)/2 |
| `Reno.SinglesAtMost` | bpf_reno/bpfreno.bpf.c:77-92 | n packets acknowledged one at a time raise the potential by exactly n below the clamp, and never by more |
| `Reno.PotentialOrders` | bpf_reno/bpfreno.bpf.c:59-75 | equal potential means equal window and credit; more potential never means a smaller window |
| `Reno.ExactGrowth` | bpf_reno/bpfreno.bpf.c:77-92 | growing from W without credit to W + k takes exactly kW + k(k-1)/2 single acknowledgments, not one fewer |
| `Reno.StretchAck` | bpf_reno/bpfreno.bpf.c:59-75 | one ACK for n packets grows the window at least as far as n ACKs for one packet each |
| `Reno.SlowStartThenAvoid` | bpf_reno/bpfreno.bpf.c:78-92 | an ACK that crosses the threshold spends every acknowledged packet once: part in slow start, the rest as credit |
| `Reno.Sawtooth` | bpf_reno/bpfreno.bpf.c:95-98 | from the halved threshold the window of the loss is back after exactly the growth cost from there in single acknowledgments |
| `Reno.SawtoothCost` | bpf_reno/bpfreno.bpf.c:95-98 | a loss halves the window, to no less than two, and one tooth from there costs half of w(w-1) - h(h-1) packets |
| `Reno.UnusedWindowRests` | bpf_reno/bpfreno.bpf.c:45-54 | a window that is not the limit, in slow start one of twice what was ever sent, stays over any run of ACKs |
| `Reno.SlowStartRun` | bpf_reno/bpfreno.bpf.c:37-43 | over a run of ACKs in slow start every packet acknowledged is a packet of window |
| `Reno.UndoRestores` | bpf_reno/bpfreno.bpf.c:101-104 | an undo gives back at least the window before the reduction and never shrinks the present one |
| `CubicRoot.EvenBitLengthBounds` | bpf_cubic/bpfcubic.bpf.c:85-115 | for x > 0 the bit number is an even e with 2^(e-2) <= x < 2^e |
| `CubicRoot.EvenBitLengthUnique` | bpf_cubic/bpfcubic.bpf.c:85-115 | and the only such even number |
| `CubicRoot.Fls64` | bpf_cubic/bpfcubic.bpf.c:85-115 | the five-step search on a shifted copy finds that number for every 64-bit input, zero included |
| `CubicRoot.LeadingPart` | bpf_cubic/bpfcubic.bpf.c:258-266 | for a >= 64 the table index lies in 4..63, so the guard `shift >= 64` never fires |
| `CubicRoot.NoWrap` | bpf_cubic/bpfcubic.bpf.c:266-276 | for a >= 64 no 32-bit or 64-bit step of table look-up and Newton step wraps, and the divisor is positive |
| `CubicRoot.RootNotLow` | bpf_cubic/bpfcubic.bpf.c:249-277 | 1023^3 a < (1024 (r + 2))^3 for every 64-bit a |
| `CubicRoot.RootNotHigh` | bpf_cubic/bpfcubic.bpf.c:249-277 | (20 (r - 1))^3 <= 21^3 a for every 64-bit a with r >= 1 |
| `CubicRoot.CubicRoot` | bpf_cubic/bpfcubic.bpf.c:249-277 | the computation on reassigned locals meets both bounds |
| `CubicRoot.SmallRoots` | bpf_cubic/bpfcubic.bpf.c:253-256 | below 64 the table gives 0, 1, 2, 3, 4 with steps at 1, 4, 16 and 42, within the same bounds |
| `CubicCurve.CurveFits` | bpf_cubic/bpfcubic.bpf.c:332-348 | for offsets up to 355 600 the cube fits 64 bits and the result 24 bits, so it is the exact curve |
| `CubicCurve.ScaledDistanceFits` | bpf_cubic/bpfcubic.bpf.c:134-135 | the scaled distance to the origin fits 64 bits for any two 32-bit windows |
| `CubicCurve.TimeToOriginLimit` | bpf_cubic/bpfcubic.bpf.c:316-318 | for windows below one million the origin is reached in less than 143 seconds |
| `CubicCurve.CurveInvertsRoot` | bpf_cubic/bpfcubic.bpf.c:309-352 | the curve at the start of an epoch stands within -1% (less a packet) and +16.03% of the distance D whose root was taken |
| `CubicCurve.ConcavePhaseNoWrap` | bpf_cubic/bpfcubic.bpf.c:342-352 | a restart at no less than a seventh of the old maximum keeps origin minus delta from wrapping at every time before the origin |
| `CubicCurve.ConcaveWrapsIff` | bpf_cubic/bpfcubic.bpf.c:342-352 | for windows below one million it never wraps if and only if the curve at the start of the epoch does not exceed the old maximum |
| `CubicCurve.RestartKeepsProportion` | bpf_cubic/bpfcubic.bpf.c:462-477 | the threshold after a loss keeps that proportion, with and without fast convergence |
| `CubicCurve.EightIsTooMuch` | bpf_cubic/bpfcubic.bpf.c:347-352 | a factor of eight is not enough: at the start of an epoch at 64661 after 484502 the curve is below zero and the target wraps to 2^32 - 1 |
| `CubicCurve.ConvexPhaseNoWrap` | bpf_cubic/bpfcubic.bpf.c:347-352 | after the origin the sum is exact for 340 seconds |
| `CubicCurve.TargetIsCurve` | bpf_cubic/bpfcubic.bpf.c:336-352 | both phases together are the signed curve W_max + C (t - K)^3, truncated towards the origin |
| `CubicCurve.TargetMonotone` | bpf_cubic/bpfcubic.bpf.c:336-352 | the target never shrinks as time passes |
| `CubicCurve.TargetSymmetric` | bpf_cubic/bpfcubic.bpf.c:336-352 | targets at equal distances before and after the origin add up to twice the origin |
| `CubicSock.Socket.constructor` | bpf_cubic/bpfcubic.bpf.c:403-414 | a new connection starts from a cleared control block and a fresh HyStart round |
| `CubicSock.Socket.ResetInPlace` | bpf_cubic/bpfcubic.bpf.c:171-184 | clears the growth state and the HyStart verdict, and nothing that belongs to the HyStart round |
| `CubicSock.Socket.HystartResetInPlace` | bpf_cubic/bpfcubic.bpf.c:215-224 | starts a HyStart round now, ending with what has been sent |
| `CubicSock.Socket.StartEpochInPlace` | bpf_cubic/bpfcubic.bpf.c:304-320 | anchors the curve at the window of the last loss or, if that is not larger, at the present one; a running epoch is left alone |
| `CubicSock.Socket.PriceInPlace` | bpf_cubic/bpfcubic.bpf.c:336-366 | the wrapping time and cube arithmetic yields the price that the curve's target asks for (in packets: `PriceExact`) |
| `CubicSock.Socket.FollowCurveInPlace` | bpf_cubic/bpfcubic.bpf.c:301-366 | one evaluation of the curve, from the time stamp to the price |
| `CubicSock.Socket.TcpFriendlyInPlace` | bpf_cubic/bpfcubic.bpf.c:368-388 | the Reno estimate takes whole packets out of the ACK count and caps the price |
| `CubicSock.Socket.UpdateInPlace` | bpf_cubic/bpfcubic.bpf.c:282-394 | `bictcp_update`: early return, once per jiffy, Reno region and minimum price, in this order |
| `CubicSock.Socket.CongAvoidInPlace` | bpf_cubic/bpfcubic.bpf.c:442-459 | the ACK callback: HyStart round, slow start, update, additive increase at the new price |
| `CubicSock.Socket.RecalcSsthreshInPlace` | bpf_cubic/bpfcubic.bpf.c:462-477 | the loss callback ends the epoch, remembers the maximum (reduced when it shrinks) and returns at least 2 |
| `CubicSock.Socket.SetStateInPlace` | bpf_cubic/bpfcubic.bpf.c:479-485 | a retransmission timeout resets everything; other states change nothing |
| `CubicSock.Socket.CwndEventInPlace` | bpf_cubic/bpfcubic.bpf.c:420-439 | an idle restart shifts the epoch; other events change nothing |
| `CubicSock.Socket.HystartUpdateInPlace` | bpf_cubic/bpfcubic.bpf.c:509-554 | both HyStart tests, each of which may end slow start |
| `CubicSock.Socket.PktsAckedInPlace` | bpf_cubic/bpfcubic.bpf.c:567-594 | discards unusable samples, tracks the smallest delay, and runs HyStart only in slow start above 16 packets |
| `CubicRuns.RunKeepsPriced` | bpf_cubic/bpfcubic.bpf.c:282-394 | in every reachable state a window that has been looked at has a price of at least two |
| `CubicRuns.PriceAtLeastTwo` | bpf_cubic/bpfcubic.bpf.c:290-292 | so no call, not even one that returns early, hands a price of zero to the division |
| `CubicRuns.GrowthLimit` | bpf_cubic/bpfcubic.bpf.c:390-393 | over any run of avoidance ACKs 2 cwnd + credit grows by at most the packets acknowledged: 1.5x per round trip |
| `CubicRuns.PriceOfTarget` | bpf_cubic/bpfcubic.bpf.c:354-366 | the price is two, or the gap to the target fits into the window that many times |
| `CubicRuns.OneWindowReachesTarget` | bpf_cubic/bpfcubic.bpf.c:355-393 | one window of acknowledged packets, however split, reaches min(target, 1.5 cwnd), the clamp permitting |
| `CubicRuns.FriendlyConserves` | bpf_cubic/bpfcubic.bpf.c:374-380 | the Reno estimate neither makes nor loses acknowledged packets |
| `CubicRuns.OneWindowReachesReno` | bpf_cubic/bpfcubic.bpf.c:368-393 | where Reno would be faster, one window of acknowledged packets reaches min(Reno's window, 1.5 cwnd) (RFC 8312, section 4.2) |
| `CubicRuns.RunKeepsAnchored` | bpf_cubic/bpfcubic.bpf.c:304-320 | in every reachable state of windows below one million the running epoch is anchored at a root of a positive distance, or at zero |
| `CubicRuns.CurveNeverOverflows` | bpf_cubic/bpfcubic.bpf.c:332-348 | so for 340 seconds of every reachable epoch the curve overflows neither 64 nor 32 bits, as the comment in the code claims |
| `CubicRuns.EpochAfterLoss` | bpf_cubic/bpfcubic.bpf.c:462-477 | the epoch after a loss is free of wrap-around and starts within 16.03% of the gap from the present window |
| `CubicRuns.EightIsReached` | bpf_cubic/bpfcubic.bpf.c:442-477 | a run from a new connection that gets there: loss at 484502, restart at 64661, and the next ACK computes that target and the least price there is |
| `CubicRuns.EpochInPast` | bpf_cubic/bpfcubic.bpf.c:419-439 | in every reachable state the epoch did not start in the future, idle shifts included |
| `CubicRuns.ElapsedIsExact` | bpf_cubic/bpfcubic.bpf.c:336-340 | for 340 seconds of epoch and delay the 64-bit time is the exact one, at most 348160 units |
| `CubicRuns.EvaluationNeverOverflows` | bpf_cubic/bpfcubic.bpf.c:336-352 | so in every reachable state an evaluation within 340 seconds reduces neither the elapsed time nor the curve |
| `CubicRuns.TargetRisesWithClock` | bpf_cubic/bpfcubic.bpf.c:336-352 | as jiffies pass in an epoch anchored at a restart, the target that the code computes never shrinks |
| `CubicRuns.IdleDoesNotCount` | bpf_cubic/bpfcubic.bpf.c:427-436 | in every reachable state an idle period is taken out of the elapsed time of the epoch, which never becomes negative |
| `CubicRuns.HystartEndsSlowStart` | bpf_cubic/bpfcubic.bpf.c:509-554 | a delay sample changes the window arithmetic only by lowering the threshold to the window, once per reset |
| `CubicRuns.DelayMinIsMinimum` | bpf_cubic/bpfcubic.bpf.c:575-586 | after any run `delay_min` is the minimum of the samples that were not discarded since the last timeout |
| `CubicHystart.RunRemembers` | bpf_cubic/bpfcubic.bpf.c:215-224 | after any run the round fields equal the round's history: its start, the end of its unbroken ACK train, the minimum of its first eight delays |
| `CubicHystart.ExitIffEvidence` | bpf_cubic/bpfcubic.bpf.c:497-554 | after any run a sample ends slow start if and only if HyStart looks at it and there is an unbroken train longer than the smallest delay and the aggregation allowance (half of both when unpaced), or the first eight delays of the round all exceed the smallest by the margin |
| `CubicGrowth.PriceExact` | bpf_cubic/bpfcubic.bpf.c:354-393 | an evaluation sets exactly the price for the larger of the two gaps, to the target and to Reno's window: floor(cwnd / gap), 100 windows without a gap, at most 20 before any loss, never below two |
| `CubicGrowth.WindowGain` | bpf_cubic/bpfcubic.bpf.c:197-213 | at price w one window of acknowledged packets gains floor(cwnd / w), or one packet more from old credit, up to the clamp |
| `CubicGrowth.OneWindowFollowsCurve` | bpf_cubic/bpfcubic.bpf.c:354-393 | with a gap, one window of acknowledged packets gains at least min(gap, cwnd / 2), and less than 1.5 gap + 1 and at most cwnd / 2 + 1 |
| `CubicGrowth.PlateauHolds` | bpf_cubic/bpfcubic.bpf.c:357-359 | without a gap, after a loss, one window of acknowledged packets gains at most one packet, and none before 100 windows are paid for |
| `CubicGrowth.ProbingGrowth` | bpf_cubic/bpfcubic.bpf.c:361-366 | without a gap, before any loss, one window of acknowledged packets gains a twentieth of the window, or one packet more |
| `CubicGrowth.JiffyRun` | bpf_cubic/bpfcubic.bpf.c:294-299 | the ACKs of one jiffy after an evaluation are additive increase at its price, while Reno's estimate stays behind |
| `CubicGrowth.AvoidanceUsesPrice` | bpf_cubic/bpfcubic.bpf.c:457-458 | an ACK in congestion avoidance computes its price from the old window and pays at the new price |
| `CubicGrowth.SlowStartRun` | bpf_cubic/bpfcubic.bpf.c:450-456 | over a run of ACKs in slow start every packet acknowledged is a packet of window |
| `CubicGrowth.SlowStartCrosses` | bpf_cubic/bpfcubic.bpf.c:450-458 | the ACK that crosses the threshold spends the rest in congestion avoidance, from the threshold, at a price just computed |
| `CubicGrowth.UnusedWindowRests` | bpf_cubic/bpfcubic.bpf.c:447-448 | a window that is not the limit stays, and so does the control block, over any run of ACKs |
| `CubicGrowth.EpochAtMaximum` | bpf_cubic/bpfcubic.bpf.c:304-311 | an epoch at or above the remembered maximum grows from the present window by the convex half of the curve |
| `CubicGrowth.LossLeavesBeta` | bpf_cubic/bpfcubic.bpf.c:476 | a loss leaves 717/1024 of the window, at least two packets (RFC 8312, section 4.5) |
| `CubicGrowth.FastConvergence` | bpf_cubic/bpfcubic.bpf.c:467-474 | a loss below the remembered maximum remembers 1741/2048 of the window, less than it was and not less than the restart; any other remembers the window (RFC 8312, section 4.6) |
| `CubicGrowth.TimeoutForgets` | bpf_cubic/bpfcubic.bpf.c:479-485 | a timeout clears the block and starts a HyStart round; other states do nothing |
| `CubicGrowth.PriceIsFresh` | bpf_cubic/bpfcubic.bpf.c:288-302 | a price that is kept was looked up for the same window at most 1/32 second ago; any other, in this jiffy |
| `CubicGrowth.DiscardedIff` | bpf_cubic/bpfcubic.bpf.c:574-580 | a delay is discarded if and only if it has no time stamp or falls within the first second of an epoch |
| `CubicGrowth.AckDelayIs` | bpf_cubic/bpfcubic.bpf.c:497-507 | the allowance for aggregation is the time of 262144 bytes at the pacing rate, at most a millisecond, none without a rate |
| `CubicGrowth.RenoEstimateCounts` | bpf_cubic/bpfcubic.bpf.c:372-380 | over any run of updates at one window within an epoch every acknowledged packet is counted once, as credit or at 15/8 windows per packet of Reno's window |
| `CubicGrowth.EpochStartsWithReno` | bpf_cubic/bpfcubic.bpf.c:304-307 | an epoch starts with Reno's window at CUBIC's and only the packets of its first ACK counted |
| `Vegas.Socket.constructor` | bpf_vegas/bpfvegas.bpf.c:191-197 | a new connection starts with empty filters and Vegas switched on |
| `Vegas.Socket.EnableInPlace` | bpf_vegas/bpfvegas.bpf.c:167-180 | starts a round trip that ends with what has been sent, and clears the per-round filter only |
| `Vegas.Socket.PktsAckedInPlace` | bpf_vegas/bpfvegas.bpf.c:207-227 | a sample feeds both filters and a 16-bit count; samples without a time stamp are ignored |
| `Vegas.Socket.StateInPlace` | bpf_vegas/bpfvegas.bpf.c:229-235 | Vegas runs only in the open state |
| `Vegas.Socket.CwndEventInPlace` | bpf_vegas/bpfvegas.bpf.c:246-254 | an idle restart forgets the propagation delay too |
| `Vegas.Socket.CompareInPlace` | bpf_vegas/bpfvegas.bpf.c:308-365 | the three-way comparison of expected and actual rate, in slow start and after it |
| `Vegas.Socket.AdjustInPlace` | bpf_vegas/bpfvegas.bpf.c:308-374 | the comparison, then the floor of two, the clamp and the new threshold |
| `Vegas.Socket.CongAvoidInPlace` | bpf_vegas/bpfvegas.bpf.c:261-383 | the ACK callback: Reno when disabled or short of samples (`OffIsReno`), the adjustment once per round trip, slow start in between (`InnerSlowStart`) |
| `VegasRuns.SmallestIsMinimum` | bpf_vegas/bpfvegas.bpf.c:215-223 | the reference value is the minimum of a history, capped at 0x7fffffff |
| `VegasRuns.FiltersAreMinima` | bpf_vegas/bpfvegas.bpf.c:167-254 | after any run each filter is the minimum of the samples since its own last reset, and the count is their number modulo 2^16 |
| `VegasRuns.FiltersOrdered` | bpf_vegas/bpfvegas.bpf.c:308-338 | in every reachable state 1 <= baseRTT <= minRTT <= 0x7fffffff: no division by zero and no negative queueing delay |
| `VegasRuns.SlowStartCut` | bpf_vegas/bpfvegas.bpf.c:327-338 | when packets queue in slow start the window is cut to the achieved rate plus one, never raised, and slow start ends |
| `VegasRuns.QueuedPackets` | bpf_vegas/bpfvegas.bpf.c:319-323 | the comparison is by the packets queued, floor(cwnd q / base), while that product fits 32 bits |
| `VegasRuns.BandEnds` | bpf_vegas/bpfvegas.bpf.c:344-363 | the windows at which the rule moves down or up, in packets: below 2 base/q it grows, from 5 base/q on it shrinks |
| `VegasRuns.BandIsWide` | bpf_vegas/bpfvegas.bpf.c:344-363 | one packet of movement cannot jump across the band between them |
| `VegasRuns.AdjustIsNext` | bpf_vegas/bpfvegas.bpf.c:288-379 | without 32-bit overflow the adjustment is that rule, and it neither re-enters slow start nor brings the overflow about |
| `VegasRuns.RoundAdjusts` | bpf_vegas/bpfvegas.bpf.c:271-296 | in every reachable state the ACK that ends a round trip adjusts by Vegas, on the minima of the history, if and only if the samples of the round modulo 65536 are at least three; otherwise Reno answers |
| `VegasRuns.FirstRound` | bpf_vegas/bpfvegas.bpf.c:271-296 | the first round trip of a connection with n samples of one time: Vegas if and only if n modulo 65536 is at least three |
| `VegasRuns.FullCountIsEmpty` | bpf_vegas/bpfvegas.bpf.c:226-292 | a run from a new connection with 65536 samples, in which Reno answers |
| `VegasRuns.SteadyRoundAdjusts` | bpf_vegas/bpfvegas.bpf.c:261-383 | a whole round trip with one round-trip time, outside slow start, comes to that adjustment on that time |
| `VegasRuns.TrajectoryStep` | bpf_vegas/bpfvegas.bpf.c:344-374 | the closed-form trajectory obeys the rule at every step and stays between two and the clamp |
| `VegasRuns.TrajectorySettles` | bpf_vegas/bpfvegas.bpf.c:344-374 | the window moves one packet per round in one direction, then rests with 2 to 4 packets queued, at the clamp or at two |
| `VegasRuns.Converges` | bpf_vegas/bpfvegas.bpf.c:261-383 | over whole event runs with a steady delay the window after n round trips is exactly that trajectory, outside slow start throughout |
| `VegasStart.InnerSlowStart` | bpf_vegas/bpfvegas.bpf.c:380-382 | over any samples and ACKs inside a round trip that begins in slow start the window is min(threshold, clamp, start + packets acknowledged), and nothing else of the socket changes |
| `VegasStart.QuietEnd` | bpf_vegas/bpfvegas.bpf.c:340-374 | a round trip that ends in slow start with at most one packet queued is one more ACK of slow start, at least two packets, with the same threshold |
| `VegasStart.QuietRounds` | bpf_vegas/bpfvegas.bpf.c:261-383 | over any number of round trips without queueing the window is start + packets acknowledged, up to the clamp, until the threshold is reached |
| `VegasStart.ThresholdFollows` | bpf_vegas/bpfvegas.bpf.c:337-373 | after an adjustment the threshold is at least about 3/4 of the window, or has not risen while the window is being reduced, and it never exceeds both its old value and 3/4 of the window |
| `VegasStart.RunOn` | bpf_vegas/bpfvegas.bpf.c:167-254 | over any run Vegas is on exactly as the last congestion state or idle restart says, and the right edge is what had been sent when the round began |
| `VegasStart.OffIsReno` | bpf_vegas/bpfvegas.bpf.c:266-269 | from a state that is not open until the next open one, or idle restart, the window arithmetic is a run of Reno |
| `BbrRates.RateNearExact` | bpf_bbr/bbr.bpf.c:116-129 | for any 32-bit bandwidth, mss <= 1500 and gain <= 739 no 64-bit step overflows, and the rate is the exact floor or one less |
| `BbrRates.StagedCeiling` | bpf_bbr/bbr.bpf.c:245-258 | dropping 8 bits before rounding up loses one packet exactly when the excess over a multiple of 2^32 is below 2^8 |
| `BbrRates.BdpNearExact` | bpf_bbr/bbr.bpf.c:235-258 | the bandwidth-delay product is the exact ceiling but for that case, and fits its 32 bits if and only if the product is below 2^64 - 2^32 + 2^8 |
| `BbrSock.Socket.constructor` | bpf_bbr/bbr.bpf.c:914-954 | `bbr_init`: STARTUP, empty estimators, and a first pacing rate from the present window and smoothed round-trip time |
| `BbrSock.Socket.AdvanceCyclePhaseInPlace` | bpf_bbr/bbr.bpf.c:466-473 | the next of eight phases, stamped with the delivery time |
| `BbrSock.Socket.ResetProbeBwInPlace` | bpf_bbr/bbr.bpf.c:492-499 | PROBE_BW from a random phase |
| `BbrSock.Socket.ResetModeInPlace` | bpf_bbr/bbr.bpf.c:501-507 | back to STARTUP until the pipe has been full, to PROBE_BW afterwards |
| `BbrSock.Socket.ResetLtIntervalInPlace` | bpf_bbr/bbr.bpf.c:510-519 | a policer interval starts now |
| `BbrSock.Socket.ResetLtInPlace` | bpf_bbr/bbr.bpf.c:522-530 | the policer estimate is dropped |
| `BbrSock.Socket.LtIntervalDoneInPlace` | bpf_bbr/bbr.bpf.c:533-554 | two consistent intervals switch the policed rate on, otherwise the new one is kept for comparison |
| `BbrSock.Socket.LtEndIntervalInPlace` | bpf_bbr/bbr.bpf.c:613-632 | an interval with enough losses and a sane length is measured |
| `BbrSock.Socket.LtSamplingInPlace` | bpf_bbr/bbr.bpf.c:563-633 | the whole policer step: use, start, abandon, count, end |
| `BbrSock.Socket.StartRoundInPlace` | bpf_bbr/bbr.bpf.c:646-652 | a packet sent after the last round began starts the next one and ends packet conservation |
| `BbrSock.Socket.UpdateBwInPlace` | bpf_bbr/bbr.bpf.c:636-677 | rounds, policer and bandwidth filter from one rate sample |
| `BbrSock.Socket.RotateSlotsInPlace` | bpf_bbr/bbr.bpf.c:703-712 | after five rounds the older slot is cleared and becomes the current one |
| `BbrSock.Socket.CountAckedInPlace` | bpf_bbr/bbr.bpf.c:714-734 | counts the packets of the epoch and returns the excess over the expectation |
| `BbrSock.Socket.RecordInPlace` | bpf_bbr/bbr.bpf.c:735-737 | a larger excess replaces the one in the current slot, truncated to 16 bits |
| `BbrSock.Socket.UpdateAggregationInPlace` | bpf_bbr/bbr.bpf.c:692-738 | rotation, count and record for one valid sample, nothing for others |
| `BbrSock.Socket.UpdateCyclePhaseInPlace` | bpf_bbr/bbr.bpf.c:476-483 | advances the phase only in PROBE_BW and only when it is over |
| `BbrSock.Socket.CheckFullBwInPlace` | bpf_bbr/bbr.bpf.c:748-765 | growth by a quarter restarts the count, three rounds without it are the verdict |
| `BbrSock.Socket.CheckDrainInPlace` | bpf_bbr/bbr.bpf.c:768-781 | STARTUP to DRAIN on the verdict, DRAIN to PROBE_BW when the queue is gone, possibly in one step |
| `BbrSock.Socket.SaveCwndInPlace` | bpf_bbr/bbr.bpf.c:196-205 | saves the window, or the larger of two while it is being cut |
| `BbrSock.Socket.CheckProbeRttDoneInPlace` | bpf_bbr/bbr.bpf.c:783-795 | when the time has passed: new stamp, window restored, mode left |
| `BbrSock.Socket.TakeMinRttInPlace` | bpf_bbr/bbr.bpf.c:823-830 | takes a smaller sample, or any timely one once the estimate has expired |
| `BbrSock.Socket.EnterProbeRttInPlace` | bpf_bbr/bbr.bpf.c:832-837 | enters the mode before saving the window |
| `BbrSock.Socket.StayInProbeRttInPlace` | bpf_bbr/bbr.bpf.c:839-856 | waits for few packets in flight, then for time and round |
| `BbrSock.Socket.UpdateMinRttInPlace` | bpf_bbr/bbr.bpf.c:816-860 | the whole PROBE_RTT step for one ACK |
| `BbrSock.Socket.UpdateGainsInPlace` | bpf_bbr/bbr.bpf.c:862-889 | the two gains of each mode (what they are: `GainsByMode`) |
| `BbrSock.Socket.UpdateModelInPlace` | bpf_bbr/bbr.bpf.c:891-900 | the seven model steps in order |
| `BbrSock.Socket.InitPacingRateInPlace` | bpf_bbr/bbr.bpf.c:142-158 | a rate for the present window at the high gain, with 1 ms when no round-trip time is known |
| `BbrSock.Socket.SetPacingRateInPlace` | bpf_bbr/bbr.bpf.c:161-171 | replaces the rate once the pipe has been full, only raises it before |
| `BbrSock.Socket.RecoverOrRestoreInPlace` | bpf_bbr/bbr.bpf.c:355-389 | losses, entry to recovery, exit from it, and packet conservation |
| `BbrSock.Socket.SetCwndInPlace` | bpf_bbr/bbr.bpf.c:394-426 | the window update for one ACK with all caps (how it grows: `WindowClimbs`, `WindowTakesTarget`) |
| `BbrSock.Socket.OnAckInPlace` | bpf_bbr/bbr.bpf.c:902-912 | model, pacing rate and window, in this order, from the bandwidth and gains of the new model |
| `BbrSock.Socket.CwndEventInPlace` | bpf_bbr/bbr.bpf.c:207-224 | an idle restart that the application caused |
| `BbrSock.Socket.UndoCwndInPlace` | bpf_bbr/bbr.bpf.c:965-973 | an undo restarts detector and policer and keeps the window |
| `BbrSock.Socket.SsthreshInPlace` | bpf_bbr/bbr.bpf.c:976-980 | entry to recovery saves the window and keeps the threshold |
| `BbrSock.Socket.SetStateInPlace` | bpf_bbr/bbr.bpf.c:1004-1016 | a timeout counts as the end of a round with one loss |
| `BbrModes.StepInOrder` | bpf_bbr/bbr.bpf.c:563-633 | every event keeps the field invariants and never goes back in the order STARTUP, DRAIN, afterwards |
| `BbrModes.ReachableIsSane` | bpf_bbr/bbr.h:26-56 | in every reachable state the counters fit their bit-fields with the stated limits, both gains are at most 739, and DRAIN or PROBE_BW implies a full pipe |
| `BbrModes.ReachableRateNearExact` | bpf_bbr/bbr.bpf.c:116-139 | so in every reachable state, for mss <= 1500, the rate for the estimated bandwidth is the exact floor or one less |
| `BbrModes.StageNeverFalls` | bpf_bbr/bbr.bpf.c:748-795 | along any run the stage never falls, so the full-pipe verdict is final |
| `BbrModes.DrainOnce` | bpf_bbr/bbr.bpf.c:768-781 | DRAIN is one unbroken stretch per connection, and STARTUP does not come back after the verdict |
| `BbrModes.DrainingAfterProbing` | bpf_bbr/bbr.bpf.c:466-507 | the phase with gain 0.75 is only ever reached from the phase with gain 1.25, on any event of any run; a fresh cycle never starts in it |
| `BbrModes.ExcessUnderflow` | bpf_bbr/bbr.bpf.c:714-734 | the excess is computed below zero if and only if the 32-bit sum of packets wraps and lands below the expectation |
| `BbrModes.ExcessWraps` | bpf_bbr/bbr.bpf.c:714-734 | a run from a new connection in which it is: 1000 counted, 500 expected, and an ACK for 2^32 - 900 |
| `BbrPipe.StallsAt` | bpf_bbr/bbr.bpf.c:748-765 | an unchanged bandwidth counts as growth if and only if it is at most 3 or above 3435973836, where 5/4 of it leaves 32 bits |
| `BbrPipe.ConstantBandwidth` | bpf_bbr/bbr.bpf.c:748-765 | at such a bandwidth the verdict never comes; at any other constant one it comes after exactly three rounds |
| `BbrPipe.DetectorTerminates` | bpf_bbr/bbr.bpf.c:748-765 | between those limits at most 93 rounds count as growth and the verdict comes within 282 rounds |
| `BbrPipe.RunDetects` | bpf_bbr/bbr.bpf.c:748-765 | over any run without undo or timeout the detector in the state machine is the detector on the bandwidths of unlimited rounds |
| `BbrPipe.PipeIsFound` | bpf_bbr/bbr.bpf.c:748-765 | so in any such run the pipe is declared full within 282 round starts that the application does not limit |
| `BbrAggregation.MaxSinceIsMaximum` | bpf_bbr/bbr.bpf.c:109-114 | the reference value is the maximum of all samples recorded since a round |
| `BbrAggregation.RecordIsMaximum` | bpf_bbr/bbr.bpf.c:735-737 | a slot takes the new maximum if and only if it fits 16 bits |
| `BbrAggregation.RunHolds` | bpf_bbr/bbr.bpf.c:692-738 | while windows are below 2^16 the slots are the maxima of the present and the previous block of five counted rounds |
| `BbrAggregation.SlotsCover` | bpf_bbr/bbr.bpf.c:109-114 | so the estimate is a maximum over a window that reaches back five to nine rounds |
| `BbrAggregation.EstimateIsWindowedMaximum` | bpf_bbr/bbr.bpf.c:109-114 | and this holds after any run from a new connection, against the full history of samples |
| `BbrProbeRtt.DuringVisit` | bpf_bbr/bbr.bpf.c:832-856 | inside a visit the saved window covers the one at entry, and a set end time was set by an event with at most 4 packets in flight |
| `BbrProbeRtt.Visit` | bpf_bbr/bbr.bpf.c:783-860 | a visit ends only more than 200 ms after an event of it with at most 4 packets in flight, and the exit restores at least the window at entry |
| `BbrProbeRtt.SmallWindowInMode` | bpf_bbr/bbr.bpf.c:422-425 | after every ACK that ends in the mode the window is at most four packets |
| `BbrProbeRtt.StampSince` | bpf_bbr/bbr.bpf.c:822-830 | the stamp of the minimum is never older than an event that set it |
| `BbrProbeRtt.TenSecondsApart` | bpf_bbr/bbr.bpf.c:783-837 | the next entry is more than ten seconds after the last exit |
| `BbrRoundWait.ExitSeesRound` | bpf_bbr/bbr.bpf.c:839-856 | for every visit: since an event of it with few packets in flight a round trip has begun if and only if an ACK ends the visit or the round had been noted before |
| `BbrRoundWait.AckExitWaitsRound` | bpf_bbr/bbr.bpf.c:839-856 | a visit that an ACK ends has lasted a full round trip: a packet sent after few were in flight has been acknowledged |
| `BbrRoundWait.IdleExitSkipsRound` | bpf_bbr/bbr.bpf.c:207-224 | a run from a new connection with a visit of 0.3 s, ended by an idle restart, in which no round trip begins |
| `BbrMinRtt.EstimateIsMinimum` | bpf_bbr/bbr.bpf.c:822-830 | after any run the estimate and its stamp are those of the history: the smallest sample since the last timely one above a minimum not confirmed for ten seconds |
| `BbrMinRtt.HistoryLists` | bpf_bbr/bbr.bpf.c:822-830 | that history holds exactly the samples of the events since then |
| `BbrMinRtt.WindowMinimumIff` | bpf_bbr/bbr.bpf.c:822-830 | the estimate is the minimum over the last ten seconds if and only if a sample in them has confirmed it and no smaller one in them was forgotten |
| `BbrMinRtt.RisesApart` | bpf_bbr/bbr.bpf.c:822-830 | two rises, or an exit from PROBE_RTT and a rise, are more than ten seconds apart |
| `BbrMinRtt.NotASlidingMinimum` | bpf_bbr/bbr.bpf.c:822-830 | a run from a new connection after which it is not: 10 ms at 1 s, 20 ms at 10.1 s, 30 ms at 11.1 s |
| `BbrWindow.WindowAfterAck` | bpf_bbr/bbr.bpf.c:394-426 | outside recovery the window grows by at most the packets acknowledged, is never cut before the pipe is full and never left above the target afterwards |
| `BbrWindow.RecoveryWindow` | bpf_bbr/bbr.bpf.c:355-389 | one ACK in recovery: entry conserves packets, the window covers what is in flight while that lasts, losses are taken off, and the exit ends it |
| `BbrWindow.AckPacing` | bpf_bbr/bbr.bpf.c:161-171 | an ACK lowers the pacing rate only once the pipe has been full, or when it brings the first round-trip time |
| `BbrWindow.RunOutputs` | bpf_bbr/bbr.bpf.c:355-426 | over any run in which what is in flight was once allowed and the kernel neither raises the window nor lowers the rate, the largest window that a flow may have or return to rises by at most the packets acknowledged; and once a round-trip time has been seen the pacing rate does not fall until the pipe has been full |
| `BbrRecovery.RunPrior` | bpf_bbr/bbr.bpf.c:196-205 | after any run the saved window is that of the history of saves: replaced outside cuts, raised inside them |
| `BbrRecovery.RecoveryRestores` | bpf_bbr/bbr.bpf.c:355-389 | from the entry to a reduction to the ACK that leaves recovery: the window at entry is covered if and only if the window is not smaller anyway or some save of at least as much stands |
| `BbrRecovery.RecoveryRestoresEntry` | bpf_bbr/bbr.bpf.c:347-389 | so it is covered whenever no later entry has replaced the save |
| `BbrRecovery.RestoredIsKept` | bpf_bbr/bbr.bpf.c:407-426 | the window update keeps the restored window, up to the clamp and, once the pipe is full, the target |
| `BbrRecovery.WindowAfterRecovery` | bpf_bbr/bbr.bpf.c:347-426 | so after the ACK that leaves recovery, outside PROBE_RTT and with no save replaced, snd_cwnd is at least what it was at entry, up to the clamp and, once the pipe is full, the target |
| `BbrRecovery.EntryNotRestored` | bpf_bbr/bbr.bpf.c:196-205 | a run from a new connection in which it is not: entries at 100 and then at 50 packets before any ACK |
| `BbrPolicer.RunLt` | bpf_bbr/bbr.bpf.c:563-633 | over any run the long-term estimator in the state machine is the estimator on its own |
| `BbrPolicer.LossTestIff` | bpf_bbr/bbr.bpf.c:613-618 | for fewer than 2^24 lost packets the loss test measures 50/256 of what was delivered if and only if at most 85899345 were delivered, or the losses do not reach what 50 times the delivered packets wraps to |
| `BbrPolicer.LossTestRightIff` | bpf_bbr/bbr.bpf.c:613-618 | so it is right for every number of losses below 2^24 if and only if at most 85899345 were delivered, or the wrapped product is one of the 255 largest values |
| `BbrPolicer.LossTestNeverRight` | bpf_bbr/bbr.bpf.c:613-618 | for every positive number of delivered packets some 32-bit number of losses is misjudged |
| `BbrPolicer.FifthIff` | bpf_bbr/bbr.bpf.c:62-63 | below those limits it differs from 'more than a fifth' exactly for losses of at least 50/256 and at most a fifth |
| `BbrPolicer.LossTestExact` | bpf_bbr/bbr.bpf.c:613-618 | below both limits neither product wraps and the test is the ratio 50/256 |
| `BbrPolicer.LossTestWraps` | bpf_bbr/bbr.bpf.c:613-618 | one loss among 85899346 passes |
| `BbrPolicer.LossTestBelowFifth` | bpf_bbr/bbr.bpf.c:62-63 | and so do 195 among 998, less than a fifth |
| `BbrPolicer.RatesAgreeIff` | bpf_bbr/bbr.bpf.c:538-543 | for rates that do not wrap, two intervals agree if and only if they differ by at most an eighth or by 500 bytes per second |
| `BbrPolicer.DetectionHasEvidence` | bpf_bbr/bbr.bpf.c:556-633 | after any run, a policed rate comes into use only at the end of the second of two adjacent intervals, each from loss to loss over 4 to 16 unlimited rounds, lossy enough and of a sane length, whose rates agree; and it is half their sum |
| `BbrPolicer.PolicerNeedsEvidence` | bpf_bbr/bbr.bpf.c:533-554 | one step of that in the state machine: what a detection asks of the interval and of the rate before it, and that it drops pacing to gain 1 |
| `BbrPolicer.MeanIff` | bpf_bbr/bbr.bpf.c:545 | half the sum lies between the two rates if and only if the sum fits 32 bits |
| `BbrPolicer.PolicedRateExpires` | bpf_bbr/bbr.bpf.c:571-577 | from its detection, with nothing undone, the rate is in use throughout a run if and only if fewer than 48 rounds have begun in PROBE_BW, and is unchanged until then |
| `BbrCycle.FortyEighthRestarts` | bpf_bbr/bbr.bpf.c:571-577 | and the 48th of these rounds ends the use and restarts the gain cycle, stamped then and not in the draining phase |
| `BbrCycle.PhaseLasts` | bpf_bbr/bbr.bpf.c:430-473 | over a run, a phase that ends, other than by such a restart, is followed by the next one, and unless it was the draining one has lasted longer than the smallest round-trip time |
| `BbrCycle.PhasesInOrder` | bpf_bbr/bbr.bpf.c:466-483 | in a stretch of PROBE_BW without such a restart, from any reachable state, phases advance one at a time in order and none is skipped |
| `BbrGains.AckGains` | bpf_bbr/bbr.bpf.c:862-889 | after every ACK in every state: STARTUP paces at 2.885 to 2.89 times the estimate, DRAIN below it, PROBE_BW at 5/4, 3/4 or 1 by its phase (at 1 under a policed rate), PROBE_RTT at it; the window gain is 2.885 or more, 2, or 1 in PROBE_RTT |
| `BbrGains.DrainUndoesStartup` | bpf_bbr/bbr.bpf.c:25-34 | DRAIN's gain is the largest whose product with STARTUP's is at most one |
| `BbrGains.CycleAverages` | bpf_bbr/bbr.bpf.c:38-43 | the eight gains of a cycle sum to eight |
| `BbrGains.AckRate` | bpf_bbr/bbr.bpf.c:161-171 | after every ACK the rate is at least gain times bandwidth, to within a byte per second and up to the maximum, exactly that once the pipe has been full; before, it only moves up, and only to that |
| `BbrGains.FirstRate` | bpf_bbr/bbr.bpf.c:142-158 | a connection starts at STARTUP's gain times one window per smoothed round-trip time, or per millisecond without one |
| `BbrGains.IdleRestart` | bpf_bbr/bbr.bpf.c:207-224 | a restart from idle that the application caused begins an epoch of ACKs and paces PROBE_BW at the estimate; another changes nothing |
| `BbrGains.IdleElsewhere` | bpf_bbr/bbr.bpf.c:207-224 | in STARTUP and DRAIN such a restart begins an epoch of ACKs and does nothing else |
| `BbrGrowth.QuietAck` | bpf_bbr/bbr.bpf.c:394-426 | one ACK without loss, outside recovery and PROBE_RTT, moves the window by the packets it acknowledges as target and clamp allow |
| `BbrGrowth.WindowClimbs` | bpf_bbr/bbr.bpf.c:417-420 | over a run of such ACKs before a full pipe, each below the target or before the tenth packet delivered, the window is the starting window and every packet acknowledged |
| `BbrGrowth.WindowRests` | bpf_bbr/bbr.bpf.c:417-420 | before a full pipe a window at or above every target stays where it is |
| `BbrGrowth.WindowTakesTarget` | bpf_bbr/bbr.bpf.c:417-418 | after a full pipe, with targets between two values, the window grows by what is acknowledged up to the lower and is never above the higher; a constant target is reached exactly and kept |
| `BbrGrowth.TargetInPackets` | bpf_bbr/bbr.bpf.c:235-285 | the target is ceil(bw rtt gain) (or one less, `StagedCeiling`), the excess capped at 100 ms of bandwidth after a full pipe, and three bursts, rounded up to even, plus two in phase 0 |
| `BbrGrowth.TargetWithoutSample` | bpf_bbr/bbr.bpf.c:241-248 | without a round-trip sample the initial window of ten takes the place of the product |
| `BbrGrowth.ClampHolds` | bpf_bbr/bbr.bpf.c:402-425 | no ACK leaves the window above the clamp, and one that acknowledges nothing only cuts it to that |
| `BbrGrowth.RunConserves` | bpf_bbr/bbr.bpf.c:371-388 | over any run packets are conserved from the first ACK that finds recovery to the next round trip, or to the first ACK out of recovery |
| `BbrTriggers.NetInPackets` | bpf_bbr/bbr.bpf.c:312-329 | what is in the network at the next departure: in flight, a burst more when pacing above the estimate, less what the bandwidth delivers until then, not below zero |
| `BbrTriggers.FillInPackets` | bpf_bbr/bbr.bpf.c:288-296 | what fills the path: ceil(bw rtt gain) and three bursts, rounded up to even, plus two in phase 0 |
| `BbrTriggers.DrainStep` | bpf_bbr/bbr.bpf.c:768-781 | draining ends if and only if no more is in the network than fills the path, and the threshold is set to that when it begins |
| `BbrTriggers.DrainEndsIff` | bpf_bbr/bbr.bpf.c:768-781 | the same for the whole ACK, which ends in PROBE_BW or in DRAIN accordingly unless it visits PROBE_RTT |
| `BbrTriggers.EntersIff` | bpf_bbr/bbr.bpf.c:832-837 | an ACK enters PROBE_RTT if and only if the minimum is older than ten seconds and the flow is not restarting from idle |
| `BbrTriggers.RunRestarting` | bpf_bbr/bbr.bpf.c:857-859 | over any run the flow counts as restarting from an idle period that the application caused until an ACK for new data |
| `BbrTriggers.VisitEndsIff` | bpf_bbr/bbr.bpf.c:839-856 | an ACK ends a visit if and only if its end is set and has passed and a round trip has begun since or begins now; the end is set by the first ACK with at most four packets in flight and by no other; the flow counts as application-limited |
| `BbrTriggers.EntrySetsEnd` | bpf_bbr/bbr.bpf.c:832-850 | the ACK that enters sets the end at once if and only if it finds at most four packets in flight |
| `BbrTriggers.IdleEndsIff` | bpf_bbr/bbr.bpf.c:783-795 | an idle restart ends a visit if and only if the application was the limit and the end is set and has passed |
| `BbrTriggers.PhaseEndsIff` | bpf_bbr/bbr.bpf.c:429-463 | in PROBE_BW, with no policed rate running out, an ACK ends a phase exactly when it lasted the smallest round-trip time (and, probing, met losses or a full path), or, draining, when it did or the path is no longer overfull |
| `BbrTriggers.StartPhases` | bpf_bbr/bbr.bpf.c:492-499 | the random start of the cycle reaches every phase but the draining one |
| `BbrTriggers.BandwidthTaken` | bpf_bbr/bbr.bpf.c:654-677 | the filter takes every valid sample, but none below its maximum that the application limited |
| `BbrTriggers.ExcessIs` | bpf_bbr/bbr.bpf.c:714-734 | without wrap-around: the packets counted in the epoch less those expected at the bandwidth; an epoch fallen behind, or of 2^20 packets, begins anew with this ACK |
| `BbrTriggers.DetectorRestarts` | bpf_bbr/bbr.bpf.c:965-1016 | after an undo or a timeout the next bandwidth that the full-pipe detector sees counts as growth, and the window is kept |
| `BbrRounds.RunMarks` | bpf_bbr/bbr.bpf.c:646-652 | over any run a round ends with the first packet sent after the last mark: the beginning of the round, the entry to recovery, or the ACK of a visit to PROBE_RTT that finds few packets in flight |
| `BbrRounds.RunCountsRounds` | bpf_bbr/bbr.bpf.c:646-652 | over any run the round count has moved once for each round begun, in 32 bits |
| `RateList.List.constructor` | bpfcc-tcp-client-server/list.h:87-91 | an empty list: the head, linked to itself backwards |
| `RateList.List.Insert` | bpfcc-tcp-client-server/list.h:101-106 | appends to the sequence and keeps links, last node and acyclicity |
| `RateList.List.InsertAt` | bpfcc-tcp-client-server/list.h:108-120 | inserts after a given position, the last one included |
| `RateList.List.Remove` | bpfcc-tcp-client-server/list.h:93-99 | removes a position, the last one included, and unlinks the node |
| `Monitor.Scan` | bpfcc-tcp-client-server/message.c:76-115 | the pointer walk stops at the entry after the first drop behind the cursor, if and only if there is a drop |
| `Monitor.FirstDropIsFirst` | bpfcc-tcp-client-server/message.c:80-96 | everything up to that point does not decrease, and the next entry is smaller |
| `Monitor.DropIffDecreasing` | bpfcc-tcp-client-server/message.c:80-96 | there is a drop to react to if and only if the entries behind the cursor decrease somewhere |
| `Monitor.AppendThenAdvance` | bpfcc-tcp-client-server/message.c:216-245 | with one more measurement a settled stream is settled again by one look, and the look finds a drop exactly when the new value is smaller than the last and the cursor does not stand on the last entry |
| `Monitor.LogKeepsSettled` | bpfcc-tcp-client-server/message.c:216-245 | each call of `log_data` keeps both streams settled, moves cursors forward only, and pays for every switch with a flag |
| `Monitor.MonitorRuns` | bpfcc-tcp-client-server/message.c:46-115 | over any run of calls, never more switches than controllers that were off at the start, three at most |
| `Monitor.SwitchesAreReactions` | bpfcc-tcp-client-server/message.c:46-115 | over any run of calls there are exactly as many switches as drops that the analysis sees, until every controller is on |
| `Monitor.SwitchOrder` | bpfcc-tcp-client-server/message.c:46-74 | from a monitor with every controller off they are switched on in the order cubic, vegas, reno, one per reaction, three at most |
| `Monitor.RunRecords` | bpfcc-tcp-client-server/message.c:216-245 | over any run of calls each direction holds its own measurements in order, one for each call that completes a chunk |
| `Monitor.DisabledOnlyRecords` | bpfcc-tcp-client-server/message.c:216-245 | with the analysis disabled a call records the same measurement and does nothing else |
| `Monitor.SecondDropMissed` | bpfcc-tcp-client-server/message.c:76-115 | a run with the measurements 5, 4 and 3 in which the second drop is missed: one switch |
| `Monitor.BandwidthMonitor.constructor` | bpfcc-tcp-client-server/message.c:189-214 | two empty lists with the cursors on their heads |
| `Monitor.BandwidthMonitor.SwitchInPlace` | bpfcc-tcp-client-server/message.c:46-74 | switches the first controller that is off, in the order cubic, vegas, reno, and counts only real switches |
| `Monitor.BandwidthMonitor.AnalyzeRecvInPlace` | bpfcc-tcp-client-server/message.c:80-96 | the received half of the analysis |
| `Monitor.BandwidthMonitor.AnalyzeSentInPlace` | bpfcc-tcp-client-server/message.c:98-114 | the sent half of the analysis |
| `Monitor.BandwidthMonitor.AnalyzeInPlace` | bpfcc-tcp-client-server/message.c:76-115 | both halves, received first, on the flags that the first half leaves |
| `Monitor.BandwidthMonitor.LogRecvInPlace` | bpfcc-tcp-client-server/message.c:216-245 | logs what was received: at most one chunk per call, then the analysis when it is enabled |
| `Monitor.BandwidthMonitor.LogSentInPlace` | bpfcc-tcp-client-server/message.c:216-245 | logs what was sent, likewise |
| `Message.NumberOfBytes` | bpfcc-tcp-client-server/message.c:119-141 | little-endian bytes read back give the number |
| `Message.SignedRoundTrip` | bpfcc-tcp-client-server/message.c:119-162 | and so do two's complement ones, for negative values too |
| `Message.HeaderRoundTrip` | bpfcc-tcp-client-server/message.c:126-132 | the seven longs of a header are read back from the places they were written to |
| `Message.WireFits` | bpfcc-tcp-client-server/message.c:143-162 | every variable offset stays inside the buffer |
| `Message.RoundTrip` | bpfcc-tcp-client-server/message.c:119-162 | whatever follows in the buffer, decoding what was laid out gives back every header field, the used name and data with zeros behind, and the flag |
| `Message.Marshal` | bpfcc-tcp-client-server/message.c:143-162 | copying field by field at computed offsets lays out exactly these bytes |
| `Message.Unmarshal` | bpfcc-tcp-client-server/message.c:119-141 | copying back into zeroed arrays decodes the buffer |
| `Message.SendAndReceive` | bpfcc-tcp-client-server/message.c:119-162 | the two methods together deliver the message as far as it was sent |

## Left out

- CubicCurve.ConcavePhaseNoWrap: the factor 7 is sufficient and 8 is not; which windows between them meet the exact condition of `ConcaveWrapsIff` is not listed.
- CubicRuns.CurveNeverOverflows: for windows below one million packets and 340 seconds of epoch, the limits that the code's own comment sets; beyond them only the wrapping functions say what happens.
- BbrProbeRtt.Visit: for a jiffies clock that stays below 2^31, the range in which a signed difference orders time stamps; the same holds for the other results about PROBE_RTT and the round-trip filter, and, for the count of delivered packets, for AckExitWaitsRound.
- CubicHystart.ExitIffEvidence: for a microsecond clock that stays below 2^31.
- VegasRuns.AdjustIsNext: for windows and delays whose product fits 32 bits; the product wraps in the code, and `Diff` in the model wraps with it. The same holds for Converges.
- Reno.StretchAck: for windows and credits that do not wrap 32 bits.
- CubicRuns.EvaluationNeverOverflows: for a jiffies clock that stays below 2^31 and is not behind the last transmission.
- BbrWindow.RunOutputs: when what is in flight was once allowed by a window, and the kernel itself neither raises the window nor lowers the rate.
- BbrMinRtt.EstimateIsMinimum: for round-trip samples that fit 32 bits, as the field does.
- BbrRecovery.WindowAfterRecovery: for a restored window that does not wrap 32 bits when the packets of the ACK are added.
- BbrPolicer.LossTestIff: for fewer than 2^24 lost packets; above that `LossTestNeverRight` says that some losses are always misjudged, not which.
- CubicGrowth.PriceExact: for windows of which 100 fit 32 bits; the code computes `100 * cwnd` in 32 bits.
- CubicGrowth.JiffyRun: while Reno's estimate does not overtake the window within the jiffy; each such step lowers the price as `PriceExact` says.
- Tcp.AiRunExact: for windows, credits and packets whose sum fits 32 bits.
- VegasStart.InnerSlowStart: for windows that do not wrap 32 bits.
- BbrGrowth.TargetInPackets: for products and sums that fit 64 and 32 bits; `BdpNearExact` says exactly when the product does.
- BbrGrowth.WindowTakesTarget: for windows that do not wrap 32 bits and are not cut by the clamp, as in WindowClimbs and WindowRests.
- BbrTriggers.DrainStep: when the counts fit 32 bits (`NetFits`), as in DrainEndsIff and PhaseEndsIff.
- BbrTriggers.ExcessIs: without wrap-around; `ExcessUnderflow` has the exact condition for the rest.
- BbrGains.AckRate: for segments of up to 1500 bytes, the bound of `RateNearExact`.
- Message.Unmarshal: for lengths that stay inside the two arrays; the code does not check them and its behaviour outside is undefined.
- The private control blocks of CUBIC and BBR are one record-valued field of the socket class, updated field group by field group; aliasing inside them is not modelled.
- The windowed maximum over bandwidth samples (`minmax`), packets in flight, segment goals, random numbers, clocks and time conversions are inputs: the kernel code behind them is not part of this model.
- The tunables are fixed at the values in the sources: HyStart, fast convergence and the Reno-friendly region on, no initial threshold, beta = 717.
- Two fields of Vegas that are written and never read.
- The diagnostics callbacks, `bbr_min_tso_segs`, `bbr_sndbuf_expand` and the exchange of the pacing status: constants or output only.
- Loading and attaching of eBPF programs, the `libcc` and `bpfcc` dispatch, setting the congestion controller on a socket.
- The monitor's byte totals are natural numbers here (in the code an int for what was received and a double for what was sent), and its chunk counters are not bounded to 32 bits.
- Sockets, files, processes, short reads and failed allocations in client and server; bandwidths that are not finite numbers; the printed logs and their time stamps.
- Removal while iterating (`list_for_each_safe`), which the monitor does not use.
