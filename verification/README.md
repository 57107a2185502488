# flowscope: a verified model

flowscope is a passive TCP/IP observer: it follows flows, rebuilds each
direction's byte stream under loss, reordering, overlap and memory pressure,
and reassembles IP fragments. This project models that logic in Dafny and
proves what it promises.

Every mutable structure of the program is a class whose methods follow the
program's own steps; each method is proved equal to a function on values, and
the theorems are about those functions, over every run.

| files | what they model |
|---|---|
| `Cells`, `StreamChunks`, `ChunkWalk` | reassembled output: a sequence of "byte or missing" cells, stored as bytes plus gap markers |
| `Track` | stream position, 32-bit sequence numbers against unbounded offsets, evidence, the held out-of-window candidate, the ring of skipped holes |
| `Pieces`, `Runs`, `OutOfOrder`, `Absorb`, `OooStore` | the out-of-order store: coalesced pieces and provenance runs, against a map from offset to (byte, supplying segment) |
| `SinkSpec`, `SinkWindow`, `SinkTheorems`, `SinkPass`, `Wire` | the output side both reassemblers share, and what a run feeds them |
| `SegmentSpec`, `SegmentReassembler`, `SegmentSound`, `SegmentRuns`, `SegmentPrefix`, `SegmentProgress`, `SegmentPass`, `SegmentWindow`, `SegmentKit` | the out-of-order reassembler, alone and under the driver |
| `BufferedSpec`, `BufferedReassembler`, `BufferedRuns`, `BufferedProgress`, `BufferedKit` | the one-slot reassembler, alone and under the driver |
| `FlowTable`, `FlowTrace`, `FlowTracker` | the flow table, its event trace, the TCP state machine |
| `Weights`, `StrayTail` | what each step may add to the bytes held; far segments with a cut tail, on both reassemblers |
| `StreamTable`, `FlowDriver`, `DriverRuns` | stream state per flow side and the memory pool |
| `Fragments`, `FragmentTable`, `FragmentRuns`, `EmptyFragments`, `IpFragment` | IP fragment reassembly |
| `Calendar` | timestamp fields |
| `Types`, `Seqs` | shared types and sequence facts |

Reading notes:

- Offsets, counters and times are unbounded (times are nanoseconds); 32-bit
  sequence arithmetic is explicit. The out-of-order reassembler finds a
  candidate again by its 32-bit sequence number, so the class has a window
  condition. For a segment it holds in every state a run can reach
  (`SegmentWindow.FeedAlwaysInWindow`); for acknowledgements, FINs and cut bytes
  one comparison of the position with the candidate decides it
  (`SegmentWindow.RunInWindow`). The value functions find the candidate by its
  offset, and the theorems about runs need no condition.
- Allocator capacities are any value at least the size asked for, so the number
  of holes the byte budget forces open is an argument (`cap`) of the value
  functions; the class supplies it and proves the budget is met.
- `Rules.maxFlows` is the table's capacity, which the program takes as at least one.
- The clock, the extractor, the parsers' wish for a flow, reassembler factories
  and the choice among equally old datagrams are parameters.
- Letting bytes through equals buffering and draining them whatever the watermark
  trigger, because an armed watermark with an empty buffer never meets an empty
  store (`SegmentPass.RunArmed`, `BufferedProgress.RunArmed`). What it needs is
  that no timer is due, and the theorems say exactly that.
- Discarding a side of a flow the tracker does not hold leaves stream state
  without a flow. It is the only call that does (`DriverRuns.StepFollows`); such
  state never has a live side (`DriverRuns.RunSafe`).
- `finish` is documented as ending every flow. A flow whose idle timeout is
  longer than the time left until the largest timestamp survives it
  (`DriverRuns.FinishCanLeave`); `DriverRuns.FinishLeaves` says exactly which.
- An empty IP fragment is not harmless in the program: inside a stored fragment
  it discards the datagram, at the start of one it erases it, past the end it
  blocks completion. `EmptyFragments.EmptyOffer` says what one push does in every
  state, `EmptyFragments.EmptyThenRest` at exactly which offsets the datagram is
  still delivered, `EmptyFragments.EmptyLoses` gives concrete losses. An empty
  fragment without the more-fragments flag anywhere but at the end states a
  wrong length; that is a contradictory sender, not an empty fragment among the
  datagram's own.

## Model

| member | source | states |
|---|---|---|
| Chunks.StreamChunks.PushData | src/reassembler.rs:124-126 | output gains exactly these bytes at the end |
| Chunks.StreamChunks.PushOwned | src/reassembler.rs:130-136 | the same when the buffer is handed over without copying |
| Chunks.StreamChunks.PushGap | src/reassembler.rs:145-154 | output gains that many missing cells; markers stay strictly increasing, positive and in range |
| Chunks.StreamChunks.Append | src/reassembler.rs:195-214 | concatenation of meanings, the other side left empty, the first stop kept |
| Chunks.StreamChunks.DropFront | src/reassembler.rs:219-236 | exactly the first n bytes become missing ones; total length and everything else unchanged |
| Chunks.MeaningConcat | src/reassembler.rs:195-214 | rebasing markers by the byte count concatenates what two outputs mean |
| Chunks.MeaningCounts | src/reassembler.rs:119-121 | bytes and missing cells of the meaning are the stored bytes and the marker sum |
| Chunks.MeaningLength | src/reassembler.rs:119-121 | and there are no other cells |
| Chunks.DropFrontMeaning | src/reassembler.rs:219-236 | folding the markers before the cut and the dropped bytes into one leading marker is masking the first bytes |
| Cells.MaskCounts | src/reassembler.rs:219-236 | masking keeps the length, moves exactly n cells from data to missing, and changes no other cell |
| Cells.MaskConcat | src/reassembler.rs:1078-1093 | masking a concatenation masks the first part, then what is left of the second |
| Walk.ChunkIter.Next | src/reassembler.rs:262-280 | one step of the walk, with the part of the output still ahead |
| Walk.Collect | src/reassembler.rs:183-189 | the walk ends, never yields an empty data chunk nor two gaps in a row, and re-pushing what it yields rebuilds the same bytes and gaps |
| Tracking.OffsetOfSound | src/reassembler.rs:648-650 | the offset found has the sequence number asked for, within half the sequence space |
| Tracking.OffsetOfUnique | src/reassembler.rs:642-650 | mapping an offset of the half window to its sequence number and back is the identity |
| Tracking.OffsetOfStable | src/reassembler.rs:648-664 | a sequence number keeps its offset while the stream advances within the half window |
| Tracking.Track.SeqOf | src/reassembler.rs:642-645 | the sequence number of an offset, from the moving counter alone |
| Tracking.Track.OffOf | src/reassembler.rs:648-650 | the offset of a sequence number, from the moving counter alone |
| Tracking.Track.DoAnchor | src/reassembler.rs:633-639 | the first anchor fixes the origin, later ones change nothing |
| Tracking.Track.DoAdvanceTo | src/reassembler.rs:653-664 | the next sequence number stays congruent to origin plus position; evidence that was reached is cleared |
| Tracking.Track.DoRecordSkip | src/reassembler.rs:666-674 | the ring is the list of the last eight skips |
| Tracking.Track.IsInSkipped | src/reassembler.rs:677-682 | agrees with that list |
| Tracking.Track.DoFarAhead | src/reassembler.rs:687-712 | a far segment corroborates the candidate or replaces it; the count never underflows |
| Tracking.Track.DoExtendStray | src/reassembler.rs:718-726 | the cut tail of the candidate's own packet extends it |
| Tracking.Track.DoFarMissing | src/reassembler.rs:735-752 | cut bytes far ahead extend, corroborate or replace the candidate |
| Tracking.Track.DoEvidence | src/reassembler.rs:756-795 | proof of bytes inside the window is recorded, proof beyond it corroborates the candidate |
| Tracking.Track.DoFin | src/reassembler.rs:798-816 | a FIN bounds all evidence |
| Tracking.Track.DoExpireStray | src/reassembler.rs:833-841 | an old candidate is dropped |
| Tracking.OwnTailIsNoEvidence | src/reassembler.rs:687-752 | with nothing held, a far segment and its own cut tail are one candidate, counted once, and never a resync |
| StrayTail.SegmentTail | src/segment_reassembler.rs:721-873 | feeding a far segment and then reporting its cut tail: one more out-of-window count, no reset, and one candidate with both, unless a timer stopped the side |
| StrayTail.LineTail | src/reassembler.rs:1215-1367 | the same of the one-slot reassembler |
| Tracking.StrayAccounting | src/reassembler.rs:687-816 | a held candidate is always counted, so taking it back never underflows |
| Provenance.CutRuns | src/segment_reassembler.rs:130-147 | removes provenance of exactly that range, splitting runs at the edges, and keeps runs disjoint and ordered |
| Provenance.SetRuns | src/segment_reassembler.rs:120-126 | hands exactly that range to the segment |
| Provenance.SegOf | src/segment_reassembler.rs:150-155 | the segment that supplied a byte |
| Provenance.RunEnd | src/segment_reassembler.rs:158-163 | up to there the supplier does not change |
| OutOfOrder.WonRanges | src/segment_reassembler.rs:573-586 | the ranges of an overlap the new segment wins are exactly the offsets where `new_wins` says so against the real supplier |
| OutOfOrder.FindHits | src/segment_reassembler.rs:546-554 | the pieces that overlap or touch the new segment |
| OutOfOrder.Resolve | src/segment_reassembler.rs:556-587 | won ranges over all hit pieces, and whether old bytes were met or contradicted |
| Absorbing.ApplyWrites | src/segment_reassembler.rs:588-602 | won bytes and their provenance are overwritten in place, nothing else changes |
| Absorbing.BuildFill | src/segment_reassembler.rs:629-642 | the parts between and around hit pieces spell the union of old and new bytes |
| Absorbing.Merge | src/segment_reassembler.rs:643-706 | growing the largest piece at both ends gives the union, with provenance for the new bytes |
| Store.Ooo.Absorb | src/segment_reassembler.rs:539-709 | refines a per-offset map: an uncovered offset gets the new byte and its segment, a covered one changes exactly when `new_wins` says so; pieces stay disjoint and apart, runs tile them, totals are the sums; overlap and contradiction flags are exact |
| Store.Ooo.TakeFirst | src/segment_reassembler.rs:428-455 | takes exactly the first contiguous stretch of the map, and charges no more than before |
| Store.FirstPiece | src/segment_reassembler.rs:114-116 | the first piece is the map's lowest contiguous stretch |
| Store.HeldSize | src/segment_reassembler.rs:323-325 | the byte total is the number of offsets held |
| Store.SplitIffTwo | src/segment_reassembler.rs:525-527 | two pieces or more is two contiguous stretches or more |
| SegmentReassembler.SegmentBufferReassembler.constructor | src/segment_reassembler.rs:215-242 | a fresh stream |
| SegmentReassembler.SegmentBufferReassembler.AppendReady | src/segment_reassembler.rs:348-380 | past the cap a sliding window masks the oldest bytes, including the segment's own head; drop-flow stops and forgets what is held |
| SegmentReassembler.SegmentBufferReassembler.AppendReadyOwned | src/segment_reassembler.rs:457-467 | the same, without copying |
| SegmentReassembler.SegmentBufferReassembler.NotePassthrough | src/segment_reassembler.rs:384-392 | peak and crossings are those of buffering the bytes for a moment |
| SegmentReassembler.SegmentBufferReassembler.UpdateWatermark | src/segment_reassembler.rs:394-410 | peak with held bytes, crossings of the trigger by ready ones |
| SegmentReassembler.SegmentBufferReassembler.SkipToOff | src/segment_reassembler.rs:413-424 | one gap of exactly the hole, remembered |
| SegmentReassembler.SegmentBufferReassembler.DeliverFirst | src/segment_reassembler.rs:428-455 | delivers the stretch at the position, if there is one |
| SegmentReassembler.SegmentBufferReassembler.SkipToFirst | src/segment_reassembler.rs:470-476 | the lowest stretch comes out with a gap before it; what is charged drops by at least what becomes ready |
| SegmentReassembler.SegmentBufferReassembler.FlushOoo | src/segment_reassembler.rs:479-483 | ends with nothing held |
| SegmentReassembler.SegmentBufferReassembler.EnforceOooCap | src/segment_reassembler.rs:485-494 | afterwards what is held is charged within the budget |
| SegmentReassembler.SegmentBufferReassembler.CheckTimers | src/segment_reassembler.rs:497-534 | acknowledged holes, stalled holes, the expired candidate, in that order |
| SegmentReassembler.SegmentBufferReassembler.Resync | src/segment_reassembler.rs:711-719 | flush, skip to the candidate, deliver it, skip its cut bytes; the bytes held grow by at most the candidate's |
| SegmentReassembler.SegmentBufferReassembler.Feed | src/segment_reassembler.rs:721-790 | one segment, recursion through a resync included; afterwards nothing held is deliverable and the budget holds |
| SegmentReassembler.SegmentBufferReassembler.SetOrigin | src/segment_reassembler.rs:802-804 | anchors an unanchored stream; `current_bytes` unchanged |
| SegmentReassembler.SegmentBufferReassembler.PeerAck | src/segment_reassembler.rs:806-817 | evidence one byte below the acknowledgement, then the timers; `current_bytes` never grows |
| SegmentReassembler.SegmentBufferReassembler.FinSeen | src/segment_reassembler.rs:819-826 | the FIN as evidence; `current_bytes` never grows |
| SegmentReassembler.SegmentBufferReassembler.Missing | src/segment_reassembler.rs:828-873 | cut bytes: skipped if reached, evidence behind a hole, a candidate far ahead |
| SegmentReassembler.SegmentBufferReassembler.DrainInto | src/segment_reassembler.rs:875-881 | moves all output and the stop to the caller; `current_bytes` never grows |
| SegmentReassembler.SegmentBufferReassembler.FlushPending | src/segment_reassembler.rs:883-893 | the end of a flow: all held bytes come out, then a gap up to what evidence vouches for; `current_bytes` never grows |
| SegmentReassembler.SegmentBufferReassembler.AdvanceTime | src/segment_reassembler.rs:895-897 | the timers alone; `current_bytes` never grows |
| SegmentReassembler.SegmentBufferReassembler.DoRelease | src/segment_reassembler.rs:948-954 | drops everything and stops |
| SinkTheorems.AppendInv | src/segment_reassembler.rs:348-380 | appending keeps every byte at its offset, the position equal to the output's length, markers equal to gap bytes plus dropped bytes, the buffer within its cap |
| SinkTheorems.SkipInv | src/segment_reassembler.rs:413-424 | so does reporting a gap |
| SinkTheorems.PassInv | src/segment_reassembler.rs:384-392 | so does letting bytes through |
| SinkTheorems.PositionConserved | src/segment_reassembler.rs:348-424 | position = bytes handed over + bytes ready + missing cells of both; missing cells = gap bytes + oversize drops |
| SegmentSound.FeedInv | src/segment_reassembler.rs:721-790 | one segment, resync included, keeps soundness and conservation wherever its bytes may land |
| SegmentSound.MissingInv | src/segment_reassembler.rs:828-873 | so do cut bytes |
| SegmentSound.FlushPendingInv | src/segment_reassembler.rs:883-893 | so does the end of a flow |
| SegmentRuns.RunSound | src/segment_reassembler.rs:711-893 | after any run: every byte produced was carried by a received segment at its offset's sequence number; until a stop, position = bytes + missing cells, missing cells = gap bytes + oversize drops; the ready buffer fits its cap |
| SegmentRuns.RunAgrees | src/segment_reassembler.rs:711-893 | if all segments agree with one byte stream, so does every byte produced, stop or no stop |
| SegmentPrefix.LongestPrefix | src/segment_reassembler.rs:721-790 | with nothing skipped, no stray and no stop, the position is the length of the longest prefix received and what is held is exactly the rest |
| SegmentPrefix.OrderIrrelevant | src/segment_reassembler.rs:721-790 | any arrival order of the same offsets delivers the same prefix and holds the same rest |
| SegmentPrefix.SkipRangeTame | src/segment_reassembler.rs:838-873 | cut bytes never move the position without counting a gap |
| SegmentProgress.SweepAdvances | src/segment_reassembler.rs:497-534 | more than four deadlines after the last progress, a sweep with data held strictly advances and shrinks the store |
| SegmentProgress.CorroboratedSweepAdvances | src/segment_reassembler.rs:522-532 | one deadline is enough with two arrivals, two stretches or an acknowledgement |
| SegmentProgress.NeverWedges | src/segment_reassembler.rs:497-534 | spaced sweeps alone empty the store, whatever it holds |
| SegmentProgress.FlushPendingSettles | src/segment_reassembler.rs:883-893 | the end of a flow leaves nothing held, no stray, and the position past all evidence unless stopped |
| SegmentWindow.RunNear | src/segment_reassembler.rs:721-873 | over any run of segments of at most m bytes, nothing is held further than the ahead limit plus m past the position |
| SegmentWindow.FeedAlwaysInWindow | src/segment_reassembler.rs:711-790 | so, if the ahead limit plus m is at most half the sequence space, a segment that confirms a candidate finds it by its sequence number, in every reachable state |
| SegmentWindow.RunInWindow | src/segment_reassembler.rs:806-873 | for the other calls, comparing the position with the candidate's offset decides the window condition |
| SegmentPass.RunArmed | src/segment_reassembler.rs:384-410 | in every reachable running state an armed watermark with an empty buffer means held data |
| SegmentPass.NotPassed | src/segment_reassembler.rs:721-790 | when nothing is let through, asking for it made no difference |
| SegmentPass.PassthroughRefines | src/segment_reassembler.rs:753-775 | letting through equals buffering and draining (state, counters, peak, crossings, bytes) if and only if no timer is due |
| SegmentPass.PassthroughAfterRun | src/segment_reassembler.rs:753-775 | the same after any run |
| BufferedReassembly.BufferedReassembler.AppendWithCap | src/reassembler.rs:1052-1095 | same output as the other reassembler's append, by its own branches |
| BufferedReassembly.BufferedReassembler.NotePassthrough | src/reassembler.rs:1100-1108 | peak and crossings are those of buffering the bytes for a moment |
| BufferedReassembly.BufferedReassembler.UpdateWatermark | src/reassembler.rs:1111-1127 | peak and crossings |
| BufferedReassembly.BufferedReassembler.SkipToOff | src/reassembler.rs:1130-1141 | one gap of exactly the hole |
| BufferedReassembly.BufferedReassembler.DeliverAt | src/reassembler.rs:1145-1154 | appends what goes past the position |
| BufferedReassembly.BufferedReassembler.ReleaseReorder | src/reassembler.rs:1158-1163 | gives up on the hole before the waiting segment |
| BufferedReassembly.BufferedReassembler.TryReorder | src/reassembler.rs:1166-1175 | delivers the waiting segment once reached |
| BufferedReassembly.BufferedReassembler.Resync | src/reassembler.rs:1177-1184 | releases, skips to the candidate, delivers it, skips its cut bytes |
| BufferedReassembly.BufferedReassembler.CheckTimers | src/reassembler.rs:1188-1213 | acknowledged hole, deadline, expired candidate |
| BufferedReassembly.BufferedReassembler.Feed | src/reassembler.rs:1215-1287 | one segment; the recursion ends because candidate and waiting segment are only ever used up |
| BufferedReassembly.BufferedReassembler.PeerAck | src/reassembler.rs:1303-1316 | evidence, then the timers |
| BufferedReassembly.BufferedReassembler.FinSeen | src/reassembler.rs:1318-1325 | the FIN as evidence |
| BufferedReassembly.BufferedReassembler.Missing | src/reassembler.rs:1327-1367 | cut bytes |
| BufferedReassembly.BufferedReassembler.DrainInto | src/reassembler.rs:1369-1375 | moves all output and the stop |
| BufferedReassembly.BufferedReassembler.FlushPending | src/reassembler.rs:1377-1390 | the end of a flow |
| BufferedReassembly.BufferedReassembler.DoRelease | src/reassembler.rs:1441-1447 | drops everything and stops |
| BufferedRuns.RunSound | src/reassembler.rs:1052-1390 | soundness and conservation after any run, as for the out-of-order reassembler |
| BufferedRuns.RunAgrees | src/reassembler.rs:1215-1390 | if every segment is cut from one byte stream, within half the sequence space of each position it meets, every byte ever produced is the stream's at its offset |
| BufferedProgress.SweepAdvances | src/reassembler.rs:1188-1213 | one deadline after it came, a sweep delivers the waiting segment |
| BufferedProgress.FlushPendingSettles | src/reassembler.rs:1377-1390 | nothing waiting, no stray, position past all evidence |
| BufferedProgress.RunArmed | src/reassembler.rs:1100-1127 | in every reachable running state an armed watermark means something buffered |
| BufferedProgress.PassthroughRefines | src/reassembler.rs:1215-1287 | letting through equals buffering and draining if and only if no timer is due |
| BufferedProgress.PassthroughAfterRun | src/reassembler.rs:1215-1287 | the same after any run |
| FlowTable.StepOk | src/tcp_state.rs:26-76 | the state machine never stores an aborted flow, and closes one only from an open state with both FINs recorded |
| FlowTable.TrackInv | src/tracker.rs:718-1038 | one packet keeps: created = ended + forgotten + live, nothing terminal stored, recency list = keys, IP bytes at most wire bytes, table within its size |
| FlowTracking.FlowTracker.Create | src/tracker.rs:721-806 | creation and eviction as on the plain table |
| FlowTracking.FlowTracker.RunStateMachine | src/tracker.rs:946-988 | state machine and events of one TCP packet |
| FlowTracking.FlowTracker.Account | src/tracker.rs:880-1038 | counters, events and the end of the flow as on the plain table; a surviving flow becomes the hot key |
| FlowTracking.FlowTracker.TrackWith | src/tracker.rs:643-1053 | with the hot-key shortcut, the same table and events as without it; new means not in the table |
| FlowTracking.FlowTracker.DoSweep | src/tracker.rs:1068-1116 | idle flows end, most recent first; the branch for stored terminal flows is never taken |
| FlowTracking.FlowTracker.ForceClose | src/tracker.rs:1137-1156 | ends a known flow with its totals |
| FlowTracking.FlowTracker.DoForget | src/tracker.rs:1370-1379 | removes and counts a known flow |
| FlowTable.SweepExact | src/tracker.rs:1068-1116 | a sweep removes exactly the idle flows and touches no other |
| FlowTracking.ShownAll | src/tracker.rs:583-586 | with nothing masked or paused every event is shown |
| FlowTracking.EndsShown | src/tracker.rs:583-586 | a driver-owned tracker shows every end, whatever the mask or pause |
| FlowTrace.StepShape | src/tcp_state.rs:26-76 | a packet yields at most one state event, an Established exactly when the flow opens |
| FlowTrace.Balanced | src/tracker.rs:718-1156 | the table invariant in every reachable state |
| FlowTrace.TraceGrammar | src/tracker.rs:698-1033 | each key's events are brackets Started .. Ended with at most one Established, totals equal to the bracket's packets, IP bytes at most wire bytes, and a FIN end only after an Established with both FINs |
| FlowTrace.EvictsOldest | src/tracker.rs:758-781 | the evicted flow is the live one whose last packet is oldest |
| StreamTable.PoolWithout | src/flow_driver.rs:1277-1279 | the pool is the sum over flows in any order |
| StreamTable.NoneLive | src/flow_driver.rs:1252-1265 | no live side, empty pool |
| StreamTable.FeedOnward | src/flow_driver.rs:1445-1600 | a packet moves each side only from empty to live to done, and never takes a report back |
| StreamTable.CapHolds | src/flow_driver.rs:1499-1600 | if only data makes reassemblers grow, a pool within the cap is within it after every packet under PassThrough and DropFlow |
| FlowDriving.FlowDriver.Tombstone | src/flow_driver.rs:323-356 | the side is done with its stop, its bytes refunded exactly |
| FlowDriving.FlowDriver.FeedSide | src/flow_driver.rs:1537-1600 | the calls made, the refusal under DropPacket, the cap; the running total stays the sum |
| FlowDriving.FlowDriver.FeedTcp | src/flow_driver.rs:1445-1600 | one TCP packet on the stream table; the saturating subtraction never clips |
| FlowDriving.FlowDriver.FinalizeFlow | src/flow_driver.rs:1252-1265 | stream state gone, bytes refunded exactly |
| FlowDriving.FlowDriver.CloseFlow | src/flow_driver.rs:926-956 | both live sides flushed, nothing else changed |
| FlowDriving.FlowDriver.CloseAll | src/flow_driver.rs:721-754 | the whole stream table afterwards: every ended flow flushed once per end, or gone when ends are masked, all others untouched; pool exact |
| FlowDriving.FlowDriver.Finalize | src/flow_driver.rs:1241-1247 | exactly the ended flows lose their stream state |
| FlowDriving.FlowDriver.TrackOne | src/flow_driver.rs:706-895 | tracker, stream table, events and pass-through after one packet; live sides belong to tracked flows, pool exact, cap kept, sides only move onward |
| FlowDriving.FlowDriver.TrackPacket | src/flow_driver.rs:668-678 | the same with the automatic sweep: both tables and all events, whether or not it was due |
| FlowDriving.FlowDriver.Reconcile | src/flow_driver.rs:1215-1234 | drops exactly the state of flows the tracker lost; nothing when the ends were all seen |
| FlowDriving.FlowDriver.AdvanceStreams | src/flow_driver.rs:1125-1187 | every live side gets the time, and its drain re-syncs the pool |
| FlowDriving.FlowDriver.SweepNow | src/flow_driver.rs:1005-1118 | deadlines, then idle ends; the same invariants |
| FlowDriving.FlowDriver.Finish | src/flow_driver.rs:1015-1033 | both tables and the events; exactly the flows with a timeout past the end of time stay, and with none of them the pool is zero and no stream state of flows is left |
| FlowDriving.FlowDriver.ForceClose | src/flow_driver.rs:1039-1065 | the flow and its stream state go together |
| FlowDriving.FlowDriver.DrainStream | src/flow_driver.rs:1311-1338 | the cells and stop of a live side with the pool re-synced, the kept stop of a done side once |
| FlowDriving.FlowDriver.DiscardSide | src/flow_driver.rs:1353-1370 | for any key, known or not: the side is done and silent, its bytes refunded; stream state still belongs to flows exactly when the key is tracked |
| DriverRuns.StepFollows | src/flow_driver.rs:668-1370 | stream state belongs to tracked flows after a call if and only if the call is not a discard for an untracked key |
| DriverRuns.RunSafe | src/flow_driver.rs:668-1370 | after any run of packets, sweeps, drains, discards, forced ends and `finish`: every live side belongs to a tracked flow, so does all stream state if discards name tracked flows, and a hard memory cap respected at the start is respected still |
| DriverRuns.FinishLeaves | src/flow_driver.rs:1015-1033 | which flows `finish` leaves, in any state |
| DriverRuns.FinishAfterRun | src/flow_driver.rs:1015-1033 | after any run of a new driver `finish` leaves no flow, no stream state and a zero pool, unless a timeout reaches past the end of time |
| DriverRuns.FinishCanLeave | src/tracker.rs:1118-1123 | a flow that survives |
| DriverRuns.ToldAtMostOnce | src/flow_driver.rs:1311-1370 | over any run of one flow, a side's kept stop is reported to at most one drain |
| BufferedKit.OnlyDataGrows | src/reassembler.rs:1449-1455 | of the calls a driver makes on the one-slot reassembler, only data and cut bytes can raise its byte count |
| BufferedKit.CapIsHard | src/flow_driver.rs:1499-1600 | so with it, under PassThrough or DropFlow, no run ever ends a call with the pool above the cap |
| SegmentKit.ServeData | src/segment_reassembler.rs:793-873 | data calls on the class are the value functions' |
| SegmentKit.ServeOther | src/segment_reassembler.rs:802-959 | so are all others, and `current_bytes` does not rise |
| SegmentKit.KitIsFaithful | src/segment_reassembler.rs:793-959 | whatever byte counts an allocator leads to within those bounds, such reassemblers exist for the driver |
| SegmentKit.CapIsHard | src/flow_driver.rs:1499-1600 | with the out-of-order reassembler, whatever its allocator does, under PassThrough or DropFlow no run ever ends a call with the pool above the cap |
| Fragments.OfferRefines | src/ip_fragment.rs:182-224 | a non-empty fragment refines the offset-to-byte map: overlap, oversize and completion exactly when the map says so, and the datagram is its bytes |
| Fragments.AnyOrder | src/ip_fragment.rs:153-225 | any arrival order of the parts of a datagram completes at the last part, with the same bytes |
| EmptyFragments.EmptyPut | src/ip_fragment.rs:206-207 | an empty fragment erases the one stored at its offset and nothing else |
| EmptyFragments.EmptyOffer | src/ip_fragment.rs:182-224 | an empty fragment in any state: dropped as overlapping if and only if strictly inside a stored one, as oversize, complete and erased exactly when, and the bytes left |
| EmptyFragments.EmptyThenRest | src/ip_fragment.rs:182-224 | pushed after any of a datagram's parts, it leaves the datagram deliverable if and only if it is at the end or a part still to come starts there |
| EmptyFragments.EmptyLoses | src/ip_fragment.rs:153-225 | as a sequence of pushes: lost at a stored start, lost past the end, dropped inside |
| FragmentRuns.RunOk | src/ip_fragment.rs:153-264 | after any run of non-empty fragments every pending datagram, and what the next fragment meets, is of fragments apart, counted and within the cap, so `OfferRefines` applies to every push |
| FragmentRuns.DatagramSound | src/ip_fragment.rs:153-264 | after any run, every byte of a returned datagram was carried at that offset by a received fragment of that key |
| FragmentTable.PushInv | src/ip_fragment.rs:153-264 | the table never exceeds its size (if that is at least one), nothing is poisoned, and every datagram begun is pending, complete, timed out, dropped or evicted |
| FragmentTable.DatagramDelivered | src/ip_fragment.rs:153-225 | among any other traffic, two or more parts yield nothing until the last, which yields the datagram |
| IpFragment.AnyOverlap | src/ip_fragment.rs:186-192 | some stored fragment meets the range |
| IpFragment.IsContiguous | src/ip_fragment.rs:294-303 | the fragments run from 0 to the total |
| IpFragment.IpFragmentReassembler.EvictExpired | src/ip_fragment.rs:245-253 | exactly the expired datagrams go, counted |
| IpFragment.IpFragmentReassembler.FindOldest | src/ip_fragment.rs:255-264 | a datagram first seen no later than any other |
| IpFragment.IpFragmentReassembler.DoPush | src/ip_fragment.rs:153-225 | one fragment on the table |
| Calendar.RoundTrip | src/timestamp.rs:156-168 | the date computed is valid, and adding up year and month lengths from 1970-01-01 gives back the day count |
| Calendar.CivilInverts | src/timestamp.rs:156-168 | every valid date comes back from its own day count |
| Calendar.Consecutive | src/timestamp.rs:156-168 | consecutive days are consecutive dates |
| Calendar.TimestampRoundTrip | src/timestamp.rs:116-132 | the rendered fields are a valid date and time and name exactly the second rendered |

## Left out

- Anomalies, metrics, tracing, ticks and the folding of counters into flow statistics: reporting only.
- The extractor, decapsulation, parsers and the session engine: a packet is what the extractor made of it.
- Inter-arrival, active/idle and throughput statistics, the history string, capture-leg binding.
- Deduplication and the monotonic clock clamp in front of the driver.
- `take()`, which discards gap markers, and direct access through `tracker_mut`, `get_mut` and `reassembler()`.
- `set_config` during a run; configuration is fixed.
- `current_bytes` of the out-of-order reassembler as a function of its value: it depends on allocator capacities, so the class states which calls cannot raise it, and under the driver it is any number so bounded.
- Community identifiers, hashing, classification tables, MAC addresses.
- FlowDriving.FlowDriver.CloseAll: does not model the anomalies inserted before an ended flow's event.
- FlowDriving.FlowDriver.Finish: does not model the eviction-pressure anomaly.
- Fragments.OfferRefines: for non-empty fragments; what an empty one does is `EmptyFragments.EmptyOffer`.
- SegmentKit.CapIsHard: outside the window it takes for granted that calls without data do not raise `current_bytes`.
- SegmentReassembler.SegmentBufferReassembler.Feed: asks for `FarInWindow`, which `SegmentWindow.FeedAlwaysInWindow` proves of every reachable state; it can fail only when the ahead limit and a segment's length together exceed half the sequence space.
- SegmentReassembler.SegmentBufferReassembler.Resync: the candidate it is given is less than half the sequence space behind, since beyond that a 32-bit number no longer names its offset.
- SegmentReassembler.SegmentBufferReassembler.PeerAck: `InWindow` on the candidate it may confirm, for the same reason; `SegmentWindow.RunInWindow` says when it holds.
- SegmentReassembler.SegmentBufferReassembler.FinSeen: `InWindow` on the candidate it may confirm, for the same reason; `SegmentWindow.RunInWindow` says when it holds.
- SegmentReassembler.SegmentBufferReassembler.Missing: `InWindow` on the candidate it may confirm, for the same reason; `SegmentWindow.RunInWindow` says when it holds.
