# LAMB capture, consumption and publication: a verified model

LAMB records audio continuously into retention rings. `recall`, `dump` and `clear` share one
consumption cursor over what was captured, and publish files so that a crash can be recovered.
This project models the parts of the daemon on which that promise rests and proves it for every
input, every schedule and every point of interruption.

| file | models |
|---|---|
| `Base.dfy` | 64-bit counters, `Option`, `Result`, audio samples and frames |
| `Epochs.dfy` | the worker's two retention epochs as values, refining one log of written frames |
| `SampleRing.dfy` | the chunked retention ring, in place |
| `WorkerState.dfy` | the capture worker's fields and rings, in place, refining `Epochs.dfy` |
| `CaptureArena.dfy` | commands, time-outs and recoverable results between callers and the worker |
| `DumpCoordinator.dfy` | the cursor, the frozen transaction, pending authorities and loss accounting |
| `IngressQueue.dfy` | the single-producer queue and calibration capture, one atomic access at a time |
| `CommandSlot.dfy` | the one-entry command slot, one atomic access at a time |
| `CalibrationSlot.dfy` | the eight-state calibration slot, one atomic access at a time |
| `WindowGate.dfy`, `Activity.dfy`, `ExportDecision.dfy` | the activity detector, its gate and the export crop |
| `CalibrationWindows.dfy` | the calibration copy and its window measurements, in place |
| `Publication.dfy` | manifest-backed publication on a disk that may lose power between any two operations |
| `ConfigCommit.dfy` | saving the configuration and committing a calibration generation with it |
| `Headroom.dfy` | the exact headroom ratio |
| `WavParts.dfy`, `ExportPattern.dfy`, `ExportPreview.dfy` | splitting, name patterns and the export plan |

How concurrency is modelled. Where a property depends on single atomic accesses (`IngressQueue`,
`CommandSlot`, `CalibrationSlot`) a state holds the shared words and one program counter per
thread, a label is one access of one thread (the few accesses that are joined, and why no other thread
can tell, are named in the modules), and the theorems quantify over all label sequences.
`CommandSlot.dfy` shows that commands run one at a time, once each, in order, and that results are
taken once; `CaptureArena.dfy` therefore treats a command as one step of the worker, and everything
the rest of the system may do between a caller's accesses is a nondeterministic choice.
Time-outs, failed system calls and unknown publication outcomes are nondeterministic choices too; the
constants `prompt` of an arena and `reliable` of a disk rule them out, so that contracts can also say what
happens without them.

The main results:

- Conservation. In every state a coordinator reaches, the cursor equals the frames of all committed
  ranges plus the frames reported lost or cleared plus the two pending counters; committed ranges are
  disjoint, increasing, and hold exactly the captured frames (`DumpCoordinator.EveryFrameOnce`,
  `AnyRun`). Losses carry their cause: what is reported as lost to retention had left the ring when the
  range after it was taken (`LossHadLeftTheRing`). Failures and retries change nothing
  (`PersistUntilDelivery`, `ClearInOrder`), and every failure is one of a few that a caller can tell apart:
  a wait that ran out, another kind's pending result, a refusal whose reason stands, a clear whose causes
  were behind.
- Linear authorities. One reusable decision in one place, one capability for a frozen epoch
  (`DumpCoordinator.LinearAuthorities`); checks that run after publication never fail
  (`PostPublicationChecksPass`).
- No dead ends. From every state the command slot and the calibration slot can reach, whatever was abandoned,
  cancelled or failed, they can be emptied again (`CommandSlot.NoDeadEnd`, `CalibrationSlot.NoDeadEnd`); a
  parked result goes to the next caller of its kind (`CaptureArena.RecoverBefore`, `FreezeSince`).
- The queue never overwrites what is unread, drops only when every slot is unread, every frame of a successful push is counted exactly
  once, and a calibration lease without drops is a contiguous excerpt of the audio pushed next, from a
  push boundary on (`IngressQueue`).
- The two-accumulator detector is the fold of the gate over all overlapping windows, and the gate is
  characterised without running it (`Activity.VerdictMeaning`).
- Every crash point of a publication is accounted for by whatever manifest survives
  (`Publication.PublishRecall`, `PublishDump`).

## Findings

- `required_bytes_with_headroom` (`src/memory_plan.rs:1224-1261`) is exact for every factor below
  2^128, but not for every finite factor: `checked_shl` reports only shifts of 128 or more, so a factor
  whose set bits are all pushed out of the 128-bit numerator is answered with zero. `Headroom.RequiredBytes`
  states exactly when (`LosesAll`), and `Headroom.ZeroAt128Bits` exhibits 2^128. A zero size with a factor
  of 2^180 or more is refused although nothing is required.
- `commit_prepared_generation` removes the previous generation even when the candidate still names it;
  the durable configuration stays sound exactly when it does not (`ConfigCommit.CommitGeneration`).
  `ConfigCommit.CommitThatDangles` is a commit that meets no error and ends unsound: one profile whose
  two channels name the new and the previous generation.
- Losses are reported by cause except for the frames of a clear whose report fails the drop-counter test
  (`src/dump.rs:1411`): the clear stands, the report is dropped, and the frames it removed come back as
  lost to retention. `DumpCoordinator.LossHadLeftTheRing` shows that no other frame is misreported;
  `DumpCoordinator.RefusedClearReportedAsLoss` shows it happen from a sound state: the counter the
  coordinator acknowledges is bumped before the one the report is built from
  (`src/capture_arena.rs:605-616`). A clear carried out while the two are in step is never refused
  (`DumpCoordinator.InStepClearIsBooked`).
- A calibration request that turns ready just after the worker has read a boundary is served from that
  boundary, so its audio may begin before the request: `IngressQueue.LeaseMayBeginEarlier` is such a run.
  It begins before a given moment exactly when its first chunk was published by then
  (`IngressQueue.LeaseBeginsBefore`), and never when the worker held no boundary at that moment
  (`IngressQueue.LeaseIsNextFrames`).
- A dump whose first manifest fails decides by looking at the manifest's name whether it may be retried;
  when the look fails too, the failure is reported as retryable although the manifest is in place. A recall
  remembers the rename instead and has no such case (`Publication.PublishDump`).

## Model

| member | source | states |
|---|---|---|
| Epochs.Push | src/capture_arena.rs:2007-2031 | consuming a slot appends its frames to the log and to the active epoch, or changes nothing when a counter would overflow |
| Epochs.Freeze | src/capture_arena.rs:2352-2412 | a freeze hands out the range from the later of the committed position and the oldest retained frame to the head, and continues in an empty standby epoch |
| Epochs.Release | src/capture_arena.rs:2414-2435 | only the matching capability releases, and a mismatched release changes nothing |
| Epochs.Clear | src/capture_arena.rs:2303-2341 | a clear empties the active range at its head without moving the head, the log or the frozen epoch |
| Epochs.ReadIsLog | src/capture_arena.rs:1886-1912 | reading `a..b` through a frozen capability returns log frames `a..b` |
| Epochs.FrozenStep | src/capture_arena.rs:1886-1912 | no worker operation but its own release disturbs a frozen epoch |
| Epochs.FrozenRangeSurvives | src/capture_arena.rs:1886-1912 | after any sequence of pushes, clears, freezes and foreign releases a frozen range still reads as the log it was |
| Epochs.FreezeCoversNewFrames | src/capture_arena.rs:2352-2412 | a freeze from a committed position within the log covers everything retained since, up to the head |
| Epochs.RetainedBounds | src/sample_ring.rs:537-567 | a ring holds at most its capacity, and one that gave frames up still holds all chunks but a part of one |
| Epochs.FreezeIsWhole | src/capture_arena.rs:2352-2412 | a freeze leaves out nothing the ring still held beyond the committed position, and one that hands out nothing had nothing to hand out |
| Epochs.OldestKept | src/capture_arena.rs:2303-2341 | what a clear finds gone from the ring is a ring's guaranteed content older than the head, or had been cleared before |
| SampleRing.SampleRing.WriteSegment | src/sample_ring.rs:419-515 | writing one chunk's worth appends the frames and recycles only the oldest chunk |
| SampleRing.SampleRing.WriteInterleaved | src/sample_ring.rs:419-515 | an accepted write appends all its frames to the ring's history |
| SampleRing.SampleRing.OldestFrame | src/sample_ring.rs:537-567 | the oldest readable frame is the retained start, or the last clear if later |
| SampleRing.SampleRing.RetainedFrameHeld | src/sample_ring.rs:537-567 | every frame from the retained start on is still held by its slot |
| SampleRing.SampleRing.CopyRangeInto | src/sample_ring.rs:334-417 | copying a retained range fills the destination with exactly those frames, as many as fit |
| SampleRing.SampleRing.Clear | src/sample_ring.rs:692-696 | after a clear the oldest frame is the head |
| SampleRing.SampleRing.Reset | src/sample_ring.rs:290-332 | a reset ring is empty at frame zero |
| WorkerState.WorkerState.ConsumeSamples | src/capture_arena.rs:2007-2031 | in place, exactly `Epochs.Push`, and accepted unless the head would overflow |
| WorkerState.WorkerState.Freeze | src/capture_arena.rs:2352-2412 | in place, exactly `Epochs.Freeze` |
| WorkerState.WorkerState.Release | src/capture_arena.rs:2414-2435 | in place, exactly `Epochs.Release` |
| WorkerState.WorkerState.ClearActive | src/capture_arena.rs:2303-2341 | in place, exactly `Epochs.Clear`, reporting the cleared range |
| WorkerState.WorkerState.CopyFrozen | src/capture_arena.rs:1886-1912 | copying through a capability delivers log frames `a..b` and leaves the rest of the destination alone |
| CaptureArena.ClearReportOf | src/capture_arena.rs:2303-2341 | a clear report counts everything between the expected start and the head, split between retention loss and cleared frames, under the caller's identity; its drop counter is the cumulative one while the counters by cause are in step with it; it is refused only for want of room in a counter |
| CaptureArena.ClearLossesLeftTheRing | src/capture_arena.rs:2303-2341 | the split is at the ring's oldest frame: what counts as lost the ring no longer held, what counts as cleared fits the ring |
| CaptureArena.ProcessEvolves | src/capture_arena.rs:2278-2350 | carrying out any command is a step every situation tolerates, and a refusal or a status answer stays true while it waits |
| CaptureArena.CaptureArena.UnclaimedClearBlocks | src/capture_arena.rs:1592-1638 | while a clear report waits to be recovered, no schedule of freezes, releases, clears, status calls and worker steps executes another command or loses the report |
| CaptureArena.RecoveryClearFirst | src/capture_arena.rs:1592-1638 | recovery for another command leaves an unclaimed clear alone, and a clear that was still waiting ends unclaimed only as the one command executed meanwhile |
| CaptureArena.SettleIsSound | src/capture_arena.rs:1586-1667 | a stale result goes to a caller of its own kind, is stashed when it must not be lost, and is dropped only when nothing depends on it; a refused caller is told which other kind's result is in the way |
| CaptureArena.CaptureArena.RecoverBefore | src/capture_arena.rs:1586-1667 | what an earlier caller left is recovered, refused or gone before a new command may use the slot: an unclaimed freeze is returned to the next freeze, an answered release to the next release, and a refusal names a pending result of another kind or a wait that ran out |
| CaptureArena.CaptureArena.SubmitLocked | src/capture_arena.rs:1573-1584 | a submitted command is answered to this caller, with a refusal's reason standing in the state, or still owns the slot after a time-out |
| CaptureArena.CaptureArena.FreezeSince | src/capture_arena.rs:1291-1321 | a freeze returns everything the ring still held beyond the committed position up to at least the head it was asked at, returns the freeze an earlier caller left unclaimed, finds nothing only when nothing was captured, and otherwise names why it failed; it passes no unclaimed clear |
| CaptureArena.CaptureArena.ReleaseFrozen | src/capture_arena.rs:1323-1371 | a release empties the worker's record, or the capability stays valid for a retry; while waits do not run out it succeeds; each failure has its reason; it passes no unclaimed clear |
| CaptureArena.CaptureArena.ClearActiveAccounted | src/capture_arena.rs:1387-1411 | a clear returns its own report, with a drop counter no lower than the causes counted when it was asked for, or names why not, or its outcome stays pending under its identity; it passes no other unclaimed clear |
| CaptureArena.CaptureArena.RecoverClearResult | src/capture_arena.rs:1420-1462 | an unclaimed report of the asked identity is handed out once, no other is, and each failure has its reason |
| CaptureArena.CaptureArena.Status | src/capture_arena.rs:1473-1484 | a status call disturbs no situation and tells the active range of a moment after it was asked, and whether an epoch is frozen |
| DumpCoordinator.InterferenceKeepsInv | src/dump.rs:489-719 | the worker, the producer and status callers never break the joint invariant |
| DumpCoordinator.OnlyTheDropTestCanFail | src/dump.rs:1396-1441 | of all checks on a recovered clear report only the drop counter can disagree |
| DumpCoordinator.ClearCommitKeepsInv | src/dump.rs:1443-1464 | booking a clear moves the cursor to the head it reports and keeps the books |
| DumpCoordinator.PostPublicationChecksPass | src/dump.rs:1297-1309 | after publication the loss commit and the completion reservation cannot fail |
| DumpCoordinator.CommitFrozenKeepsInv | src/dump.rs:665-719 | committing a frozen range extends the ledger and keeps conservation and linearity |
| DumpCoordinator.ClearAdditionsFit | src/dump.rs:1060-1087 | the checked additions of a clear request never overflow |
| DumpCoordinator.AskClearKeepsInv | src/dump.rs:1060-1103 | a clear request accounts for the frozen transaction it will discard |
| DumpCoordinator.ClearAnswerKeepsInv | src/dump.rs:1105-1118 | whatever a clear call answers, the coordinator and the arena stay consistent |
| DumpCoordinator.SettledKeepsInv | src/dump.rs:1321-1362 | ending a delivery returns every authority, released or parked for a retry |
| DumpCoordinator.CoveredOnce | src/dump.rs:489-719 | the committed ranges of a ledger overlap nowhere |
| DumpCoordinator.EveryFrameOnce | src/dump.rs:489-719 | the captured frames below the cursor are those in committed ranges, those lost to retention and those cleared, without overlap; each cause is reported or pending under its own name; nothing beyond the cursor was consumed |
| DumpCoordinator.LossHadLeftTheRing | src/dump.rs:489-719 | a frame counted as lost to retention was followed, when the range after it was taken, by more than a ring guarantees to hold, or is one of the frames an executed clear removed whose report the drop test refused |
| DumpCoordinator.RefusedReportKeepsInv | src/dump.rs:1396-1441 | a refused report books nothing, and explains exactly the frames its clear removed |
| DumpCoordinator.ClearCommitKeepsCauses | src/dump.rs:1443-1464 | booking a clear counts the discarded transaction and the ring's content as cleared, and only what had left the ring as lost |
| DumpCoordinator.RefusedClearReportedAsLoss | src/dump.rs:1396-1441 | from a sound state a refused clear report makes two cleared frames come back as lost to retention |
| DumpCoordinator.InStepClearIsBooked | src/dump.rs:1396-1441 | a clear carried out while the drop counters are in step carries the cumulative one and passes validation |
| DumpCoordinator.LinearAuthorities | src/dump.rs:1190-1362 | one decision in one place; one matching capability per frozen epoch, outliving the worker's record only while its own release is unanswered |
| DumpCoordinator.DumpCoordinator.RecoverPendingClear | src/dump.rs:1364-1394 | a lost clear reply enters the books at most once, under its own identity; an unclaimed report is booked unless the drop test, for a request that was behind, refuses it; each failure says what it leaves |
| DumpCoordinator.DumpCoordinator.RecoverPendingRelease | src/dump.rs:1190-1217 | retrying a pending release changes no books and fails only when a wait runs out or a clear is pending |
| DumpCoordinator.DumpCoordinator.ReconcileCompletionAuthority | src/dump.rs:1219-1295 | finalized authorities return to the state before anything else runs, unless a delivery is active or a wait runs out |
| DumpCoordinator.DumpCoordinator.RecoverIndeterminate | src/dump.rs:1163-1188 | a publication of unknown outcome is settled once: its own frozen range committed with the export start decided for it, withdrawn or still pending |
| DumpCoordinator.DumpCoordinator.EnsureFrozen | src/dump.rs:581-600 | a new transaction takes all the ring held beyond the cursor, at least up to the head at the call, and counts as lost only what had left it; or nothing was captured and the pending losses are reported; or the arena's reason is passed on |
| DumpCoordinator.DumpCoordinator.PublishFrozen | src/dump.rs:601-675 | a published or deliberately omitted range is always committed, exactly as it was frozen; the export starts where the decision once made says, a new one at the crop brought into the range; any failure leaves the books and the transaction |
| DumpCoordinator.DumpCoordinator.PersistUntilDelivery | src/dump.rs:489-719 | a failure consumes nothing, keeps the same frozen transaction for the retry and names its cause; nothing is reported only when nothing was captured; a success consumes exactly the frozen range, the one frozen before when it is a retry, reports how it was disposed of, its losses and the decided export start, and hands one guard out |
| DumpCoordinator.DumpCoordinator.FinalizeDelivery | src/dump.rs:1321-1362 | a delivery ends at most once, changes no books, and brings every authority home unless a wait runs out |
| DumpCoordinator.DumpCoordinator.ClearInOrder | src/dump.rs:1037-1124 | a successful clear books exactly one report and moves the cursor to its end; the drop test refuses it only when the causes counted at the request were behind what was acknowledged; a failed one names its cause and changes no books, except that an earlier clear whose reply was lost may have been booked on the way |
| DumpCoordinator.DumpCoordinator.AnyRun | src/dump.rs:489-719 | conservation, cause by cause, holds after any schedule of operations and interference |
| IngressQueue.WriteMissesQueue | src/capture_arena.rs:523-595 | the slot a push writes belongs to no unread chunk |
| IngressQueue.ProducerKeeps | src/capture_arena.rs:523-637 | every access of a push keeps the queue, the log and the counters in step |
| IngressQueue.WorkerKeeps | src/capture_arena.rs:2007-2031 | every access of the worker keeps them too |
| IngressQueue.WorkerKeepsCalibrating | src/capture_arena.rs:2033-2076 | every access of the worker keeps boundaries, captures and leases sound |
| IngressQueue.RestIsBoundary | src/capture_arena.rs:648-666 | a boundary read between two looks at an idle producer of one generation is a push end |
| IngressQueue.BriefLeaseSound | src/capture_arena.rs:648-666 | even when the generation counter ran out, a completed capture holds pushed audio |
| IngressQueue.LogGrows | src/capture_arena.rs:523-595 | what was queued is never taken back or reordered |
| IngressQueue.QueueIsFifo | src/capture_arena.rs:668-682 | in every interleaving a queued slot keeps its chunk until the worker has read it, in order |
| IngressQueue.PushAppendsPrefix | src/capture_arena.rs:523-595 | a successful push appends exactly the prefix it reports and counts the rest as dropped |
| IngressQueue.FullWhenNoSlot | src/capture_arena.rs:545-560 | an access of a push finds the queue full exactly when every slot is unread |
| IngressQueue.DropsNeedFullQueue | src/capture_arena.rs:523-595 | a push that drops frames met, at the frame it stopped at, a state of the run with every slot unread |
| IngressQueue.RoomMeansNoDrop | src/capture_arena.rs:523-595 | a push that begins with as many free slots as its frames need, and meets no exhausted counter, enqueues them all in every interleaving |
| IngressQueue.AcceptedIsWritten | src/capture_arena.rs:2007-2031 | a worker whose writes are accepted writes every settled chunk and drops nothing |
| IngressQueue.EveryFrameCounted | src/capture_arena.rs:2258-2276 | once both threads rest and the queue is drained, every frame of a successful push is in exactly one of the three counts |
| IngressQueue.LeaseIsNextFrames | src/capture_arena.rs:2205-2231 | a lease without drops holds the requested number of frames after a whole push, nothing missing, and none pushed before any earlier state in which the worker held no boundary |
| IngressQueue.LeaseBeginsBefore | src/capture_arena.rs:2033-2076 | a lease without drops begins before an earlier moment if and only if its first chunk was published by then |
| IngressQueue.LeaseMayBeginEarlier | src/capture_arena.rs:2033-2076 | a run in which a request is served from a boundary read before it, with audio pushed before it |
| CommandSlot.StepKeeps | src/capture_arena.rs:756-835 | every access of a caller or the worker keeps the slot protocol |
| CommandSlot.ExactlyOnce | src/capture_arena.rs:1586-1692 | every command is executed once and its result taken once, in order, however callers time out |
| CommandSlot.CommandBarrier | src/capture_arena.rs:1916-1970 | a command runs after every slot published before it and at most one after |
| CommandSlot.ChecksNeverFire | src/capture_arena.rs:798-810 | the worker's take cannot fail, no cell is read empty or overwritten full, and nobody meets a command that is not abandoned |
| CommandSlot.ResultsGoHome | src/capture_arena.rs:1586-1667 | a result is taken by the caller of its own command or as an abandoned one, and that of a release only by a release |
| CommandSlot.NoDeadEnd | src/capture_arena.rs:756-835 | from every state of every run the slot can be emptied again, every command executed and its result taken, unless the worker had shut down first |
| CalibrationSlot.StepKeeps | src/capture_arena.rs:880-943 | every access of requester, cancellers, worker and lease keeps the slot protocol |
| CalibrationSlot.WriterExcludesLease | src/capture_arena.rs:2130-2231 | the worker writes only in CAPTURING or CANCELLED, a lease exists exactly in LEASED, never both |
| CalibrationSlot.ReturnLeavesNothing | src/capture_arena.rs:1117-1271 | a request that returned leaves no COMPLETE, FAILED, READY or CAPTURING behind |
| CalibrationSlot.LeaseIsOwnRequest | src/capture_arena.rs:1156-1173 | a lease describes the request it answers, and preparing never meets a changed state |
| CalibrationSlot.NoDeadEnd | src/capture_arena.rs:1117-1271 | from every state of every run, whatever was cancelled, timed out or failed, the slot can become idle again with no request at work |
| CalibrationSlot.RequestCanBeServed | src/capture_arena.rs:1117-1173 | a request to an unoccupied worker can end with the lease on its own capture |
| WindowGate.RunsStep | src/activity.rs:537-569 | one more window extends exactly the runs the gate is open for |
| WindowGate.GateVerdict | src/activity.rs:522-570 | Active exactly when a window is transient or a run opens, holds and is long enough; evidence is the first qualifying start |
| Activity.WindowWithinTwoHops | src/activity.rs:427-446 | at every sample rate a window is at most two hops |
| Activity.FeedHeld | src/activity.rs:464-520 | one accumulator takes a frame, and evaluates and moves on when its window is full |
| Activity.FeedTracks | src/activity.rs:464-520 | after every sample the two open windows are in the accumulators and the gate has judged all complete ones in order |
| Activity.FinishTracks | src/activity.rs:572-600 | finishing judges the windows cut short, so the result is the fold over all windows |
| Activity.VerdictMeaning | src/activity.rs:522-600 | the verdict in terms of the windows `[k*hop, min(k*hop+window, n))` alone |
| Activity.VerdictEvidenceInside | src/activity.rs:522-570 | evidence lies in the recording |
| Activity.DetectorWorkspace.FeedSample | src/activity.rs:464-520 | the loop over accumulators, in place |
| Activity.DetectorWorkspace.FeedAll | src/activity.rs:739-773 | copies of any size feed every frame once |
| Activity.DetectorWorkspace.FinishAll | src/activity.rs:774-787 | every channel gets the verdict of the whole recording |
| Activity.DetectorWorkspace.Classify | src/activity.rs:695-804 | classification succeeds exactly under its checks, independent of how the epoch is copied; the export keeps all evidence and starts two seconds before the earliest retained one, or with the range |
| ExportDecision.FirstRetained | src/activity.rs:229-233 | the earliest evidence of a retained channel |
| ExportDecision.FrozenExportDecision.Finalize | src/activity.rs:192-257 | succeeds exactly for canonical, in-range decisions of an open decision; the crop leaves two seconds before the earliest retained evidence, never removes any, and its own check never fails |
| CalibrationWindows.PlannedCapacity | src/memory_plan.rs:192-222 | a capture never measures more windows than were planned for |
| CalibrationWindows.RightNext | src/capture_arena.rs:2166-2196 | a sample measures the window it completes, and no other |
| CalibrationWindows.TrailingIs | src/capture_arena.rs:2213-2221 | the trailing frames of a capture, per open window |
| CalibrationWindows.CalibrationCapture.FeedSlot | src/capture_arena.rs:2177-2194 | one accumulator's share of a sample, in place |
| CalibrationWindows.CalibrationCapture.CopyOne | src/capture_arena.rs:2154-2197 | copying a sample keeps: the complete windows measured in order, the next two in the accumulators |
| CalibrationWindows.CalibrationCapture.CopyChunk | src/capture_arena.rs:2130-2203 | a chunk is copied up to the requested frames and no further |
| CalibrationWindows.CalibrationCapture.Finish | src/capture_arena.rs:2205-2231 | usable exactly when all samples are finite, nothing was dropped and a window is complete; the trailing part is the last window's |
| Publication.Storage.Persist | src/recovery.rs:1141-1228 | a manifest is replaced so that a crash leaves the old or the new one, and only the new one after success |
| Publication.Register | src/export_wav.rs:1373-1468 | every directory above a final file is to be synced; each missing one becomes an intent, after the directory it belongs in |
| Publication.Materialize | src/export_wav.rs:1471-1523 | each created directory is recorded before the next, and afterwards every intent exists |
| Publication.WritePartial | src/export_wav.rs:1130-1221 | a partial file is announced before it exists and its inode recorded after it is synced |
| Publication.NameFinal | src/export_wav.rs:1222-1265 | a final name appears only after its inode is durable |
| Publication.PublishRecall | src/export_wav.rs:924-1358 | every state on the way is crash-safe; a failure is retryable exactly when nothing was created and no manifest written, as when a final name is taken; success means the Complete manifest is durable and every file and the directories above it exist and are synced, and follows whenever no system call fails and the names are free |
| Publication.PublishPrepared | src/export_wav.rs:1108-1358 | nothing after the prepared manifest is a retryable failure |
| Publication.PublishDump | src/export_wav.rs:1617-1781 | the same, success included, for a directory published by one rename; what was left untried is retryable, and a retryable failure leaves nothing exactly when no look at the manifest failed |
| Publication.MoveDump | src/export_wav.rs:1734-1776 | the rename happens between two durable manifests that record every inode |
| ConfigCommit.ReferencingProfile | src/calibration.rs:1563-1599 | a profile is returned exactly when the candidate names the generation once |
| ConfigCommit.ConfigStore.Save | src/calibration.rs:1621-1800 | success leaves the candidate after any crash, a plain failure nothing that was not possible before, anything else is reported as uncertain; without an I/O error it succeeds |
| ConfigCommit.ConfigStore.ExchangeBack | src/calibration.rs:1720-1746 | a rolled-back exchange restores the previous target durably or says it did not |
| ConfigCommit.ConfigStore.TakeBack | src/calibration.rs:1779-1795 | a withdrawn first configuration is gone durably or reported |
| ConfigCommit.PreparedGeneration.Cleanup | src/calibration.rs:1251-1271 | a generation is removed only while no configuration may own it, and is gone when the clean-up says so |
| ConfigCommit.CommitGeneration | src/calibration.rs:1510-1561 | no crash leaves a configuration naming a removed generation, unless the candidate names the previous one; live policy follows durable configuration; each answer says which generation may be gone |
| ConfigCommit.CommitThatDangles | src/calibration.rs:1510-1561 | a commit without any error after which the durable configuration names a removed generation |
| Headroom.AtLeastOneField | src/memory_plan.rs:1225-1229 | the guard accepts exactly the positive factors with exponent field 1023 to 2046 |
| Headroom.CeilCancels | src/memory_plan.rs:1234-1243 | cancelling a common factor changes no requirement |
| Headroom.DownwardShift | src/memory_plan.rs:1234-1243 | the power-of-two reduction changes nothing and fits 128 bits |
| Headroom.UpwardShift | src/memory_plan.rs:1244-1252 | what a 128-bit shift keeps, loses, and makes of the requirement |
| Headroom.RequiredBytes | src/memory_plan.rs:1224-1261 | the least integer not below size times factor, exactly when it fits, except where every bit is lost |
| Headroom.ExactBelow128Bits | src/memory_plan.rs:1224-1261 | below 2^128 no factor loses its bits |
| Headroom.ZeroAt128Bits | src/memory_plan.rs:1244-1252 | the factor 2^128 is answered with zero |
| WavParts.FramesPerPart | src/math.rs:93-112 | the most whole frames that fit with the header, refused exactly when not one fits |
| WavParts.PartsForChannel | src/math.rs:64-91 | non-empty contiguous parts covering the range exactly, each within the limit and all but the last filling it, as many as the count says |
| WavParts.ChainedCovers | src/math.rs:64-82 | every frame lies in exactly one part |
| ExportPattern.Parse | src/export_policy.rs:100-140 | the cursor loop computes the pattern's parse |
| ExportPattern.ParseThenPrint | src/export_policy.rs:100-140 | a parsed pattern's segments concatenate back to its text |
| ExportPattern.PrintThenParse | src/export_policy.rs:100-140 | a canonical pattern printed and parsed is itself, so parsing is unambiguous |
| ExportPattern.RenderedFits | src/export_policy.rs:159-189 | no rendering is longer than the precomputed maximum |
| ExportPattern.DecimalReadsBack | src/export_policy.rs:241-256 | a decimal numeral reads back as its number and has no leading zero |
| ExportPattern.TokenShowsItsValue | src/export_policy.rs:230-279 | every token's text reads back as the value the token is named after, padded or not, and only frame positions and part numbers can be padded |
| ExportPattern.Render | src/export_policy.rs:219-281 | the segment loop renders the whole pattern or reports the unsupported token |
| ExportPreview.PathFits | src/export_policy.rs:619-643 | after the capacity check the exact path checks cannot fail |
| ExportPreview.PlanPart | src/export_policy.rs:500-566 | one part's output is rendered from its own numbers into a valid name below the output directory, or refused because its text does not render or is no valid name |
| ExportPreview.CheckConflicts | src/export_policy.rs:745-760 | passes exactly when no output lies above another |
| ExportPreview.Preview | src/export_policy.rs:455-568 | a plan covers the range for every retained channel, all parts but the last as large as the split limit allows, with distinct, conflict-free paths within the limit; every refusal is for a fault of its input, named by the error |

## Left out

- Older entry points `dump`, `persist_with_publisher` and the unaccounted `clear_active`: they bypass the coordinator's accounting.
- Snapshots, pins and sequence numbers of the sample ring: the arena uses only the interface modelled here.
- Samples interleaved within a frame: a frame is one sequence of samples.
- Shutdown and join of the arena, and foreign-runtime checks that a coordinator bound to its arena cannot meet; the queue's clean-up after the worker stopped is the `WorkerFaults` label.
- A second concurrent calibration requester: `begin` acts on the slot as if it were alone.
- Liveness: no fairness is assumed. What is stated instead is that the slots have no dead ends (`NoDeadEnd`) and what each call answers when no wait runs out (the arena's constant `prompt`).
- Weak memory ordering, lock poisoning, panics, page touching, allocation.
- Floating-point rounding: meters and accumulator sums are uninterpreted functions applied in the source's order, thresholds are compared as reals.
- Restart recovery, symbolic links, permissions and descriptor-relative traversal: only what the forward protocol leaves on disk is stated. Of the documented promise that recovery never touches the wrong files, that is the part that a final name is recorded with its inode before it exists.
- Outside writers to the output and configuration directories: identity checks that would notice them are nondeterministic failures.
- TOML and JSON serialisation, the control socket, audio back ends and the command line.
- `derive_calibrated_threshold`, `canonical_wav_data_bytes` and `allocation_budget_bytes`: easy members.
- Publication.Storage.Create: an error is taken to mean that nothing was created, as for the other operations on the disk; that a name standing above a file is a directory is one of the checks that may fail.
- IngressQueue.EveryFrameCounted: says nothing once a counter was exhausted, when the source itself refuses further audio.
