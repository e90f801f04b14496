# Verified model of the FTP client

This project models the logic that remotefs-ftp adds on top of `suppaftp`: who may use the control
connection and when it must be given up, what a ranged read delivers, what can be concluded from an
ambiguous 550, and which LIST rows are accepted. Dafny 4.11 checks it with `dafny verify dfyconfig.toml`.

| file | contents |
|---|---|
| `wrappers.dfy` | `Option` |
| `errors.dfy` | FTP failures, the mapped errors with their source chains, the decisions taken from them |
| `control_channel.dfy` | the control connection as a wire of commands and replies; every command sequence run under the lock |
| `ranged_read.dfy` | download streams as values: budgets, skipping, end of file, draining; the range theorem |
| `answers.dfy` | what each command sequence comes to, forecast from the server's answers alone |
| `operations.dfy`, `sync_runs.dfy`, `sync_progress.dfy` | all interleavings of threads that share the blocking client: safety, and what undisturbed threads achieve |
| `tokio_runs.dfy`, `tokio_progress.dfy` | all schedules of the asynchronous client, poll by poll, with futures and streams dropped anywhere; what undisturbed tasks achieve |
| `guard.dfy`, `sync_client.dfy`, `tokio_client.dfy` | the clients, guards and streams as objects that update shared flags |
| `probe.dfy` | `stat`, `exists`, `list_dir`, the ancestor probe and the refusal classifiers over a file tree |
| `fields.dfy`, `list_rows.dfy`, `listings.dfy` | field spans, device rows, the POSIX and DOS name boundaries, whole listings |

## What is assumed

- `suppaftp` is a contract. One command consumes at most one reply, always the oldest unread one;
  giving up without a reply is never reported as a plain refusal; `finish` consumes one completion
  reply; in the asynchronous variant the next command drains one reply of a transfer dropped
  unfinished. Everything the server answers, including replies that stay behind, is an input.
- A server closes an exhausted data connection with one completion reply; closing it early can add
  a second one (426 then 226; RFC 959, sections 4.2 and 5.4).
- A file tree is fixed while it is probed. A listing of something that has children names all of
  them; a path that holds nothing may be listed as nothing or, unless it is a directory, as its own
  row; anything may be refused or fail at any moment.
- Asynchronous tasks are interleaved poll by poll, as on a single-threaded executor, and a future
  can be dropped between any two polls; the blocking client is interleaved access by access. One
  poll as one step hides that the asynchronous client releases the lock before it records a failure
  (src/client/tokio.rs:557-560, 575-578), and that a cancelled operation drops the mutex guard
  before the operation guard (src/client/tokio.rs:150-153). `AnotherTaskGetsInIff` says exactly when
  another executor thread can get in between.

## Where the code promises more than it does

- When a `RETR` fails after an accepted `REST`, `open` sends `REST 0` and forgets that failure if the
  reset succeeds (src/client/sync.rs:995-1001), although its comment says the marker cannot affect
  later operations. If the `RETR` gave up leaving a 350 unread, the reset takes that 350 for its own
  reply. `AbsorbsStray` is the exact server behaviour under which the connection then stays usable
  but out of step (`OpenKeepsSyncIff`), `ReadsStray` the one under which a reply is misread
  (`OpenStaysInStepIff`), and `ShiftsStart` the one under which `open` delivers another range
  (`StartedTransfersBeginAtTheReportedOffsetIff`, `RangedOpenRefinesSlicingIff`;
  `AStrayReplyShiftsTheRange` is an input).
- Dropping the future of `finish()` skips the invalidation (src/client/tokio/stream.rs:199-206,
  260-263), although the documentation says that cancelling requires a reconnect.
  `CancellingFinishIsSafeIff` says exactly when that is harmless, and
  `AForgottenFinishMisleadsTheNextCommand` is a run in which it is not. Dropping the future of
  `open` while it finishes a transfer whose local skip failed shares the gap
  (`CleanupCancelled(false)` in `TokioFtpFs.Open`).
- On several executor threads another task can send on a connection that has just failed or been
  cancelled, before that is recorded (`AnotherTaskGetsInIff`, `InBetweenRepliesAreMisread`).
- `stat` can find a path that does not exist. `StatFindsAnAbsentPathIff` says exactly when, and
  `PhantomsExist` exhibits it; absence, in contrast, is always reported truthfully. `list_dir` can
  return a regular file, or an absent path, as a directory; `ListDirMeaning` says exactly when.
- The DOS boundary check never looks for Unicode whitespace inside the size or `<DIR>` token, unlike
  the POSIX check. `DosBoundariesAgreeIff` shows that this is the only way an accepted row that
  names something can be read in two ways, and `DosSizesMayHideASpace` is such a row; whether the
  LIST parser takes it is not part of this model.

## Model

| member | source | states |
|---|---|---|
| SyncRuns.EveryRunIsSafe | src/client/sync.rs:345-415 | in every run of every interleaving, against every server: at most one thread holds the lock and at most one owns the flag, which is up exactly while one does; whoever saw the flag down under the lock sees the stream back in its slot and every cleanup failure recorded; nobody is about to send on an unusable client; every transfer is finalized exactly once before the flag falls |
| SyncRuns.EveryRunIsSynchronised | src/client/sync.rs:345-415 | in every run in which no `open` absorbs a stray 350 (`AbsorbsStray`): whoever is about to send, the idle usable client, and whoever saw the flag down on a usable one, has no unread reply and a zero restart marker |
| SyncRuns.EveryReplyAnswersItsCommand | src/client/sync.rs:345-396 | in every run in which no `open` resets a broken RETR that left replies behind (`ReadsStray`), each reply read on the connection, the one to QUIT included, answered the command just sent |
| SyncRuns.PoisonedClientsSendNothing | src/client/sync.rs:382-415 | after any run, against any server: between `&mut` calls an unusable client stays unusable and sends no command under any interleaving |
| SyncRuns.ReconnectingRecovers | src/client/sync.rs:657-673 | after any run, connecting an unusable idle client replaces the stream by one with nothing unread, and the whole invariant holds again |
| SyncRuns.StepKeepsSafe | src/client/sync.rs:128-135 | each single access to mutex, slot, flag or wire by any thread keeps the coordination invariant, whatever the server answers |
| SyncRuns.StepKeepsInv | src/client/sync.rs:128-135 | and, unless an `open` absorbs a stray reply, the reply invariant |
| SyncProgress.UndisturbedOperationsEnd | src/client/sync.rs:345-396 | after any run: an operation nobody disturbs, on an idle usable connected client, ends with exactly the wire, usability and stream of its command sequence, the lock free and the flag up exactly when a stream was handed out; otherwise it ends at the gate and changes nothing |
| SyncProgress.UndisturbedClosingsEnd | src/client/sync/stream.rs:171-224 | after any run: closing a stream finalizes it once, records a failure, and lowers the flag |
| SyncProgress.UsingReadsTheStream | src/client/sync/stream.rs:185-198 | reading from an owned stream advances its reader and nothing else |
| SyncProgress.ConnectingMeans | src/client/sync.rs:657-738 | after any run, with no thread inside: `connect` is refused exactly when a transfer is active, or the client is usable with its stream in the slot; else the client is usable again, and connected to a fresh wire exactly when the server was reached |
| SyncProgress.DisconnectingMeans | src/client/sync.rs:741-769 | refused exactly while a transfer is active or without a stream; else the stream is given up, and only a usable one is asked to quit, whose answer decides on usability |
| SyncProgress.AClientWorks | src/client/sync.rs:657-738 | a run from a new client: it connects, sends a command, uploads a file, and is idle, usable and clean again |
| ControlChannel.OpenKeepsSyncIff | src/client/sync.rs:992-1014 | `open` ends poisoned, or with no unread reply and a zero restart marker, if and only if the server did not plant a stray 350 behind a broken RETR |
| ControlChannel.OpenStaysInStepIff | src/client/sync.rs:992-1014 | each reply `open` reads answers the command just sent if and only if it does not reset a RETR that broke with replies outstanding |
| ControlChannel.StartedTransfersBeginAtTheReportedOffsetIff | src/client/sync.rs:992-1014 | for every server: a started `open` begins on the server at `offset` when `resumed` is reported and at 0 otherwise, if and only if the server does not answer as `ShiftsStart` says |
| ControlChannel.ShiftedStarts | src/client/sync.rs:995-1001 | with such answers `open` always reports a local skip, of a transfer that starts at the marker the broken RETR left, or that never starts |
| ControlChannel.StartedTransfersAreClean | src/client/sync.rs:992-1014 | unless a stray reply was absorbed, the stream handed out has no unread reply and no marker in front of it |
| ControlChannel.OpenBeginsWhatItReturns | src/client/sync.rs:992-1014 | `open` owes one completion reply exactly when it hands a stream to its caller, and never regains usability (whether the server began the transfer is `StartedTransfersBeginAtTheReportedOffsetIff`) |
| ControlChannel.OpenCanShiftItsRange | src/client/sync.rs:995-1001 | a concrete server for which `open` reports a local skip while the transfer starts at the marker |
| ControlChannel.ListKeepsSync | src/client/sync.rs:621-653 | a LIST that leaves the client usable has consumed all its replies, completion included, whatever failed |
| ControlChannel.StoreKeepsSync | src/client/sync.rs:1029-1061 | STOR and APPE start at marker zero and leave nothing unread on a usable client |
| ControlChannel.CommandKeepsSync | src/client/sync.rs:893-938 | a plain command leaves nothing unread on a usable client |
| Answers.OpensFollowTheAnswers | src/client/sync.rs:988-1014 | for every server: the result of `open`, its failure included, and whether it leaves the client usable, from the answers alone |
| Answers.OpenStartsIff | src/client/sync.rs:546-567 | without a marker (none asked for, offset too large, or declined with any code but 421) `open` starts exactly when RETR is answered with 125 or 150, and then for a local skip; with one, exactly when RETR is, and then resumed, or when the reset reads 350 and the second RETR reads 125 or 150, for a local skip; a broken or 421 REST aborts it |
| Answers.ListsFollowTheirAnswers | src/client/sync.rs:621-653 | a LIST succeeds if and only if it was announced, its rows were read and its completion was 226 or 250; which kind and ambiguity a failure has; only a plain refusal of the LIST itself leaves the client usable |
| Answers.UploadsFollowTheirAnswer | src/client/sync.rs:1029-1061 | an upload starts exactly when STOR or APPE is answered with 125 or 150; a plain refusal leaves the client usable, anything else does not |
| Answers.CommandsFollowTheirAnswer | src/client/sync.rs:893-938 | a command succeeds exactly on 200, 250 and 257; a plain refusal leaves the client usable, anything else does not |
| Answers.OnlyRefusalsAreHarmless | src/client/error.rs:25-93 | every FTP failure but a refusal other than 421 asks for a reconnect, mapped or not |
| Answers.OtherErrorsAreJudgedByTheirKind | src/client/error.rs:84-127 | an error without an FTP failure behind it asks for a reconnect exactly for a connection error, and is never ambiguous |
| Errors.WrappingKeepsBothVerdicts | src/client/error.rs:84-127 | no amount of rewrapping changes whether an error asks for a reconnect or is an ambiguous refusal |
| Errors.RemoteErrorRequiresReconnect | src/client/error.rs:84-93 | the loop decides by the FTP failure nearest the outside of the chain, else by the kind |
| Errors.IsAmbiguousPathRefusal | src/client/error.rs:113-122 | the loop decides by the refusal code nearest the outside of the chain |
| Errors.ListCleanupIsJudgedByItsCompletion | src/client/error.rs:129-150 | a LIST that failed twice is judged by its completion alone, so only the separate flag poisons the connection when that was a refusal |
| Errors.NoSuchFileIsExactlyTheAmbiguousRefusal | src/client/error.rs:25-61 | among mapped FTP failures "no such file" and the ambiguous 550 coincide, and never ask for a reconnect |
| RangedRead.RangedOpenDelivers | src/client/sync.rs:988-1027 | for every file, range, server behaviour and chunking, what is read is a prefix of `Delivery`, which is the slice file[offset .. offset+length] unless `ShiftsStart`, and then the slice further on by the left-over marker, or nothing; the first empty read into a non-empty buffer means all of it was read |
| RangedRead.RangedOpenRefinesSlicingIff | src/client/sync.rs:988-1027 | for a range that is not empty, the delivery is the requested slice of every file if and only if the start is not shifted |
| RangedRead.RangedOpenDeliversAll | src/client/sync.rs:1015-1027 | when no read fails, the local skip does not fail, past the end of the file too, and enough reads deliver all of it |
| RangedRead.ReadMeaning | src/client/sync/stream.rs:36-51 | a read fails exactly when it asks a failing socket, else hands over at least one byte if buffer, budget and data allow, never more than they do; end of file is noted exactly when the socket was asked and had nothing left |
| RangedRead.AStrayReplyShiftsTheRange | src/client/sync.rs:995-1001 | one such server makes `open` at 7 deliver every file from 14 |
| RangedRead.PollingEqualsBlocking | src/client/tokio/stream.rs:213-243 | for any schedule of pending answers, chunks and failures the asynchronous stream delivers the bytes of the blocking one and ends with the same budget and end-of-file flag |
| RangedRead.EofStaysSound | src/client/sync/stream.rs:146-198 | the end-of-file flag is only ever raised when the data is exhausted, also under a byte budget or a short skip |
| RangedRead.SkipReachesItsOffset | src/client/sync/stream.rs:146-156 | a successful skip drops exactly the first min(offset, length) bytes, and is short exactly when the data is shorter |
| RangedRead.SkipMeaning | src/client/sync/stream.rs:146-156 | a skip that works leaves the data behind its offset, notes the end of file exactly when the data was shorter, and never touches the budget |
| RangedRead.FinishReadKeepsSync | src/client/sync/stream.rs:54-89 | finalization asks for exactly one completion reply, and when it reports success no reply is left |
| RangedRead.FinishReadSucceedsIff | src/client/sync/stream.rs:54-89 | finalization reports success if and only if the drain worked, where one was needed, and the server completed with 226 or 250 |
| RangedRead.FinishWriteSucceedsIff | src/client/sync/stream.rs:297-317 | the same for the flush of an upload |
| RangedRead.DrainsSucceed | src/client/sync/stream.rs:54-72 | a drain fails only when a read fails, and else leaves nothing |
| RangedRead.Limit | src/client/sync/stream.rs:47-49 | narrowing the budget to a usize never exceeds the budget or the buffer, and bounds the read by exactly their minimum |
| Guards.TransferGuard.Invalidate | src/client/guard.rs:25-27 | clears usability only |
| Guards.TransferGuard.Drop | src/client/guard.rs:30-34 | lowers the flag only |
| SyncClient.FtpReadStream.Read | src/client/sync/stream.rs:185-198 | the blocking read as a function of budget, data and chunk |
| SyncClient.FtpReadStream.SkipPrefix | src/client/sync/stream.rs:146-156 | the copy loop of the local skip |
| SyncClient.FtpReadStream.FinishInner | src/client/sync/stream.rs:171-178 | drains, finalizes once, and poisons on any failure before the flag can fall |
| SyncClient.FtpReadStream.Finish | src/client/sync/stream.rs:205-209 | exactly one finalization, then the flag is down |
| SyncClient.FtpReadStream.Drop | src/client/sync/stream.rs:212-224 | finalizes once if nobody did, else not at all, then lowers the flag |
| SyncClient.FtpWriteStream.Finish | src/client/sync/stream.rs:271-280 | one finalization of an upload, poisoned on failure, then the flag is down |
| SyncClient.FtpWriteStream.Drop | src/client/sync/stream.rs:282-294 | finalizes an upload only if it was not finished |
| SyncClient.FtpFs.CheckOperationState | src/client/sync.rs:382-396 | the gate: busy before unusable |
| SyncClient.FtpFs.Command | src/client/sync.rs:345-357 | a blocked call changes nothing and names the reason; otherwise the exchange and its recording, and the client stays synchronised |
| SyncClient.FtpFs.ListDirRaw | src/client/sync.rs:359-379 | LIST with the stream out of its slot: back afterwards, flag restored, failures recorded |
| SyncClient.FtpFs.Retrieve | src/client/sync.rs:992-1014 | the commands of `open` with their marker reset and recording |
| SyncClient.FtpFs.Open | src/client/sync.rs:988-1027 | returns the stream positioned at the offset with flag and guard raised, or leaves the flag down after one finalization, and keeps the client synchronised |
| SyncClient.FtpFs.Store | src/client/sync.rs:1029-1061 | an upload stream with its guard exactly when the transfer started |
| SyncClient.FtpFs.Connect | src/client/sync.rs:657-738 | refuses while busy or already connected, never reuses a poisoned stream |
| SyncClient.FtpFs.Disconnect | src/client/sync.rs:741-769 | always gives the stream up and asks only a usable one to quit |
| TokioRuns.EveryAsyncRunIsSafe | src/client/tokio.rs:378-391 | in every run, against every server: at most one task holds the lock, at most one owns the stream and the flag, never both; the flag is up exactly while one owns it; an operation begins only on a usable client, and its guard is not completed at any of its awaits; `connected` mirrors the slot |
| TokioRuns.EveryAsyncRunIsSynchronised | src/client/tokio.rs:378-391 | in every run in which no `open` absorbs a stray 350 and no undrained `finish` is cancelled (`SoundRun`): an idle usable client has at most one unread reply, exactly when one is deferred, and only after a dropped upload or a download dropped at end of file (or a drained `finish` that was cancelled); an operation starts from a clean wire, and no command but the two of a marker reset is sent while a reply is unread |
| TokioRuns.EveryAsyncReplyAnswersItsCommand | src/client/tokio.rs:567-580 | in every such run that also resets no broken RETR with replies outstanding (`ReadsStray`), each reply read, drained replies and the one to QUIT included, belongs to the command that waited for it |
| TokioRuns.DecisionsFollowTheCommands | src/client/tokio.rs:943-996 | each await of an operation leads where its undisturbed command sequence leads: to the next exchange, or to exactly its final wire, verdict and stream |
| TokioRuns.CompletedOperationsSettle | src/client/tokio.rs:128-166 | in every run, an operation that reaches `complete()` has done exactly what its command sequence does from the wire it met, and has released the lock; in a run without stray replies or undrained cancelled `finish` (`SoundRun`) that wire was clean, and nothing is left unread or the client unusable |
| TokioRuns.CancellationPoisons | src/client/tokio.rs:128-166 | after every run, against every server, dropping an operation at any of its awaits (drain, each command sent or answered, LIST data, completion), or a download before end of file (also while `open` skips): under every schedule that follows, until `connect` or `disconnect`, the client is unusable, nobody gets the lock and nothing is sent |
| TokioRuns.UnusableClientsSendNothing | src/client/tokio.rs:378-407 | a client that any run has left unusable with its lock free sends nothing, under any schedule, until `connect` or `disconnect` |
| TokioRuns.UsabilityIsNotRegained | src/client/tokio.rs:613-730 | only `connect` and `disconnect` ever make an unusable client usable |
| TokioRuns.CancellingFinishIsSafeIff | src/client/tokio/stream.rs:199-206 | after dropping the future of `finish` every next command reads its own reply, whatever the server answers, if and only if the data had been drained |
| TokioRuns.AForgottenFinishMisleadsTheNextCommand | src/client/tokio/stream.rs:199-206 | a run from a new client in which it does not: after 426 and 226 the next command reads the 226 as its own reply, on a usable client |
| TokioRuns.NextKeepsSafe | src/client/tokio/stream.rs:256-272 | each poll, drop or cancellation keeps the server-independent invariant |
| TokioRuns.NextKeepsGood | src/client/tokio/stream.rs:256-272 | and, in a sound step, the reply invariant |
| TokioProgress.UndisturbedOperationsEnd | src/client/tokio.rs:378-391 | after any run: an operation nobody disturbs or drops, on an idle usable connected client, drains the deferred reply and ends with exactly the wire, usability and stream of its command sequence, the lock free and the flag up exactly when a stream was handed out; otherwise it ends at the gate and changes nothing |
| TokioProgress.HeldOperationsEnd | src/client/tokio.rs:943-996 | polled to its end, an operation at whatever await does what its command sequence does |
| TokioProgress.DroppingMeans | src/client/tokio/stream.rs:256-272 | dropping a stream dismisses its transfer, lowers the flag, and keeps the client usable exactly for an upload and for a download at end of file |
| TokioProgress.FinishingMeans | src/client/tokio/stream.rs:199-206 | finishing keeps the client usable exactly when the finalization worked; dropping its future always |
| TokioProgress.ConnectingMeans | src/client/tokio.rs:613-695 | as for the blocking client, and nothing is deferred on a fresh stream |
| TokioProgress.DisconnectingMeans | src/client/tokio.rs:697-730 | as for the blocking client, after draining a deferred reply |
| TokioRuns.AnotherTaskGetsInIff | src/client/tokio.rs:554-580 | on several executor threads, a task that waits for the lock gets it between the release and the recording of a failure (of a command, a LIST or a cancellation) if and only if the client was still usable |
| TokioRuns.InBetweenRepliesAreMisread | src/client/tokio.rs:140-166 | what it does there: after a command cancelled before its reply was read, the next command takes that reply for its own |
| TokioClient.TokioReadStream.PollRead | src/client/tokio/stream.rs:213-243 | one poll as a function of budget, data and readiness |
| TokioClient.TokioReadStream.SkipPrefix | src/client/tokio/stream.rs:181-190 | the local skip of the blocking client, or dropped in it before any end of file |
| TokioClient.TokioReadStream.FinishInner | src/client/tokio/stream.rs:199-206 | drains, finalizes once and poisons on failure; dropped at any await it dismisses the transfer and poisons nothing, and leaves the control stream quiet when it says the data was drained |
| TokioClient.TokioReadStream.Drop | src/client/tokio/stream.rs:256-272 | defers the one reply at end of file, gives the connection up before it; either way a usable client is left with what its next command drains |
| TokioClient.TokioWriteStream.Finish | src/client/tokio/stream.rs:326-334 | finalizes an upload and poisons on failure; dropped at any await it defers the one reply |
| TokioClient.TokioWriteStream.Drop | src/client/tokio/stream.rs:337-349 | defers the one reply of an unfinished upload |
| TokioClient.OperationGuard.Drop | src/client/tokio.rs:140-147 | poisons exactly when the operation did not complete |
| TokioClient.TokioFtpFs.LockStream | src/client/tokio.rs:378-391 | an operation guard exactly when idle, usable and connected, else the reason |
| TokioClient.TokioFtpFs.RunCommand | src/client/tokio.rs:567-580 | blocked with its reason and nothing touched; else, exactly when dropped at one of its two awaits, cancelled and poisoned; else the exchange with its failure recorded; synchronisation is kept |
| TokioClient.TokioFtpFs.ListDirRaw | src/client/tokio.rs:554-564 | the same for LIST, with the recording of the blocking client |
| TokioClient.TokioFtpFs.RecordingAddsNothing | src/client/tokio.rs:1089-1129 | skipping the recording of the mapped error loses nothing: the flag of the LIST reader covers it |
| TokioClient.TokioFtpFs.Store | src/client/tokio.rs:998-1044 | an upload stream with its guard exactly when the transfer started; dropped at an await the client is poisoned; synchronisation is kept |
| TokioClient.TokioFtpFs.Retrieve | src/client/tokio.rs:950-985 | the commands of `open`, one await each, compute the command sequence of the blocking client unless dropped |
| TokioClient.TokioFtpFs.Open | src/client/tokio.rs:943-996 | the stream positioned at the offset, or a refusal; dropped under the lock or in the local skip the client is poisoned; synchronisation is kept, against a server that plants no stray 350, unless it is dropped while it finishes, undrained, a transfer whose skip failed |
| TokioClient.TokioFtpFs.Connect | src/client/tokio.rs:613-695 | keeps the `connected` mirror, also when cancelled |
| TokioClient.TokioFtpFs.Disconnect | src/client/tokio.rs:697-730 | keeps the `connected` mirror, also when cancelled; only a usable stream is asked to quit, and its failure recorded |
| Probe.AncestorProbe | src/client/sync.rs:471-487 | the bounded loop over ancestors: verdict and listed paths |
| Probe.ProbeMeaning | src/client/sync.rs:471-487 | the probe proves absence if and only if, for some i up to 8, ancestors 1..i-1 were refused with 550 and ancestor i listed successfully without ancestor i-1 |
| Probe.ProbeClimbs | src/client/sync.rs:471-487 | it lists proper ancestors, nearest first, at most eight |
| Probe.StatAbsenceIsSound | src/client/sync.rs:822-877 | against any tree and honest server, `stat` reports NoSuchFileOrDirectory only for absent paths |
| Probe.ExistsAbsenceIsSound | src/client/sync.rs:879-886 | `exists` answers false only for absent paths |
| Probe.ExistsMeaning | src/client/sync.rs:879-886 | `exists` answers true exactly when `stat` finds something and false exactly when it reports a missing path; every other failure is passed on |
| Probe.RefusedParentsAreMissingIffProven | src/client/sync.rs:840-852 | with the LIST of the parent refused, `stat` answers NoSuchFileOrDirectory if and only if one of the parent's first eight ancestors was listed without the one below it after refusals of the nearer ones, and PermissionDenied otherwise |
| Probe.RefusedListingsAreMissingIffProven | src/client/sync.rs:788-800 | the same for a refused `list_dir` |
| Probe.FailedListingsKeepTheirKind | src/client/sync.rs:799-851 | any other failure of the LIST keeps its kind |
| Probe.StatOfAnAbsentPath | src/client/sync.rs:822-877 | what `stat` answers for an absent path, case by case: a failed LIST keeps its kind, a refused one is decided by the probe, a regular-file parent that can be found gives BadFile, a phantom is found, everything else is missing |
| Probe.StatOfAPresentPath | src/client/sync.rs:822-877 | what it answers for a present one: found with its type exactly when the answers resolve it, else denied or the failure met |
| Probe.ListDirAbsenceIsSound | src/client/sync.rs:784-800 | `list_dir` reports NoSuchFileOrDirectory only for absent paths |
| Probe.StatPresenceIsSound | src/client/sync.rs:854-877 | what `stat` finds is there with the reported type, or is a phantom |
| Probe.StatFindsAnAbsentPathIff | src/client/sync.rs:854-870 | `stat` finds an absent path if and only if its parent holds nothing and was listed as its own row, the path repeats its name, and the parent is no regular file or the LIST of the grandparent was refused or denied |
| Probe.DeniedIffTheParentIsDenied | src/client/sync.rs:840-870 | for something that exists, `stat` answers PermissionDenied if and only if the LIST of its parent was refused or denied |
| Probe.ListFailuresFit | src/client/sync.rs:621-653 | every failure of a LIST exchange that maps to NoSuchFileOrDirectory is the ambiguous refusal |
| Probe.PhantomsExist | src/client/sync.rs:866-870 | an honest server for which `exists` answers true for an absent path |
| Probe.StatIsComplete | src/client/sync.rs:822-877 | when no ancestor is refused, `stat` finds everything that exists, with its type |
| Probe.StatClimbs | src/client/sync.rs:822-877 | `stat` at depth d issues at most d LISTs, the i-th of them to the i-th proper ancestor, so no path twice |
| Probe.ListDirClimbs | src/client/sync.rs:784-820 | `list_dir` lists its path first and then climbs: at most d + 1 LISTs |
| Probe.PresentPathsAreFoundIff | src/client/sync.rs:822-877 | `stat` finds something that exists if and only if each LIST it relies on succeeds, or is denied where that will do (`Resolves`) |
| Probe.ListDirMeaning | src/client/sync.rs:801-819 | what a successful LIST becomes: a regular file is BadFile exactly when `stat` can find it and is else returned as if it were a directory; everything else that exists is returned with its listing; an absent path reads as an empty directory unless it is the phantom of a regular file |
| Probe.CreateRefusalsNeedProof | src/client/sync.rs:432-448 | a refused STOR or APPE: AlreadyExists only for a directory in the way, NoSuchFileOrDirectory only when path and parent are absent, else PermissionDenied; and each of the two exactly when `stat` says so |
| Probe.CreateDirRefusalsNeedProof | src/client/sync.rs:501-515 | a refused MKD: the same, AlreadyExists exactly for anything found |
| Probe.RemoveDirRefusalsNeedProof | src/client/sync.rs:451-468 | a refused RMD: BadFile, DirectoryNotEmpty and NoSuchFileOrDirectory only with proof, else PermissionDenied |
| Probe.RemoveDirRefusalsUseTheirProof | src/client/sync.rs:451-468 | and it is blamed on a file, on contents or on absence exactly when `stat` and `list_dir` show them |
| Probe.OtherRefusalsKeepTheirKind | src/client/error.rs:96-111 | only 550, and for creations and renames 553, is looked into; every other failure keeps its kind |
| Probe.RenameRefusalsNeedProof | src/client/sync.rs:518-532 | a refused rename: NoSuchFileOrDirectory only when the source or the destination's parent is absent, and exactly when `stat` says so; else PermissionDenied |
| Probe.FileRefusalsFallBackToTheRawKind | src/client/sync.rs:418-429 | a refused RETR or DELE: BadFile exactly for a directory that is found, else the raw kind of the 550 |
| RowFields.FieldSpans | src/client/list.rs:295-311 | the loop over bytes returns exactly the ordered maximal runs of bytes that are not ASCII whitespace |
| RowFields.FieldsAreUnique | src/client/list.rs:295-311 | there is only one list of such runs |
| RowFields.SpansLieOnCharacterBoundaries | src/client/list.rs:295-311 | the byte spans of a UTF-8 row are the byte offsets of its character fields |
| ListRows.NormalizingDropsOneField | src/client/list.rs:270-292 | normalizing a device row drops one field, keeps the fields before the major number, moves every later one by the same distance and leaves the text behind the size unchanged |
| ListRows.PosixRowsAreAcceptedIffTheBoundariesAgree | src/client/list.rs:94-144 | a POSIX row with at least nine fields is accepted if and only if splitting on Unicode whitespace and splitting off one separator find the same eight fields and the same start of the name |
| ListRows.DosBoundariesAgreeIff | src/client/list.rs:161-233 | for a DOS row that names something behind its time, splitting on Unicode and on ASCII whitespace find the same size or `<DIR>` and the same start of the name, one separator further or at the padded column, if and only if the row is accepted and its metadata token holds no Unicode whitespace |
| ListRows.DosSizesMayHideASpace | src/client/list.rs:207-215 | a row that is accepted although the two readings of its size and name differ |
| ListRows.Find | src/client/list.rs:178-182 | the first occurrence of the time marker, or none at all |
| ListRows.TheSeparatorIsMeasuredInBytes | src/client/list.rs:111-112 | the gap test gives the same verdict in bytes and in characters |
| ListRows.PosixRowsAreAcceptedIff | src/client/list.rs:94-144 | every POSIX row, also one without a name: accepted if and only if it has fewer than eight fields, ends with a plain eighth, or its boundaries agree |
| ListRows.DosRowsAreAcceptedIff | src/client/list.rs:161-233 | every DOS row, also one without a name: accepted if and only if nothing follows its date, or a time does and what is behind it is unambiguous |
| ListRows.TimesEndBehindTheirMarker | src/client/list.rs:168-189 | the time ends behind the first AM of eight characters, else behind the first PM, else it is unsupported |
| ListRows.DeviceRowsIff | src/client/list.rs:270-288 | a device row starts with `b` or `c` and has digits with at least one comma, and digits, as its fields 4 and 5 |
| Listings.ListingsAreExact | src/client/list.rs:26-72 | a listing is read if and only if every considered row is unambiguous, read by an expression, and named by a dot or one component; then each entry has the name and type read in its row and lies directly below the directory, rows keep their order, and exactly the dot rows are left out |
| Listings.UnambiguousIff | src/client/list.rs:75-91 | the checks a row passes are exactly: POSIX boundary, at most one arrow in a link, DOS boundary |
| Listings.ArrowsAreCounted | src/client/list.rs:77-82 | counting matches finds more than one arrow exactly when two separate ones occur |
| Listings.OnlyATotalIsNoRow | src/client/list.rs:27-36 | only a first line "total " and a number is left out before |
| Listings.SpecialRowsAreReadAsFiles | src/client/list.rs:255-267 | a special row is read by the POSIX expression as a regular file of the same text with one size field, or else by the DOS expression as it stands |
| Listings.KeptRowsAreRead | src/client/list.rs:314-334 | an entry is its row: one path component below the listed directory, with the name and type that were read |

## Left out

- TCP, TLS, login, transfer modes, option setters and `stream()`: I/O and configuration; a failing passive stream builder keeps its effect on usability.
- `suppaftp` itself, including its LIST expressions: a contract, and the two parameters of `Listings.Parser`.
- `decode_list_bytes`: listings start from decoded lines.
- Sizes, times, permissions, owners and symlink targets of entries: copied from the parser's row.
- `remote_path` and `resolve`: paths are sequences of valid components, and the parent of a valid path is valid.
- `rename` as two commands (RNFR, RNTO): one exchange of the contract.
- The status-to-kind table beyond the codes that steer something: read off `StatusKind`.
- Mapped errors of stream and skip failures keep only success or failure; their kinds steer nothing.
- Dropping the future of `connect` or `disconnect` in a run: the objects of `TokioClient` cover it; in `TokioRuns` a dropped `connect` is a failed one.
- The asynchronous refusal classification after `complete()`: further operations of the same task.
- The asynchronous copy of the path probes: it mirrors the blocking one.
- Interrupted reads, which `io::copy` retries, and the sizes of its internal buffer: part of the chunking.
- Reads of `is_connected` and `welcome_message` from other threads: they observe and steer nothing.
- `copy`, `symlink`, `set_metadata`, `capabilities`, logging and error texts: each is one branch.
