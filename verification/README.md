# wedecent: a model of its session, mesh and Local Core logic

wedecent carries terminals and file transfers between devices. This project models three parts of it
and proves what they promise over every interleaving of their steps.

**Typed-stream sessions.** One parent connection multiplexes terminals, uploads and downloads, each
with its own credit window. `Download`, `Upload` and `Terminal` model one stream end to end: the
callers, both ends' frame handlers and goroutines, the wakeup tokens and the frames in flight; a
terminal has output, input, resizing and every way to end. Every critical section and every frame
write is one step, and a run is any sequence of steps. `DownloadProgress`, `UploadProgress` and
`TerminalProgress` show that a stream neither deadlocks nor livelocks, `TerminalLoss` what cancelled
writes cost a terminal. `Multiplex` allocates, opens and runs any number of streams on one pair of FIFO
channels, with one client monitor, one server frame loop, one stream registry and one shared directory,
and lifts every single-stream invariant to all of them. `MultiplexProgress` shows that the session does
not deadlock and `MultiplexBound` that it does not livelock; `MultiplexBackPressure` is the same session
on channels of any bounded capacity, `MultiplexLimits` the terminal limits of both ends.
`TerminalRuns`, `MultiplexRuns` and `MultiplexClinch` are concrete runs.
`DownloadEndpoints`, `UploadEndpoints` and `TerminalEndpoints` are the mutable objects of both ends:
whatever order their methods run in is a run of the machine. `FileStore` is the staged upload and the
bounded download below them, `Namespace` the stream-ID registry and its two engines, `Allocator` the
client's ID allocation against that registry. `Frames` and `BigEndian` are the wire codecs; `Protocol`,
`Buffer`, `Credit` and `Machine` hold what the streams share, `Common` and `Sets` what everything does.

**Routes.** `Mesh` is route validation and planning, `RouteAuth` the signed authorization, `Replay` and
`MemoryReplay` its single use, `RouteUse` the way of one authorization through verification, the replay
store and the dialing router, `Forwarder` a router's admission and accounting.

**Local Core.** `Connections` is the connection manager, `ConnectionWatch` who notices that a connection
has ended, `Idempotency` the replay protection in front of it, `Recovery` the UI's single-flight recovery,
`UiRetry` the UI's pending terminal write against that protection.

A machine is a total function `Do(state, action)` in which a disabled action changes nothing, and
`Run` folds it over a schedule; theorems quantify over all schedules. An object the source updates in
place is a class whose methods are proved to do exactly what the machine's functions say. The disk, the
clock, the PTY, the backend and the signature scheme are inputs: each fault, time, read and answer is a
parameter of the step that meets it.

## Where the code does not keep a promise

- docs/PHASE4_STREAM_CONTRACT.md:14,108 promises that closing one stream leaves its siblings alone. However
  a terminal ends (process exit, drain timeout, failed input or resize, close by the client), its ID is
  closed first, so a frame the client has in flight is a protocol violation that ends the parent; and data
  the server writes behind its close acknowledgement is refused by the client.
  `Terminal.RefusedExactlyWhen` gives both conditions as equivalences, `TerminalRuns.ExitCanEndParent` and
  `TerminalRuns.CloseCanEndParent` give runs.
- Terminal reads write their window update before they raise their own credit
  (internal/session/managed_multiplex.go:358-375; downloads do it the other way round), so the client can
  refuse an honest server: exactly when the data exceeds its receive credit, which only happens between the
  two halves of a read (`Terminal.RefusedExactlyWhen`, run `TerminalRuns.HonestServerCanBeRefused`).
- The last output of a process is lost unless the caller is already reading when the close arrives, because
  no later call finds the stream (`Terminal.OnlyTheReadInProgressSurvives`, run
  `TerminalRuns.LastOutputCanBeLost`).
- The client allows eight terminals, the server seven. A session is lost to that limit only after the client
  opened a terminal while it counted seven of its own (`MultiplexLimits.TooManyNeedsAnEighth`), and at rest the
  next terminal ends the session if and only if it counts seven (`MultiplexLimits.EighthIsRefusedExactly`, run
  `MultiplexRuns.EighthTerminalEndsParent`).
- WriteTerminalStream spends its credit before it writes, and a context that ends in between leaves without
  writing, refunding or ending the session (internal/session/managed_multiplex.go:417,432,777-782). Credit is
  lost exactly then (`TerminalLoss.LostExactlyWhenDropped`). On an open stream at rest a Write sleeps if and
  only if a whole window has been lost, and then it and every later one sleeps until its own context ends
  (`TerminalLoss.WriteSleepsExactlyWhenStarved`, run `TerminalRuns.WriteCanSleepForEver`).
- The client's one monitor and the server's one frame loop both write frames before they read the next one
  (internal/session/managed_file_transfer.go:788-835). On channels that stop accepting frames a session stands
  still without being at rest only if each of the two waits for the other to read
  (`MultiplexBackPressure.StuckOnlyInAClinch`), and only a write timeout ends that (run
  `MultiplexClinch.SessionCanClinch`).
- After a server-side file failure the ID is closed at once, so a frame the client had already sent ends the
  parent (`Download.ServerAcceptsUnlessReadFailed`, run `Download.FailedReadCanEndParent`;
  `Upload.ServerRefusesExactlyAfterFailure`, run `Upload.FailedWriteCanEndParent`).
- `FileUpload.Commit` publishes the file and still returns an error exactly when only the removal of the
  staging file fails (`FileStore.CommitResult`).
- The in-memory replay guard documents exactly one success, but reads its clock before it takes its lock
  (internal/mesh/routeauth.go:84-116). `MemoryReplay.GrantedAgainExactlyWhenOutlived` states exactly when a
  second grant happens, `MemoryReplay.GrantedTwiceBeforeExpiry` shows one before expiry.
- An error from the final chmod in saveLocked leaves the new state on disk while memory keeps the old one:
  the JTI is refused after a restart although its consumption failed (`Replay.BurnedExactlyWhenRenamed`, run
  `Replay.FailedConsumptionCanBurn`).
- The verifier reads its clock before the replay store reads its own, so an authorization can be accepted
  again around its expiry, and dialed again while its route, whose expiry may carry a fraction of a
  millisecond, is still open (`RouteUse.UsedTwiceOnlyAroundExpiry`,
  `RouteUse.GrantedAgainExactlyWhenExpired`, runs `RouteUse.DialedTwice` and `RouteUse.SampleIsDialedTwice`).
- A connection that ends while a Disconnect is failing keeps its slot although nobody watches it any more
  (internal/coreapi/connection_service.go:265-315,344-369). `ConnectionWatch.UnwatchedExactlyWhenSwallowed`
  says exactly when, `ConnectionWatch.OnlyADisconnectFreesTheSlot` what it takes to end that, and
  `ConnectionWatch.EndedConnectionCanKeepItsSlot` is a run in which it blocks every further Connect.
- docs/WINDOWS_GUI_PROTOTYPE.md:93-94 promises that a terminal write repeated within five minutes is not written
  twice. The UI checks its window when it prepares the request, the Core its own when the request arrives, so a
  request that is under way when the window ends can be executed again; nothing else can
  (`UiRetry.NoSecondWriteBeforeExpiry`, `UiRetry.ExecutedAgainExactlyWhenForgotten`, run
  `UiRetry.RetryInWindowCanExecuteTwice`).

## Model

| member | source | states |
|---|---|---|
| `Download.CreditIsConserved` | internal/session/managed_file_transfer.go:452-521 | over every interleaving without cancel or teardown, client receive credit = server send credit + spent-unwritten + data in flight + updates in flight + credited-unannounced; the window and the buffer share 256 KiB; the client refuses no frame of this server |
| `Download.ServerAcceptsUnlessReadFailed` | internal/session/typed_file_server.go:264-290 | the server refuses a client frame if and only if a file read has failed before, so send credit never overflows on a healthy stream |
| `Download.FailedReadCanEndParent` | internal/session/typed_file_server.go:343-351 | a concrete run in which a correct client's window update crosses a failed read and ends the parent session |
| `Download.BytesStayInOrder` | internal/session/typed_file_server.go:353-431 | at every moment returned + in Read + queued + in flight + being written + unread is the file, byte for byte |
| `Download.CompleteMeansAllSent` | internal/session/typed_file_server.go:363-367 | download_complete is on the wire only as the last frame and only when nothing is unsent |
| `Download.FinishedMeansWholeFile` | internal/session/managed_file_transfer.go:788-835 | a Read that returns done with a nil error has completed an exact copy of the file |
| `Download.NoLostWakeup` | internal/session/typed_file_server.go:358-376 | a forwarder asleep with usable credit has a token pending or about to be posted; a Read asleep with buffered bytes has a notification pending, about to be posted, or the stream's end |
| `DownloadProgress.NeverStuck` | internal/session/managed_file_transfer.go:446-521 | every run in which no read failed can be continued until Read has returned the whole file, the waits on outputNotify and creditCh included: no deadlock of credit, wakeups and frames |
| `DownloadProgress.TerminatesWithin` | internal/session/typed_file_server.go:353-431 | any schedule of an n-byte download has at most 39n + 24 effective steps plus 3 for each call of Read and 2 for each empty file read: no livelock |
| `DownloadProgress.OnlyTheCallerIsAwaited` | internal/session/managed_file_transfer.go:452-521 | in every reachable state in which only the caller could do anything, no Read is in progress, there is something to read or the stream has ended, and an end without error comes with the whole file |
| `Upload.CommittedMeansExactCopy` | internal/session/managed_file_transfer.go:382-417 | if every Write and then Commit return nil, the destination holds exactly the written bytes and meets the announced size and digest, for every interleaving, every disk fault and whatever others do to other files |
| `Upload.CommittedMeansPublished` | internal/session/typed_file_server.go:292-311 | even after an abandoned Write, a nil Commit means the hashed bytes were published |
| `Upload.CreditIsConserved` | internal/session/typed_file_server.go:226-262 | receive credit granted = client send credit + spent-unwritten + data in flight + updates in flight; the client refuses nothing |
| `Upload.ServerRefusesExactlyAfterFailure` | internal/session/typed_file_server.go:343-351 | over every run the server refuses the next frame of this client if and only if a staged write or the commit has failed before |
| `Upload.FailedWriteCanEndParent` | internal/session/typed_file_server.go:244-262 | a concrete run in which the disk fails under one frame and the next, sent in good faith, ends the parent session |
| `Upload.NoLostWakeup` | internal/session/managed_multiplex.go:653-679 | a caller asleep with usable credit always has a notification pending, about to be posted, or the stream's end |
| `UploadProgress.CallReturns` | internal/session/managed_file_transfer.go:329-417 | every run with the parent up can be continued until the Write or Commit in progress returns, without its caller giving up |
| `UploadProgress.NeverStuck` | internal/session/managed_file_transfer.go:340-380 | a Write or Commit in progress always has an effective next step that keeps the parent up |
| `UploadProgress.TerminatesWithin` | internal/session/typed_file_server.go:226-311 | whatever the schedule and the disk faults, effective steps are linear in the bytes and calls submitted and in what others do to the directory |
| `UploadProgress.OnlyTheCallerIsAwaited` | internal/session/managed_file_transfer.go:329-417 | in every reachable state in which only the caller could do anything, no Write or Commit is waiting |
| `Terminal.OutputIsAccountedFor` | internal/session/typed_stream_server.go:281-333 | client receive credit + announced-not-added bytes = server credit + spent-unwritten + data and updates in flight; output stays in order, what is lost is lost only after a close; neither the sender nor a Read sleeps on what it could use |
| `Terminal.InputIsAccountedFor` | internal/session/typed_stream_server.go:158-200 | input credit + bytes lost to contexts that ended between spending and writing is conserved; the PTY gets a prefix of what was written, and all of it up to the frames in flight unless one PTY write came up short; a Write never sleeps on credit it could use |
| `TerminalLoss.LostExactlyWhenDropped` | internal/session/managed_multiplex.go:386-438 | over every run, the input credit that neither end has and no frame carries is exactly what was dropped, and there is any if and only if some context ended between a spend and its write |
| `TerminalLoss.StarvedForEver` | internal/session/managed_multiplex.go:397-438 | once a whole window has been dropped, no Write puts another byte on the wire, whatever happens |
| `TerminalLoss.WriteSleepsExactlyWhenStarved` | internal/session/managed_multiplex.go:397-438 | on an open stream at rest the next Write sleeps if and only if a whole window has been dropped, and nothing that happens later gets it onto the wire |
| `Terminal.RefusedExactlyWhen` | internal/session/managed_multiplex.go:627-651 | the client refuses a frame of an honest server if and only if the stream has left its map or the data exceeds its receive credit, which needs a Read between announcing and adding; the queue test adds nothing; the server refuses a frame of an honest client if and only if it has closed the ID |
| `Terminal.EndMeansAllOutput` | internal/session/typed_stream_server.go:335-346 | when a Read reports the end of a stream closed by a drained process exit, everything the process put out has been returned |
| `Terminal.OnlyTheReadInProgressSurvives` | internal/session/managed_multiplex.go:497-508 | once the close has arrived only the Read in progress can return anything; after a drained exit that is all the output if and only if nothing is buffered beyond what this Read takes |
| `TerminalRuns.HonestServerCanBeRefused` | internal/session/managed_multiplex.go:340-384 | a concrete run in which the client refuses an honest server, because the update is written before the credit is raised |
| `TerminalRuns.ExitCanEndParent` | internal/session/typed_stream_server.go:335-375 | a concrete run in which the process exits while a window update is in flight and the parent session ends |
| `TerminalRuns.CloseCanEndParent` | internal/session/typed_stream_wiring.go:22-51 | a concrete run in which the client closes the terminal and data written behind the acknowledgement ends the parent session |
| `TerminalRuns.LastOutputCanBeLost` | internal/session/managed_multiplex.go:748-770 | a concrete run in which a drained exit arrives before the caller reads and no later call can return the output |
| `TerminalProgress.TerminatesWithin` | internal/session/typed_stream_server.go:281-375 | whatever the schedule, effective steps are linear in what the process puts out and the callers ask for |
| `TerminalProgress.OnlyPeopleAreAwaited` | internal/session/managed_multiplex.go:327-495 | in every reachable state, open or closed, in which nothing but a caller, the process or a timer could act: no Resize or Close waits, and no Write unless a whole window was lost; an open client holds all credit that was not lost; a closed stream has reached the client; output waits only for its reader and a Read only for output |
| `TerminalRuns.OpenTerminalCanRest` | internal/session/managed_multiplex.go:262-325 | a concrete run to an open terminal in such a state |
| `TerminalRuns.WriteCanSleepForEver` | internal/session/managed_multiplex.go:386-438 | a concrete run in which eight cancelled Writes leave a ninth, whose context lives, asleep on an open stream with nothing in flight |
| `Multiplex.Lifting` | internal/session/managed_file_transfer.go:677-765 | any property of one stream that is kept by that stream's own steps and by foreign file operations holds of every stream multiplexed over the shared pair of FIFO channels, one monitor, one frame loop and one directory |
| `Multiplex.TransfersAreExact` | internal/session/typed_stream_dispatch.go:14-71 | with any number of uploads, downloads and terminals interleaved on one session, every finished download is an exact copy, every upload whose Writes and Commit returned nil is exactly what the shared directory holds, and terminal input and output arrive in order |
| `Multiplex.OneWriterPerDestination` | internal/session/file_transfer_store.go:297-339 | at most one upload of a session commits to a destination |
| `Multiplex.WhyTheParentGoesDown` | internal/session/typed_stream_session.go:15-164 | an honest session over a working transport, not closed and within its policy, ends only by a frame for a file stream whose read, write or commit failed, a frame for a terminal that its receiver has already closed, data announced too early, an eighth terminal, or a context that ended in an open, in a Read about to write its update, in a file Write, Commit or acknowledgement or in a terminal close |
| `Multiplex.NeverForItsId` | internal/session/typed_stream_state.go:51-68 | with the IDs the client's allocator gives out, abandons and sends, no open of any session run is refused for its ID: not as invalid, not as a duplicate, not as one too many |
| `MultiplexProgress.NeverStuck` | internal/session/typed_stream_session.go:120-147 | in every reachable state of a live session in which only callers, processes or timers could act, both channels are empty, no open is pending and every stream, open terminals included, is at rest: head-of-line blocking never deadlocks |
| `MultiplexBound.EffectiveStepsAreBounded` | internal/session/typed_stream_session.go:120-147 | however many streams share the session and however they interleave, the number of steps that do anything is at most linear in the opens, calls, bytes and files fed into it: no livelock |
| `MultiplexBackPressure.StuckOnlyInAClinch` | internal/session/managed_file_transfer.go:788-835 | on channels of any capacity of at least one frame, a live session in which only callers, processes or timers could act is at rest, or the monitor and the frame loop each have a frame to write into a full channel that only the other one reads |
| `MultiplexClinch.SessionCanClinch` | internal/session/managed_file_transfer.go:788-835 | a concrete run to such a standstill on channels of two frames, with two completed downloads and two terminals being opened |
| `MultiplexLimits.TooManyNeedsAnEighth` | internal/session/typed_stream_state.go:138-149 | over every run, a session that was ended by the server's terminal limit had the client open a terminal while it counted seven of its own |
| `MultiplexLimits.EighthIsRefusedExactly` | internal/session/managed_multiplex.go:262-325 | in every session at rest the next terminal the client opens ends the session if and only if the client counts seven |
| `MultiplexRuns.EighthTerminalEndsParent` | internal/session/managed_multiplex.go:262-325 | a concrete run, with the IDs 2 to 9, in which a client within its own limit of eight loses the session with its eighth terminal |
| `MultiplexRuns.OpenSessionCanRest` | internal/session/typed_stream_session.go:120-147 | a concrete run to a session at rest that holds an open terminal |
| `Credit.Credit.Consume` | internal/session/typed_stream_flow.go:23-29 | succeeds iff 0 < bytes <= remaining and then subtracts exactly that |
| `Credit.Credit.Add` | internal/session/typed_stream_flow.go:31-37 | succeeds iff the update is valid and the sum stays within the window |
| `Buffer.ReceiveBuffer.Put` | internal/session/managed_multiplex.go:627-746 | takes a chunk exactly when it fits the credit and the queue limit, at the end of the queue |
| `Buffer.ReceiveBuffer.Take` | internal/session/managed_file_transfer.go:465-482 | takes the first at most maxBytes buffered bytes and leaves the rest in order |
| `DownloadEndpoints.DownloadSession.Execute` | internal/session/managed_file_transfer.go:452-521 | whatever order the methods of both download objects run in, the objects are where the machine is after that schedule; a finished client has read the file |
| `DownloadEndpoints.DownloadSession.Forward` | internal/session/typed_file_server.go:353-431 | the forwarding loop on its own, with short and failing reads, is a run of the machine and stops only to wait for credit or the next read, or for good |
| `DownloadEndpoints.ClientDownload.Look` | internal/session/managed_file_transfer.go:465-519 | the locked section of Read takes the front bytes, reports the end or goes to sleep as the machine says |
| `DownloadEndpoints.ClientDownload.CreditBack` | internal/session/managed_file_transfer.go:484-503 | raises the window by the bytes taken unless the stream ended, never above 256 KiB |
| `DownloadEndpoints.ClientDownload.Receive` | internal/session/managed_file_transfer.go:767-853 | accepts exactly the frames the machine accepts and answers as it does |
| `DownloadEndpoints.ServedDownload.AfterRead` | internal/session/typed_file_server.go:384-414 | spends credit for the bytes read, or notices the end, a failed read or a closed child |
| `DownloadEndpoints.ServedDownload.Receive` | internal/session/typed_file_server.go:264-341 | raises credit before the token is posted exactly when the update fits, and closes the child on a close |
| `UploadEndpoints.UploadSession.Execute` | internal/session/managed_file_transfer.go:329-417 | whatever order the methods of both upload objects run in, the objects are where the machine is after that schedule; after nil Writes and a nil Commit the directory holds the bytes |
| `UploadEndpoints.UploadSession.Write` | internal/session/managed_file_transfer.go:329-380 | the Write loop on its own is a run of the machine and stops only to wait for credit or to return; if it returns nil its whole argument is on the wire |
| `UploadEndpoints.ClientUpload.SpendCredit` | internal/session/managed_file_transfer.go:343-360 | spends min(rest, 64 KiB, credit) and splits the argument there, sleeps without credit, fails after the end |
| `UploadEndpoints.ClientUpload.Receive` | internal/session/managed_multiplex.go:653-679 | accepts exactly the frames the machine accepts; credit is raised before the waiter is notified |
| `UploadEndpoints.ServedUpload.HandleData` | internal/session/typed_file_server.go:226-244 | consumes credit and stages the bytes as the machine says, or refuses and changes nothing |
| `UploadEndpoints.ServedUpload.CloseChild` | internal/session/typed_file_server.go:433-456 | closes the child and cancels the staged upload unless it was committed, whether or not the staging file can be removed |
| `UploadEndpoints.ServedUpload.Receive` | internal/session/typed_file_server.go:292-341 | commits on a close, cancels on an error, and does as the machine says |
| `TerminalEndpoints.TerminalSession.Execute` | internal/session/managed_multiplex.go:327-495 | whatever order the methods of both terminal objects run in, the objects are where the machine is after that schedule; the PTY has a prefix of what was written |
| `TerminalEndpoints.TerminalSession.Read` | internal/session/managed_multiplex.go:327-384 | the loop of ReadTerminalStream on its own is a run of the machine and stops only to return or to wait for output; if there was output it returns at most max bytes from the front of it |
| `TerminalEndpoints.TerminalSession.Write` | internal/session/managed_multiplex.go:386-438 | the loop of WriteTerminalStream on its own is a run of the machine and stops only to return or to wait for credit; if it returns its whole argument is on the wire |
| `TerminalEndpoints.TerminalSession.SendData` | internal/session/typed_stream_server.go:301-333 | the loop of sendData on its own is a run of the machine and stops only to return or to wait for credit; if it returns on an open stream all the output is on the wire |
| `TerminalEndpoints.ClientTerminal.ReaderStep` | internal/session/managed_multiplex.go:340-384 | each section of ReadTerminalStream, the announcement before the credit |
| `TerminalEndpoints.ClientTerminal.WriterStep` | internal/session/managed_multiplex.go:397-438 | each section of WriteTerminalStream: spend, sleep, wake, send, or leave with the credit spent when the context ends before the write |
| `TerminalEndpoints.ClientTerminal.ControlStep` | internal/session/managed_multiplex.go:440-495 | each section of Resize and Close and the notifications of the monitor |
| `TerminalEndpoints.ClientTerminal.Receive` | internal/session/managed_multiplex.go:601-725 | accepts exactly the frames the machine accepts |
| `TerminalEndpoints.ServedTerminal.SenderStep` | internal/session/typed_stream_server.go:281-333 | each section of forwardOutput and sendData |
| `TerminalEndpoints.ServedTerminal.WaiterStep` | internal/session/typed_stream_server.go:335-346 | waitProcess closes the ID after a drained exit or a timeout, before it writes the close |
| `TerminalEndpoints.ServedTerminal.Receive` | internal/session/typed_stream_server.go:158-266 | writes input to the PTY within the credit, adds send credit, resizes and closes as the machine says |
| `FileStore.AllOrNothing` | internal/session/file_transfer_store.go:169-373 | over every sequence of calls and disk faults, with others creating files in between, and for every cut of it in two: an existing destination is never replaced or removed; once closed, the upload changes nothing any more; a destination that appears was made by others or by the one committing Commit, and then holds exactly the bytes accepted by the writes so far |
| `FileStore.OnlyCommitPublishes` | internal/session/file_transfer_store.go:297-339 | no call but a committing Commit touches the destination |
| `FileStore.LimitsDoNotWrap` | internal/session/file_transfer_store.go:276-281 | the 64-bit subtractions in Write never wrap |
| `FileStore.StagedIsHashed` | internal/session/file_transfer_store.go:263-295 | through every sequence of calls the digest input is exactly the bytes that accepted writes put into the staging file, defined independently |
| `FileStore.CommitResult` | internal/session/file_transfer_store.go:297-339 | Commit publishes iff size, digest, sync, close and link all succeed onto an absent destination; it publishes yet reports an error exactly when only the staging file could not be removed |
| `FileStore.FileUpload.constructor` | internal/session/file_transfer_store.go:169-232 | a new upload starts with an empty staging file |
| `FileStore.FileUpload.Write` | internal/session/file_transfer_store.go:263-295 | a nil result appends exactly the data to the staging file, counter and digest; any failure closes the upload |
| `FileStore.FileUpload.Commit` | internal/session/file_transfer_store.go:297-339 | a nil result means the destination holds the hashed bytes with matching size and digest |
| `FileStore.FileUpload.Cancel` | internal/session/file_transfer_store.go:341-361 | leaves a committed or closed upload alone, otherwise closes and unstages it |
| `FileStore.FileUpload.FailLocked` | internal/session/file_transfer_store.go:365-373 | closes the upload and removes the staging file when it can |
| `FileStore.FileDownload.Read` | internal/session/file_transfer_store.go:81-107 | hands out the file in order, never past the size at open; EOF means all of it was handed out and an early end is an error |
| `Namespace.CountersAreExact` | internal/session/typed_stream_state.go:51-172 | over every interleaving of both engines, at most 256 IDs are recorded, the terminal counter equals the live terminal records (at most 7) and the file counter equals mapped children plus pending reservations (at most 4) |
| `Namespace.IdsOnlyMoveForward` | internal/session/typed_stream_state.go:51-120 | between any two points of any run, recorded IDs stay recorded, keep their kind and only move from opening to open to closed |
| `Namespace.DispatchFollowsReservation` | internal/session/typed_stream_dispatch.go:32-70 | a reserved ID keeps the kind it was reserved under, its frames go to that kind's engine until it closes and are a violation afterwards, and no kind can reserve it again |
| `Namespace.AcceptNeverFails` | internal/session/typed_file_server.go:213-224 | the registration inside activate cannot fail |
| `Namespace.CloseAllFacts` | internal/session/typed_stream_state.go:111-120 | closing a kind leaves nothing of it live and every other record unchanged |
| `Namespace.StreamRegistry.ReserveId` | internal/session/typed_stream_state.go:51-68 | refuses invalid, duplicate and exhausted IDs in the source's order, otherwise records Opening |
| `Namespace.StreamRegistry.AcceptId` | internal/session/typed_stream_state.go:70-80 | moves exactly an Opening record of that kind to Open |
| `Namespace.StreamRegistry.Close` | internal/session/typed_stream_state.go:99-109 | moves exactly a live record of that kind to Closed |
| `Namespace.StreamRegistry.CloseKind` | internal/session/typed_stream_state.go:111-120 | the loop closes exactly the live records of that kind |
| `Namespace.TerminalStreamSet.ReserveId` | internal/session/typed_stream_state.go:138-149 | counts exactly the reservations that succeed, at most 7 |
| `Namespace.TerminalStreamSet.Close` | internal/session/typed_stream_state.go:159-167 | gives back the slot exactly when the record was live |
| `Namespace.TerminalStreamSet.CloseAll` | internal/session/typed_stream_state.go:169-172 | closes every terminal and resets the counter |
| `Allocator.RegistryAgrees` | internal/session/managed_multiplex.go:272-295 | in every run the server's registry accepts each ID this client sends: never a duplicate, never exhausted, at most 256 per session |
| `Allocator.IdsStrictlyIncrease` | internal/session/managed_file_transfer.go:552-584 | IDs given out by the terminal and file paths strictly increase and are never reused |
| `Allocator.StreamAllocator.Open` | internal/session/managed_multiplex.go:272-295 | the search loop returns the next unused ID exactly when both limits allow it, and keeps the allocator's invariant |
| `Replay.SingleUseAcrossCrashes` | internal/meshstate/replay.go:159-209 | over every run of consumes, failed saves, crashes at any point and restarts, a JTI succeeds again only after its first expiry; whatever was saved can be reopened |
| `Replay.BurnedExactlyWhenRenamed` | internal/meshstate/replay.go:188-304 | a consumption that failed to save leaves the JTI to be found by a later restart if and only if the rename had happened and the expiry is still ahead |
| `Replay.FailedConsumptionCanBurn` | internal/meshstate/replay.go:159-304 | a concrete run in which nothing was granted and the JTI is refused as replayed after a restart |
| `Replay.FileReplay.Consume` | internal/meshstate/replay.go:159-209 | memory, disk and result are those of the model, pruning loop included |
| `Replay.FileReplay.SaveLocked` | internal/meshstate/replay.go:243-304 | the file holds the old or the new state, never a mixture; an error after the rename leaves the new one |
| `Replay.OpenFileReplay` | internal/meshstate/replay.go:52-152 | refuses exactly files that are no regular file, cannot be read, secured or parsed, or hold unacceptable state, and otherwise keeps exactly the unexpired entries |
| `MemoryReplay.GrantedAgainExactlyWhenOutlived` | internal/mesh/routeauth.go:99-135 | a JTI is granted again if and only if some call in between, or the second call itself, had read a clock at or past the first expiry |
| `MemoryReplay.SingleUseInClockOrder` | internal/mesh/routeauth.go:111-116 | when calls enter the lock in clock order, a second grant happens only after expiry |
| `MemoryReplay.GrantedTwiceBeforeExpiry` | internal/mesh/routeauth.go:84-92 | concrete calls that defeat the documented single success, because the clock is read before the lock |
| `MemoryReplay.MemoryGuard.ConsumeRouteAuthorization` | internal/mesh/routeauth.go:99-135 | prunes and consumes as the model says |
| `Mesh.Validate` | internal/mesh/mesh.go:125-180 | accepts exactly the valid routes |
| `Mesh.BlankExactly` | internal/mesh/mesh.go:125-180 | the names it rejects as blank are exactly the UTF-8 spellings of Unicode white space |
| `Mesh.ValidRouteIsSimplePath` | internal/mesh/mesh.go:125-180 | a valid route is a simple path from source to destination |
| `Mesh.RouteCost` | internal/mesh/mesh.go:186-196 | returns the true sum of hop costs capped at 2^64 - 1 |
| `Mesh.PlanRoute` | internal/mesh/mesh.go:269-313 | returns the earliest candidate least by cost then hop count among the valid matching ones, or reports that there is none |
| `RouteAuth.MessageInjective` | internal/mesh/routeauth.go:427-517 | two well-formed authorizations with equal signed bytes agree on key ID and every claim, hops included |
| `RouteAuth.FieldIsPrefixFree` | internal/mesh/routeauth.go:519-562 | no encoded field is a proper prefix of another of the same shape |
| `RouteAuth.EncodeInjective` | internal/mesh/routeauth.go:519-562 | equal encodings of field lists of the same shapes come from equal lists |
| `RouteAuth.WriteField` | internal/mesh/routeauth.go:519-562 | appends exactly the field's encoding, or fails when it does not fit |
| `RouteAuth.BuildMessage` | internal/mesh/routeauth.go:427-517 | builds exactly the specified message for every encodable authorization and fails for every other |
| `RouteAuth.MatchesRoute` | internal/mesh/routeauth.go:399-425 | true exactly when every field of the route, expiry at millisecond precision, equals the claims |
| `RouteAuth.AcceptedRouteWasSigned` | internal/mesh/routeauth.go:222-296 | if the signature scheme only verifies issued messages, an accepted route equals an issued one field by field |
| `RouteAuth.SameBytesSameUse` | internal/mesh/routeauth.go:222-296 | accepted authorizations with equal signed bytes present the same JTI and expiry to the replay store |
| `RouteUse.UsedTwiceOnlyAroundExpiry` | internal/mesh/routeauth.go:222-341 | over every run of verify, consume and dial with crashes, failed saves and restarts, claims are accepted again only by a session that verified them before the expiry and consumed them at or after it, and dialed again only within the last millisecond of a route whose expiry is not a whole millisecond |
| `RouteUse.GrantedAgainExactlyWhenExpired` | internal/meshstate/replay.go:159-209 | the store grants an authorization it granted before if and only if its clock has reached the expiry, its memory has no unexpired entry and the save succeeds |
| `RouteUse.DialedTwice` | internal/mesh/forwarder.go:239-369 | for every authorization whose route expires within a millisecond, a concrete run in which two sessions dial on it |
| `RouteUse.SampleIsDialedTwice` | internal/mesh/forwarder.go:239-369 | one concrete authorization, route and router with such a run |
| `Frames.DecodeEncode` | internal/protocol/frame.go:47-87 | decoding an encoded frame followed by anything returns the frame and leaves the rest |
| `Frames.EncodeDecode` | internal/protocol/frame.go:63-87 | every accepted header and payload re-encodes to the same bytes |
| `Frames.PrefixIsIncomplete` | internal/protocol/frame.go:63-87 | no proper prefix of a frame decodes |
| `Frames.StreamRoundTrip` | internal/protocol/frame.go:47-101 | a concatenation of encoded frames decodes to exactly those frames and the remaining bytes |
| `Frames.ControlRoundTrip` | internal/mesh/routecontrol.go:124-177 | a route-control frame decodes to its payload and the rest |
| `Frames.ControlReencodes` | internal/mesh/routecontrol.go:145-177 | every accepted route-control frame re-encodes to the same bytes |
| `Frames.Sink.WriteAll` | internal/protocol/frame.go:89-101 | on success the partial-write loop has emitted exactly its input, and on failure a prefix of it |
| `Frames.Sink.WriteFrame` | internal/protocol/frame.go:47-61 | on success the sink has grown by exactly the encoded frame |
| `Forwarder.AdmissionIsExact` | internal/mesh/forwarder.go:239-369 | over every interleaving of sessions and policy changes, active equals the sessions between acquire and release, each admission respects its own policy snapshot, dialing follows authorization, and the byte total is the saturated sum |
| `Forwarder.NoSlotLeaks` | internal/mesh/forwarder.go:400-416 | when no session is in progress the counter is zero |
| `Forwarder.TotalIsOrderFree` | internal/mesh/forwarder.go:426-446 | two runs whose sessions recorded the same byte counts in any order show the same forwarded total, saturation included |
| `Forwarder.ForwarderObject.ReplacePolicy` | internal/mesh/forwarder_snapshot.go:29-41 | stores exactly valid policies |
| `Forwarder.ForwarderObject.AcquireSession` | internal/mesh/forwarder.go:400-410 | admits exactly below the snapshot's limit |
| `Forwarder.ForwarderObject.RecordForwardResult` | internal/mesh/forwarder.go:426-438 | adds the counted bytes, saturating |
| `Forwarder.ForwarderObject.PrepareForward` | internal/mesh/forwarder.go:239-369 | dials exactly when policy, checks, limit and authorizer agree; holds one slot exactly on success and none after any failure |
| `Connections.LimitIsKept` | internal/coreapi/connection_service.go:155-263 | over every interleaving of connect, disconnect, remote close and shutdown, active + opening stays within the limit, the counter is exact and retained streams are bounded |
| `Connections.IdsAreExclusive` | internal/coreapi/connection_service.go:456-479 | a reserved ID has exactly one holder and never clashes with an active or retained one |
| `Connections.NoHandleIsLost` | internal/coreapi/connection_service.go:155-342 | every opened handle is held by an unfinished call, active, closed, about to be closed by shutdown, or reported Done |
| `Connections.ShutdownIsClean` | internal/coreapi/connection_service.go:317-342 | after shutdown and once calls in flight have returned, no path entry, reservation, slot or live handle is left |
| `ConnectionWatch.UnwatchedExactlyWhenSwallowed` | internal/coreapi/connection_service.go:344-369 | over every run, an active observable entry has no watcher if and only if its one Done signal was taken while a Disconnect was in progress or suppressed by a failed one |
| `ConnectionWatch.OnlyADisconnectFreesTheSlot` | internal/coreapi/connection_service.go:265-315 | no step but shutdown or a Disconnect whose close succeeded removes such an entry |
| `ConnectionWatch.EndedConnectionCanKeepItsSlot` | internal/coreapi/connection_service.go:286-301 | a concrete run after which an ended connection that nobody watches holds the only slot while nothing is in progress |
| `Connections.PruneMakesRoom` | internal/coreapi/connection_service.go:389-407 | whatever closed entries the loop picks, it always gets below the limit |
| `Connections.Manager.PruneRetainedStreams` | internal/coreapi/connection_service.go:389-407 | deletes only closed entries, one at a time, and stops below the limit or when none is left |
| `Connections.Manager.ReserveOpening` | internal/coreapi/connection_service.go:426-437 | takes a slot exactly when open and below the limit |
| `Connections.Manager.ReserveConnectionId` | internal/coreapi/connection_service.go:456-479 | takes the first free ID among the first eight candidates and fails exactly when the service is closed or none of them is free |
| `Connections.Manager.ReleaseOpening` | internal/coreapi/connection_service.go:439-445 | gives back one slot, never below zero |
| `Connections.Manager.ReleaseOpeningAndId` | internal/coreapi/connection_service.go:447-454 | gives back one slot and the ID |
| `Connections.Manager.PublishOpened` | internal/coreapi/connection_service.go:230-254 | turns slot and reservation into an entry, or gives both back after shutdown |
| `Connections.Manager.BeginDisconnect` | internal/coreapi/connection_service.go:273-281 | marks exactly an entry that is not closing |
| `Connections.Manager.SettleDisconnect` | internal/coreapi/connection_service.go:287-310 | removes or re-arms exactly the entry of the same generation |
| `Connections.Manager.RemoteClosed` | internal/coreapi/connection_service.go:344-369 | removes exactly an entry of the same generation that is neither closing nor suppressed |
| `Connections.Manager.ExpireTerminalStream` | internal/coreapi/connection_service.go:381-387 | deletes exactly a closed stream of the same generation |
| `Connections.Manager.ShutDownAll` | internal/coreapi/connection_service.go:317-327 | empties both tables once and hands back the entries to tear down |
| `Idempotency.OneCallPerWindow` | internal/coreapi/terminal_write_idempotency.go:104-152 | two wrapped calls of one operation ID are a full retention apart, measured from the first one's completion; only a cancelled connect leader frees its ID early |
| `Idempotency.OneInFlight` | internal/coreapi/terminal_write_idempotency.go:60-102 | at most one wrapped call per operation ID is in flight |
| `Idempotency.FollowersShare` | internal/coreapi/connect_idempotency.go:62-91 | a follower returns the recorded outcome of a call with its own ID and its own request, and makes no call |
| `Idempotency.NoStuckFollower` | internal/coreapi/connect_idempotency.go:118-135 | a leader always finds its own record, so a follower's leader is running or has closed its channel; the table stays within its bound |
| `Idempotency.OperationTable.Prune` | internal/coreapi/connect_idempotency.go:137-146 | the loop drops exactly the completed entries older than the retention |
| `Idempotency.OperationTable.BeginLocked` | internal/coreapi/connect_idempotency.go:97-116 | after pruning: follow a matching entry, refuse a mismatch, refuse when full, otherwise lead |
| `Idempotency.OperationTable.CompleteLocked` | internal/coreapi/connect_idempotency.go:118-135 | caches the outcome or forgets a cancelled one, and closes the channel |
| `Recovery.SingleFlight` | cmd/wd-ui/recovering_core.go:381-425 | at most one recovery runs at a time, for the generation that each of its waiters observed |
| `Recovery.SuccessIsExact` | cmd/wd-ui/recovering_core.go:381-425 | a caller told nil has a generation beyond the one it observed, ended by exactly one successful recovery |
| `Recovery.NoStuckWaiter` | cmd/wd-ui/recovering_core.go:393-406 | the recovery a waiter waits for is running or published |
| `Recovery.RecoveringCore.EnterLocked` | cmd/wd-ui/recovering_core.go:387-409 | decides to return, wait or lead as the model says, and leads only when nobody does |
| `Recovery.RecoveringCore.FinishLocked` | cmd/wd-ui/recovering_core.go:413-423 | records the outcome, counts a success and frees the flight |
| `UiRetry.NoSecondWriteBeforeExpiry` | cmd/wd-ui/recovering_core.go:175-312 | over every run of the UI and one Core process, two executions of one operation carry the same request and the second one starts no earlier than the end of the window in which the UI prepares it |
| `UiRetry.ExecutedAgainExactlyWhenForgotten` | internal/coreapi/terminal_write_idempotency.go:60-152 | a request of a completed operation that reaches the Core is executed again if and only if the record is five minutes old and the table has room; before that it shares the recorded outcome |
| `UiRetry.RetryInWindowCanExecuteTwice` | cmd/wd-ui/recovering_core.go:286-312 | a concrete run in which a retry prepared within the window is executed a second time |

## Left out

- CancelDownload and CancelUpload, policy expiry and an explicit Close of the session: they race with frame writes by design; every theorem is about runs without them, up to the step that ends the session.
- Transport failures: a frame is written as a whole or, when a context ends first, not at all; a write that fails half way or times out only ends the session.
- Timers: the drain timeout, read deadlines and contexts may fire at any step that waits for them or for the write lock, with no relation to time.
- The feature hello, contents of opens and metadata checks of streams: a file stream is opened with its terms, a terminal without any.
- The content of a download: it is the file as it was opened; later changes of the file show only in FileStore.FileDownload.
- JSON, base64, TLS, Ed25519 and SHA-256: a frame is its decoded message, signatures and digests are arbitrary functions, and an encoded size is an input.
- Replay.FileReplay.Consume: a JTI with white space beyond ASCII at one of its ends counts as valid.
- time.Time: instants are integers; monotonic readings and locations are not modelled.
- Windows file replacement: removing and then renaming is not atomic, so the crash theorem is about the atomic rename.
- BeginUpload's path checks and staging-name retries, OpenDownload's checks: the model starts with a fresh staging name different from the destination.
- FileStore.AllOrNothing: others may do anything to other files and may create the destination, but do not replace or remove it and do not touch the staging file.
- uint32 and uint64 wrap-around of credits and counters: credits are proved to stay within the 1 MiB window, so their arithmetic never wraps; the recovery generation is unbounded.
- UploadEndpoints.ServedUpload.CloseChild: the child's entries in the child table and in the registry are one closed flag here; the two tables are Namespace's.
- Connections.Manager.ReserveConnectionId: nobody else takes the lock between its eight attempts; in the machine, where one attempt is one step, anybody may.
- UiRetry: one UI process, one Core process and requests that arrive in any order after any delay; a Core restart forgets the table together with the connections.
- The relay broker, audit log, account client, desktop bridge, Windows UI and installers: plumbing and smaller queues that would add only easy members.
- routeOpenCode mapping, copyOpaque and the route-open exchange of the forwarder: error translation and byte copying around the admission logic.
