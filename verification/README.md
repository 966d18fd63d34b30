# Mink Lasso, verified

A Dafny model of the parts of Mink Lasso that move files to a CNC controller
and must not lose any: the upload protocol, the queue that feeds it, the gate
that holds it back while the machine works, the folder watcher in front of it,
the wire format below it, and two small state machines beside it. Everything is
proved; `dafny verify dfyconfig.toml` verifies it with Dafny's default options.

How the modules fit together:

- **Wire format.** `Bytes`, `Binary`, `Folds`, `Crc`, `Wire`, `FileNames`,
  `Requests`, `Layouts`. Bytes are numbers below 256; the CRC register is a 16-bit vector,
  reached through digit-by-digit conversions proved one to one and to keep the
  value.
- **The upload protocol.** `Controller` is the simulator's upload state and
  `ControllerRuns` what it does over any sequence of requests,
  `UploadClient` one turn of each of the client's loops as a function,
  `ChunkLoop` and `StartLoop` the loops themselves on local variables,
  `ChunkTiming` what they do over time, `ChunkResends` what they put on the wire,
  `ChunkOutcomes` why they end and what an ACK teaches them. `UploadProtocol` puts client and
  controller side by side: every datagram ever sent may be delivered at any
  later time, any number of times or never. `UploadExactly` turns the blind spot
  that Upload's documentation admits into a necessary and sufficient condition,
  `UploadHarm` does the same for what an upload can do to other files,
  `UploadProgress` shows that a transfer can always be finished, even if all that
  is under way is lost, `UploadEnds` what surrounds it, `Datagrams` ties the
  requests to the bytes on the wire.
- **The queue.** `UploadQueue` gives every section that holds the scheduler's
  lock as one operation on values; `QueueRuns` interleaves them at will and
  carries the invariant; `QueueTheorems` draws the conclusions, `QueueSends`
  follows one item through a whole send, and `QueueExamples` gives the runs in
  which a change is not simply sent next. `QueueChoice` says which item may go and
  which goes first, `QueueSwitch` what a folder switch leaves, `QueueManual` what
  manual sends, retries and failures do, `QueueEvents` that what is shown is true.
  `Scheduler` has
  the same sections as methods on shared items updated in place, each proved to
  do what its operation says. `Archive` is the move into sent/ on a disk whose
  calls may fail.
- **The gate.** `Gate` compares a few fields and one timer with a plain reading
  of the whole event history.
- **The watcher.** `Folders` is the recursive walk and the path predicate that
  predicts it, `Settling` one file's bookkeeping against everything observed of
  it, `Watcher` scans over any sequence of listings, `WatcherReports` what one scan
  does for each file of the tree.
- **Log rotation and the fake clock.** `LogFile`, with every file operation
  free to fail, and `FakeClock`.

Time is a number (nanoseconds), a clock reading never goes back, and every
observation a loop makes (clock, ACK, read) is a parameter. Nondeterministic
results of system calls are arbitrary choices inside the methods that stand for
them.

Where the code and its documentation part, the code is followed:

- A zero-byte upload returns nil although nothing is stored
  (`UploadExactly.ZeroBytesReturnNil`).
- The client's blind spot is not confined to stuck names, and not every stuck
  name is one: `UploadExactly.TrustworthyIffNotFooled` says exactly which
  controller states allow it, and `UploadHarm.HarmlessIffNotExposed` exactly
  which let an upload lose another file.
- A report that arrives between the opening of a file and the start of its upload
  has its size overwritten by that of the open file
  (`QueueSends.ChangeDuringSuccessRequeues`, `QueueExamples.SizeOvertaken`).
- A send canceled on the machine is not retried even if the file changed during
  the send (`QueueSends.RetriedIffNotCanceled`,
  `QueueExamples.CanceledChangeWaits`).
- After a folder switch the upload of an orphan may begin under a name that another
  item has taken; the event then shows that item as being sent, which the code
  elsewhere takes care to avoid (`QueueEvents.LatestEventIsTrue`,
  `QueueEvents.OrphanMisleads`).
- One watched folder's sent/ need not keep what it holds if a folder above it is
  watched later (`Archive.NestedRootTakesOut`); all the sent folders together do
  (`Archive.ArchiveAll`).
- The watcher's settling time does not hold for an empty file with the zero
  modification time (`Settling.ReadyIffSettled`, `Settling.ReadyWhenBornZero`,
  `Settling.BornZeroUnsettled`).

## Model

| member | source | states |
|---|---|---|
| `UploadProtocol.NilMeansStored` | internal/masso/upload.go:87-134 | In every run in which requests and replies are lost, duplicated and reordered at will, a nil return for a file of size > 0 means the controller has stored exactly its bytes under its path, and still has them at every later moment; the name was neither stuck nor open when the call began. |
| `UploadProtocol.OtherFilesUntouched` | internal/masso/upload.go:87-134 | Whatever Upload returns and at every moment before, every stored file of another path is as it was: an abort deletes nothing but this upload's own file; the name was neither stuck nor open when the call began. |
| `UploadProtocol.NoAbortWithoutStart` | internal/masso/upload.go:108-133 | An abort is sent only after a start of this upload has begun a transfer and never before a nil return; without an accepted start the controller is exactly as it was. |
| `UploadProtocol.StepKeeps` | internal/masso/upload.go:258-406 | One invariant over client, controller and every datagram ever sent survives every step: the controller holds exactly the prefix of the file it has counted, and no ACK counts more. |
| `UploadProtocol.RunKeeps` | internal/masso/upload.go:87-134 | The same over whole runs. |
| `UploadProtocol.PrefixGrows` | internal/masso/upload.go:375-388 | The chunks are consecutive pieces of the file and the last of them completes it. |
| `UploadExactly.TrustworthyIffNotFooled` | internal/masso/upload.go:78-86 | Exactly when nil can be believed over every file and every run: if and only if the controller is not in a state that refuses a start of this name while another transfer would count a chunk 0; for every state that is, a run is constructed that returns nil without the file being stored. |
| `UploadExactly.HandlersKeepConsistent` | internal/masso/sim/sim.go:341-469 | The only fact about the controller this needs (a canceled transfer is not uploading) is kept by every handler. |
| `UploadExactly.Deceive` | internal/masso/upload.go:234-242 | The run that deceives the client: a refused start, a resend, an already-started answer and one ACK of a foreign transfer. |
| `UploadExactly.ZeroBytesStoreNothing` | internal/masso/upload.go:125-127 | A zero-byte upload leaves every stored file as it was, in every run. |
| `UploadExactly.ZeroBytesReturnNil` | internal/masso/upload.go:125-127 | And it returns nil: a run of one delivered start and its answer, after which the file is stored only if it was before. So the guarantee cannot hold for size 0. |
| `UploadHarm.HarmlessIffNotExposed` | internal/masso/upload.go:59-76 | For this upload, whatever its name: over every run every file stored before under another path is still there unchanged, if and only if the upload is empty or the controller does not both refuse its start and hold, as its current transfer, another stored file. |
| `UploadHarm.HandlersKeepTidy` | internal/masso/sim/sim.go:341-469 | The only fact about the controller this needs (an open transfer is the current one, and named) is kept by every handler. |
| `UploadHarm.Destroy` | internal/masso/upload.go:390-406 | The run that does the harm: a refused start taken for success, an unreadable file, and an abort that deletes the current transfer of another file. |
| `UploadProgress.LiveThroughout` | internal/masso/upload.go:265-370 | As long as no completed transfer is restarted, in every reachable state the controller has counted no less than the client believes and no more than it has sent, and every chunk up to next has been sent. |
| `UploadProgress.Round` | internal/masso/upload.go:319-356 | From any such state with a full window one loss-free delivery of the flight and its last ACK raises the client's count to all it had sent, or completes the upload. |
| `UploadProgress.RoundsFinish` | internal/masso/upload.go:319-370 | At most one such round for each chunk not yet counted finishes the file. |
| `UploadProgress.AlwaysFinishable` | internal/masso/upload.go:319-370 | However the network has behaved so far, a restart-free upload still sending can be finished in that many rounds, and the file is then stored. |
| `UploadProgress.ResendRevives` | internal/masso/upload.go:346-356 | If every datagram sent before a retransmission is lost, that turn alone puts exactly the chunks accepted..next-1 back on the wire, and the transfer is live again. |
| `UploadProgress.RoundAfterLoss` | internal/masso/upload.go:346-356 | So over a network that forgets everything, delivering only what that turn sends, and its last ACK, raises the count to all that had been sent, or completes the upload. |
| `UploadProgress.RecoversFromLoss` | internal/masso/upload.go:319-370 | However a restart-free upload has fared, if then everything under way is lost, its next retransmission lets it be finished, and the file is then stored. |
| `UploadEnds.EnterExact` | internal/masso/upload.go:90-113 | Nothing is sent unless the size, the connection, the lock, the name, the folder and the context are all in order; otherwise the first objection in that order is the result. |
| `UploadEnds.FailureExact` | internal/masso/upload.go:119-134 | A failed start is returned at once and followed by nothing; a failed transfer is followed by three notifications; a nil transfer is returned. |
| `UploadEnds.CleaningEnds` | internal/masso/upload.go:390-400 | Whatever is delivered meanwhile, exactly as many notifications as are left are sent, and then the failure that caused them is returned, for good. |
| `UploadClient.TurnKeepsWindow` | internal/masso/upload.go:265-356 | Every turn of sendChunks keeps accepted <= next <= total, a flight that holds exactly the chunks accepted..next-1 and at most two of them, and never takes either count back. |
| `UploadClient.FlightNotEmpty` | internal/masso/upload.go:341-347 | The flight is not empty wherever the loop indexes it. |
| `ChunkLoop.Ack` | internal/masso/upload.go:281-317 | The ACK closure on its local variables folds an ACK as the turn function says: errors, impossible and stale counts, and only never-retransmitted chunks feeding the estimate. |
| `ChunkLoop.Retransmit` | internal/masso/upload.go:346-355 | The retransmission loop resends the whole flight in order, marks every chunk of it, and closes the window. |
| `ChunkLoop.Turn` | internal/masso/upload.go:319-369 | One pass of the loop does what the turn function says; OverdueResends, TurnSends, WhyReturned and AckTeaches say what that is. |
| `ChunkLoop.SendChunks` | internal/masso/upload.go:258-370 | The loop over any sequence of observations returns what the turn function says, after exactly its sends; SilenceResends, FlightIsWhatWasSent and WhyReturned say what those are. |
| `ChunkResends.OverdueResends` | internal/masso/upload.go:346-356 | With no ACK waiting, no room in the window, the stall deadline ahead and the oldest chunk outstanding longer than the timeout, the turn goes on and sends exactly the chunks accepted..next-1, in order, marks them sent now and again, and closes the window. |
| `ChunkResends.TurnSends` | internal/masso/upload.go:319-369 | A turn that reads no ACK sends the next chunk, or on that condition the whole flight, or nothing. |
| `ChunkResends.SilenceResends` | internal/masso/upload.go:319-369 | Over any silent run the oldest unacknowledged chunk is among the packets sent exactly once for each retransmit round. |
| `ChunkResends.SilenceResendsFirst` | internal/masso/upload.go:319-369 | From the start of the loop: once, and once more for each round. |
| `ChunkResends.FirstRetransmission` | internal/masso/upload.go:319-356 | From the start of the loop the first chunk goes out alone, and again exactly when it has been out for more than 120 ms. |
| `ChunkResends.FlightIsWhatWasSent` | internal/masso/upload.go:319-356 | At every moment of every run the flight tells of each of its chunks when it was put on the wire last and whether more than once, and no chunk from next on has been. |
| `ChunkOutcomes.WhyReturned` | internal/masso/upload.go:264-370 | The loop returns a given result if and only if it reaches the turn that causes it: nil by an ACK of every chunk, each of the five failures by its own result byte, read or deadline. |
| `ChunkOutcomes.AckTeaches` | internal/masso/upload.go:281-317 | An ACK of more chunks, but not the last, takes exactly those off the flight; the streak grows by the clean ones among them, the estimate moves a quarter of the way to each clean sample, rounded as Go rounds. |
| `ChunkOutcomes.IdleAckOnlyShowsLife` | internal/masso/upload.go:289-300 | A stale or impossible ACK changes nothing but the time of the last sign of life. |
| `ChunkOutcomes.OpensOnCleanAcks` | internal/masso/upload.go:301-313 | In every run the window is two chunks exactly while at least three chunks in a row have been acknowledged clean since the last retransmission, else one. |
| `ChunkTiming.TimeoutClamped` | internal/masso/upload.go:408-410 | The retransmission timeout is twice the estimate, but 40 ms if that is less and 250 ms if it is more. |
| `ChunkTiming.WaitExact` | internal/masso/upload.go:341-360 | Every wait is positive, and until it is over nothing is due, from then on something is. |
| `ChunkTiming.NoResponseIffStalled` | internal/masso/upload.go:341-345 | The loop gives up for lack of a response if and only if some turn found StallTimeout passed since the last chunk ACK of any kind. |
| `ChunkTiming.RoundsBounded` | internal/masso/upload.go:346-356 | In silence the retransmit rounds are more than the least timeout apart and all precede the stall deadline. |
| `ChunkTiming.SilenceReturns` | internal/masso/upload.go:319-369 | In silence the loop returns by its third turn after the stall deadline, and for no reason but the silence or the reader. |
| `ChunkTiming.SilenceEndsUpload` | internal/masso/upload.go:319-369 | If no further ACK arrives the loop ends with no response (or a read error), not before StallTimeout after the last ACK, after at most StallTimeout / 40 ms + 1 retransmit rounds. |
| `ChunkTiming.EstimateBetweenSeedAndSamples` | internal/masso/upload.go:301-312 | The smoothed round-trip time stays between the least and the greatest of its seed and the samples of chunks never retransmitted. |
| `StartLoop.StartUpload` | internal/masso/upload.go:184-228 | startUpload on its local variables, for any observations: consecutive sends at least StartRetransmit apart, all before the deadline, at most ceil(StartTimeout / StartRetransmit) of them. |
| `StartLoop.ScheduleHolds` | internal/masso/upload.go:194-215 | That schedule, for every sequence of wake-up delays. |
| `StartLoop.NeverBursts` | internal/masso/upload.go:199-215 | And the bound on the number of sends it gives. |
| `StartLoop.WhyStarted` | internal/masso/upload.go:230-242 | The loop succeeds if and only if some turn before the deadline reads an OK answer, or an already-started answer after at least one resend. |
| `StartLoop.TurnExact` | internal/masso/upload.go:194-242 | What each turn does, told by when the request has been sent so far: give up at the deadline, judge a waiting answer by its byte, resend whenever StartRetransmit has passed since the last send, stop on cancellation. |
| `Controller.Simulator.HandleUploadStart` | internal/masso/sim/sim.go:341-369 | The start handler on its fields, with the default result: refused for a stuck or open name, else a new transfer that leaves a displaced one stuck. |
| `Controller.Simulator.BeginUpload` | internal/masso/sim/sim.go:373-385 | beginUpload's effect on every field. |
| `Controller.Simulator.ResetUpload` | internal/masso/sim/sim.go:388-393 | resetUpload's effect on every field. |
| `Controller.Simulator.HandleUploadAbort` | internal/masso/sim/sim.go:400-415 | The abort handler: the current file deleted even if complete, later chunks answered as canceled. |
| `Controller.Simulator.HandleUploadChunk` | internal/masso/sim/sim.go:426-469 | The chunk handler: a chunk counts only at the expected index, the last one stores the file, anything else is re-acknowledged. |
| `ControllerRuns.StuckIffDisplaced` | internal/masso/sim/sim.go:341-369 | Over any sequence of requests a name is stuck if and only if a start of another file has displaced its open transfer. |
| `ControllerRuns.StartExact` | internal/masso/sim/sim.go:341-385 | Which starts are refused, and that a refusal changes nothing; what any other start leaves. |
| `ControllerRuns.CanceledUntilStart` | internal/masso/sim/sim.go:400-469 | After an abort, until a start is accepted, no chunk is stored and each is answered as canceled, with the count that says so. |
| `ControllerRuns.FilesStep` | internal/masso/sim/sim.go:341-469 | A file is stored only by the chunk that completes its transfer, with exactly the bytes received, and is deleted only by an abort of the transfer accepted last. |
| `Datagrams.OwnRequestsArrive` | internal/masso/request.go:220-329 | Every request of a valid upload is encoded without error and decodes to itself, through padding and CRC. |
| `Datagrams.OwnRequestsDiffer` | internal/masso/request.go:156-212 | Different requests of one upload are different datagrams. |
| `Datagrams.DamagedRequestsDropped` | internal/masso/frame.go:65-78 | A copy of a request damaged within 16 consecutive bits is decoded as no request at all. |
| `Crc.Crc16XModem` | internal/masso/frame.go:26-39 | The nested loop computes the CRC-16/XMODEM remainder of the data. |
| `Crc.ShiftInjective` | internal/masso/frame.go:31-35 | One shift step never turns a non-zero remainder into zero. |
| `Crc.FeedLinear` | internal/masso/frame.go:26-39 | Feeding a byte is linear over exclusive or. |
| `Crc.BurstChangesSum` | internal/masso/frame.go:26-39 | Any two equal-length byte strings that differ, and differ only within 16 consecutive bits, have different CRCs. |
| `Binary.OctetDoubles` | internal/masso/frame.go:26-39 | The bits fed to the CRC are those of each byte, most significant first. |
| `Binary.RegisterHalves` | internal/masso/frame.go:50-61 | The number put on the wire is the register read in binary. |
| `Crc.CheckValue` | internal/masso/frame.go:26-39 | The remainder of the ASCII digits 1 to 9 is 0x31C3, the check value of CRC-16/XMODEM. |
| `Wire.BuildFrame` | internal/masso/frame.go:50-61 | frame fills its buffer with CRC, magic, type, payload and zero padding to a multiple of four. |
| `Wire.ParseFrame` | internal/masso/frame.go:50-78 | parse accepts every framed packet and returns its type and padded payload. |
| `Wire.BurstRejected` | internal/masso/frame.go:65-78 | parse rejects any framed packet damaged within 16 consecutive bits, wherever they lie, CRC field and magic included. |
| `Requests.BuildStart` | internal/masso/request.go:156-179 | UploadStart assembles the start request field by field, or returns the error of the name or folder. |
| `Requests.BuildChunk` | internal/masso/request.go:201-212 | UploadChunk assembles the chunk request, or rejects data over the limit. |
| `Requests.StartRoundTrip` | internal/masso/request.go:281-306 | DecodeRequest undoes UploadStart for every size and every valid folder and name. |
| `Requests.ChunkRoundTrip` | internal/masso/request.go:308-329 | DecodeRequest undoes UploadChunk for every index and all data up to 1422 bytes. |
| `Requests.AbortRoundTrip` | internal/masso/request.go:194-196 | DecodeRequest undoes UploadAbort. |
| `Requests.EncodingsDistinct` | internal/masso/request.go:201-212 | Encoding chunks is injective in index and data. |
| `Layouts.FrameLayout` | internal/masso/frame.go:50-61 | Where magic, type, payload and padding lie in every datagram. |
| `Layouts.StartLayout` | internal/masso/request.go:156-179 | Where each field of an upload start lies, to the byte, for every size and every valid folder and name. |
| `Layouts.ChunkLayout` | internal/masso/request.go:201-212 | Where each field of an upload chunk lies, for every index and all data. |
| `Layouts.ParseExact` | internal/masso/frame.go:65-78 | Why a datagram is refused before its body is looked at, and what is left of one that is not. |
| `Layouts.BodyRefused` | internal/masso/request.go:281-329 | Why the body of an upload start or chunk is refused. |
| `Layouts.ReadsOnlyWhatCanBeSent` | internal/masso/request.go:220-329 | Whatever datagram is decoded, a start names a valid file, and a chunk is no larger than the limit and than the datagram. |
| `FileNames.JoinUploadPathInjective` | internal/masso/request.go:184-190 | Distinct valid (folder, name) pairs never share a stored path. |
| `FileNames.ValidDirIsTrimmed` | internal/masso/filename.go:43-62 | A folder ValidateUploadDir accepts neither begins nor ends with a separator, so trimming leaves it alone. |
| `FileNames.StoredPathNotEmpty` | internal/masso/request.go:184-190 | A stored path is never empty, which is what the controller takes for no current file. |
| `FileNames.FileNameExact` | internal/masso/filename.go:31-36 | Exactly which names are file names: 1 to 33 printable characters, none of the nine forbidden ones, not "." or "..". |
| `FileNames.UploadDirExact` | internal/masso/filename.go:43-62 | Exactly which folders an upload may name: none, or at most 255 bytes of non-empty names under the same rules with a separator between each two. |
| `FileNames.SplitExact` | internal/masso/filename.go:43-62 | A folder is cut at every separator and nowhere else: the parts joined are the folder, and none contains a separator. |
| `FileNames.TrimExact` | internal/masso/request.go:184-190 | Trimming takes off the separators at both ends and nothing else. |
| `FileNames.StoredPathExact` | internal/masso/request.go:184-190 | An upload to the root is stored under its name, any other under folder, separator, name. |
| `QueueRuns.StepKeeps` | internal/engine/scheduler.go:131-305 | Every locked section, whoever runs it, keeps the invariant of the queue; rejections come only for names uploadTarget refuses. |
| `QueueTheorems.RunKeeps` | internal/engine/scheduler.go:322-331 | So does every interleaving of reports, manual sends, retries and folder switches with the sending goroutine. |
| `QueueTheorems.ReachableShape` | internal/engine/scheduler.go:51-94 | In every reachable queue: keys equal item names, at most one item is sending and it is the one in flight, resendAfter implies sending, a non-orphaned item in flight is the one in the map, and no orphan stays in the map once its send has settled. |
| `QueueTheorems.NoLostUpdate` | internal/engine/scheduler.go:131-160 | In every interleaving an item whose content a report has changed cannot come to rest as Sent or SentUnfiled until next has chosen it again. |
| `QueueSends.ChangeDuringSuccessRequeues` | internal/engine/scheduler.go:641-733 | In every run from the choice of an item to the end of a successful send, with any report, manual send, retry or folder switch at any point of it: if some report changed the content, the item ends Pending, due at once, with path and time of the last report, and with its size unless the goroutine recorded the size of the open file after that report, then with that size; or it is gone and the folder was switched. |
| `QueueSends.RunFollows` | internal/engine/scheduler.go:469-733 | What holds of the item at every point of a send: in hand or taken over by a newer item, its content is what has been reported and recorded of it so far. |
| `QueueExamples.SizeOvertaken` | internal/engine/scheduler.go:478-483 | A run in which a report of 2 bytes between opening and sending leaves the item queued with the 1 byte of the open file. |
| `QueueTheorems.ChangeDuringOpenStaysQueued` | internal/engine/scheduler.go:575-633 | A change reported while the file could not be opened keeps the item queued with the reported content, even if there was no file to open. |
| `QueueTheorems.ForgottenIffVanished` | internal/engine/scheduler.go:609-624 | A non-orphaned item of an acceptable name whose file cannot be opened is forgotten if and only if the file is gone and no resend has been marked, which is what a report or a manual send of other content does. |
| `QueueTheorems.SupersededIsSilent` | internal/engine/scheduler.go:735-780 | Nothing the goroutine does for an orphan whose name has been taken over touches the queue or reports an outcome; only the event that the upload has begun is not suppressed. |
| `QueueTheorems.SupersededUntilReleased` | internal/engine/scheduler.go:740-753 | Once superseded an orphan stays so until its send has settled. |
| `QueueSends.RetriedIffNotCanceled` | internal/engine/scheduler.go:761-774 | In every run from a failure to the end of its send, without a manual retry or a folder switch that reaches the item: it is due again from the end of its backoff on, or never if the send was canceled on the machine, whatever has been reported during the send. |
| `QueueSends.DueAfterFailedSend` | internal/engine/scheduler.go:672-718 | After the last section of a failed send a non-orphaned item can become due if and only if the failure left it a time or it has been retried by hand. |
| `QueueExamples.CanceledChangeWaits` | internal/engine/scheduler.go:672-718 | A run in which a file changes during a send that is then canceled: the item ends Failed, showing the change, and is never due. |
| `QueueTheorems.FirstUnique` | internal/engine/scheduler.go:454-465 | compareItems leaves no choice: the item chosen does not depend on the order in which the map is visited. |
| `QueueTheorems.FirstExists` | internal/engine/scheduler.go:391-448 | Whenever some item may go, one of them is first. |
| `QueueChoice.CandidateExact` | internal/engine/scheduler.go:402-430 | Exactly which items may go: Pending or Waiting with no time or an elapsed one, Failed with an elapsed one. |
| `QueueChoice.DueSurvivesHolds` | internal/engine/scheduler.go:391-440 | An item due before the gate is found closed, however often, can still be chosen once it opens. |
| `QueueChoice.HoldExact` | internal/engine/scheduler.go:434-443 | A closed gate shows its reason on exactly the items that may go, reports each change once, and changes nothing else. |
| `QueueChoice.ChosenExact` | internal/engine/scheduler.go:391-464 | The item chosen may go, and of all that may it is manual if any is, then the one changed longest ago, then the least by name. |
| `QueueChoice.BeforeIsLess` | internal/engine/scheduler.go:454-464 | The order of names is by the first character that differs, a proper prefix first. |
| `QueueSwitch.SwitchExact` | internal/engine/scheduler.go:190-216 | A folder switch leaves manual items and those of the new folder exactly as they are, orphans the one being sent, and drops all others. |
| `QueueSwitch.SwitchReports` | internal/engine/scheduler.go:190-224 | Each item dropped is reported once, unless it showed Sent or Dropped, and nothing else is reported. |
| `QueueSwitch.OnlyKeptIsChosen` | internal/engine/scheduler.go:190-224 | In every run after a switch, an item chosen before its name has been reported or asked for again is manual or belongs to the new folder. |
| `QueueSwitch.ReportPlaces` | internal/engine/scheduler.go:176-192 | A report, request or rejection says which folder its item belongs to from then on. |
| `QueueManual.SendMakesManual` | internal/engine/scheduler.go:245-290 | What a manual send makes of its item: manual, due at once if idle, sent again exactly if the content differs from that being sent. |
| `QueueManual.ReadyMeans` | internal/engine/scheduler.go:122-160 | A report of exactly the content a manual send has leaves it alone; any other marks a resend, or makes the item due at once and no longer manual. |
| `QueueManual.SnapshotExact` | internal/engine/scheduler.go:544-549 | A send takes root, folder, name and path from the item as it is when it starts. |
| `QueueManual.RejectExact` | internal/engine/scheduler.go:162-174 | A rejection shows its reason on the item of that name, which then may not go; it is reported, and no other item changes. |
| `QueueManual.ManualSurvives` | internal/engine/scheduler.go:245-290 | Over every run, whatever folder is switched to, a manual item stays queued and manual until its file cannot be opened or the watcher reports another content. |
| `QueueManual.ManualIsNotFiled` | internal/engine/archive.go:59-72 | So every check of the archive after a manual send of the file in hand, however much later, stops it. |
| `QueueManual.RetryExact` | internal/engine/scheduler.go:226-243 | A retry re-arms exactly a failed, rejected or unfiled item, its failures forgotten, and reports it; otherwise it does nothing. |
| `QueueManual.FailureExact` | internal/engine/scheduler.go:755-780 | The n-th failure in a row waits for the n-th entry of the backoff, or the last; a cancellation counts for nothing and waits for ever. |
| `QueueManual.OpenFailureDrops` | internal/engine/scheduler.go:575-621 | An orphan whose file cannot be opened goes, and so does an item whose file has vanished; unless it showed Sent or Dropped that is reported, with the words for where it came from. |
| `QueueManual.OpenFailureKeeps` | internal/engine/scheduler.go:575-633 | Otherwise a refused name shows as rejected and is not tried again, and anything else waits for the first entry of the backoff. |
| `QueueManual.OutcomeExact` | internal/engine/archive.go:74-93 | What each way out of the archive is to show; a failed attempt is followed by another check of the item. |
| `QueueManual.ReleaseExact` | internal/engine/scheduler.go:676-733 | At the end of a send an orphan goes; an item with nothing more to send, or whose send failed, is let go as it is. |
| `QueueEvents.LatestEventIsTrue` | internal/engine/scheduler.go:131-316 | In every run the latest event about a name the controller accepts is the state of its item, and a name whose item is gone was last shown as sent or dropped; unless the upload of an orphan has begun under a name another item has taken. |
| `QueueEvents.OrphanMisleads` | internal/engine/scheduler.go:469-482 | In that case it does mislead: an item that waits, or none at all, is shown as being sent. |
| `QueueEvents.RunShowsStage` | internal/engine/scheduler.go:469-535 | In every run the item in hand shows Sending from the start of its upload until its outcome is recorded, and then that outcome or Pending if retried. |
| `QueueRuns.JoinInjective` | internal/engine/scheduler.go:182-191 | Items are the same exactly when folder and base name are. |
| `Scheduler.Scheduler.ItemLocked` | internal/engine/scheduler.go:182-191 | The shared item is updated in place, or, if absent or orphaned, replaced without touching the old one, which the goroutine may still hold. |
| `Scheduler.Scheduler.Ready` | internal/engine/scheduler.go:131-160 | ready on the shared items does what the queue operation says. |
| `Scheduler.Scheduler.Rejected` | internal/engine/scheduler.go:164-175 | rejected, likewise. |
| `Scheduler.Scheduler.SendFile` | internal/engine/scheduler.go:264-288 | sendFile, likewise. |
| `Scheduler.Scheduler.Retry` | internal/engine/scheduler.go:228-245 | retry, likewise. |
| `Scheduler.Scheduler.Drop` | internal/engine/scheduler.go:297-305 | dropLocked, likewise. |
| `Scheduler.Scheduler.ClearNonManual` | internal/engine/scheduler.go:204-224 | The loop over the map leaves what QueueSwitch.SwitchExact says of every item, and emits the drop event of each item dropped exactly once. |
| `Scheduler.Scheduler.ChooseNext` | internal/engine/scheduler.go:391-448 | next with the gate open on the shared items: it returns none if and only if no item is Pending or Waiting with no time or an elapsed one, or Failed with an elapsed one, and else takes the first. |
| `Scheduler.Scheduler.HoldAll` | internal/engine/scheduler.go:436-443 | next with the gate closed: the loop does to every item what QueueChoice.HoldExact says, and emits each change exactly once. |
| `Scheduler.Scheduler.Snapshot` | internal/engine/scheduler.go:544-548 | openForSend's snapshot of the item in flight. |
| `Scheduler.Scheduler.PreflightFailed` | internal/engine/scheduler.go:575-633 | preflightFailed on the item the goroutine holds. |
| `Scheduler.Scheduler.MarkSending` | internal/engine/scheduler.go:476-483 | sendOne's section once the file is open. |
| `Scheduler.Scheduler.FinishFirst` | internal/engine/scheduler.go:642-645 | finishSend's first section takes over resendAfter. |
| `Scheduler.Scheduler.RecordFailure` | internal/engine/scheduler.go:761-780 | recordFailure, silent if superseded. |
| `Scheduler.Scheduler.SetTerminal` | internal/engine/archive.go:157-171 | setTerminal, silent if superseded. |
| `Scheduler.Scheduler.ArchiveCheck` | internal/engine/archive.go:66-72 | archiveSent's check of the item before each attempt. |
| `Scheduler.Scheduler.FinishLast` | internal/engine/scheduler.go:676-733 | finishSend's last section: the resend, the drop of an orphan, or the release. |
| `Archive.ArchiveSent` | internal/engine/archive.go:49-94 | However Stat, MkdirAll and Rename fail and whatever others do outside sent/ between attempts: no rename replaces a file, every file in the sent folder of any of the given roots is still in one of them, unaltered and in a place of its own, and on success the file moved had exactly the size and time that were sent and is now at its destination, no longer at its source; otherwise the source has not been moved and some call failed, or the item or the file no longer asked for it. |
| `Archive.ArchiveAll` | internal/engine/archive.go:34-94 | Over any sequence of sends from any roots watched over time, with others acting before and during each: no rename replaces a file, and whatever is in a sent folder at any point between sends is in one at every later point, unaltered, in a place of its own. |
| `Archive.RenamePreservesIff` | internal/engine/archive.go:108-116 | A rename to a free place keeps all that is kept in some place if and only if it does not take something out of it. |
| `Archive.NestedRootTakesOut` | internal/engine/archive.go:54-56 | For the sent folder of one root alone the claim is false: a watched folder above that root archives out of it. |
| `Archive.MoveIntoSent` | internal/engine/archive.go:99-118 | One attempt: the source ends at its destination or stays in place, and a failure is due to a failed call. |
| `Archive.SetAside` | internal/engine/archive.go:103-113 | Whatever is or may be at the destination is first renamed to a free name in the same folder. |
| `Archive.UniqueBackupName` | internal/engine/archive.go:122-138 | With finitely many files and unclear answers the search ends at a free name, and at the first free candidate if every answer is clear. |
| `Archive.BackupNamesDiffer` | internal/engine/archive.go:127-137 | The candidates tried are pairwise distinct. |
| `Archive.RenamePreserves` | internal/engine/archive.go:108-116 | A rename to a free place in sent/ loses nothing there. |
| `Archive.BackupInSent` | internal/engine/archive.go:122-127 | A backup name lies in the same part of sent/ as what it backs up. |
| `Archive.BackupKeepsExtension` | internal/engine/archive.go:122-138 | A backup keeps the extension of the file, after the time stamp and the number. |
| `Archive.ExtExact` | internal/engine/archive.go:122-128 | The extension is the rest of the last path element from its last dot on. |
| `Decimals.DecimalInjective` | internal/engine/archive.go:136-136 | Different numbers are written differently. |
| `Decimals.DecimalReads` | internal/engine/archive.go:133-138 | Read digit by digit it is the number again, without leading zeros. |
| `Gate.OpenIffMayStart` | internal/engine/gate.go:175-195 | The gate is open if and only if it is connected and either overridden or the statuses since the last disconnect end in an idle run at least IdleHold old and, if that run began with progress strictly between 0 and 100 and no later status showed 0 or 100, at least PauseGrace old. |
| `Gate.OpensOnce` | internal/engine/gate.go:197-220 | With no further event a gate opens at one known instant, or never, or is open already, and stays open. |
| `Gate.RunUnique` | internal/engine/gate.go:26-37 | A status history ends in at most one idle run. |
| `Gate.FoldedRecalls` | internal/engine/gate.go:142-170 | The fields updateStatus keeps are what the status history says. |
| `Gate.ReasonExact` | internal/engine/gate.go:175-195 | Exactly when each reason is given: by the connection, the override, the last status and the idle run that goes on. |
| `Gate.ReachableExact` | internal/engine/gate.go:107-126 | Connected is: the last connection event was a connect. |
| `Gate.OverriddenExact` | internal/engine/gate.go:129-134 | The override is what it was set to last, or initially. |
| `Gate.SeenExact` | internal/engine/gate.go:117-172 | The statuses that count are those reported since the last disconnect. |
| `Gate.Gate.Evaluate` | internal/engine/gate.go:175-195 | The verdict computed from the fields is the verdict the whole history gives, reason included. |
| `Gate.Gate.Reschedule` | internal/engine/gate.go:200-220 | After every step the timer is armed for exactly the instant the gate opens by itself, or not at all, and every verdict not yet signaled leaves a wake-up token. |
| `Gate.Gate.NoMissedOpening` | internal/engine/gate.go:200-220 | Between two steps the gate is open exactly from the instant the timer is armed for. |
| `Gate.Gate.SignalReady` | internal/engine/gate.go:229-238 | A token is left whenever the verdict differs from the one signaled last. |
| `Gate.Gate.Connected` | internal/engine/gate.go:107-112 | connected keeps fields, timer and token true to the history. |
| `Gate.Gate.Disconnected` | internal/engine/gate.go:117-126 | disconnected, likewise, and forgets the machine's status. |
| `Gate.Gate.SetUploadWhileMachining` | internal/engine/gate.go:129-134 | setUploadWhileMachining, likewise. |
| `Gate.Gate.UpdateStatus` | internal/engine/gate.go:137-172 | updateStatus, likewise. |
| `Gate.Gate.TimerFired` | internal/engine/gate.go:85-88 | When the timer fires the gate is open and the scheduler has a token. |
| `Settling.ReadyIffSettled` | internal/watch/watch.go:450-466 | A file is reported ready by an observation if and only if at least two observations spanning at least Settle all show its present content, it is valid and free, and this content was not the one reported last; and rejected likewise if invalid. Not so for a file born empty with the zero time. |
| `Settling.ReadyWhenBornZero` | internal/watch/watch.go:580-597 | Exactly what happens to such a file: two observations suffice, however close together. |
| `Settling.BornZeroUnsettled` | internal/watch/watch.go:580-597 | A concrete case in which such a file is reported without having settled. |
| `Settling.ObserveTracks` | internal/watch/watch.go:580-629 | An entry always is what has been observed and reported of its file since it appeared; no content is reported twice in a row. |
| `Settling.SettledIff` | internal/watch/watch.go:458-460 | Counting stable scans from the last change decides settling as defined over all observations. |
| `Watcher.ScanKeeps` | internal/watch/watch.go:372-420 | Every file a scan reports ready is valid, free, and settled by observations the last of which is this scan's. |
| `Watcher.EveryRunTracks` | internal/watch/watch.go:250-297 | Over any sequence of listings the entries agree with the histories. |
| `Watcher.UnlistableKeepsHistory` | internal/watch/watch.go:474-488 | A scan that cannot list a folder keeps everything on record under it as it was. |
| `Watcher.OutsideUntouched` | internal/watch/watch.go:422-468 | Scanning a folder touches no entry outside it. |
| `Watcher.UnlistedIsShut` | internal/watch/watch.go:477-483 | The folders recorded as unlisted are exactly those the walk meets and cannot list. |
| `Watcher.FolderWatcher.Look` | internal/watch/watch.go:450-466 | updateEntry, the checks and settle on the entry of one file. |
| `Watcher.FolderWatcher.WalkDir` | internal/watch/watch.go:422-488 | scanDir and scanSubdir over a whole tree, in place; WatcherReports.DirMeets says what that does for every file. |
| `Watcher.FolderWatcher.ForgetVanished` | internal/watch/watch.go:390-394 | The entries of vanished files are forgotten, others not. |
| `Watcher.FolderWatcher.ScanOnce` | internal/watch/watch.go:372-420 | scan on the watcher's own state; WatcherReports.ScanReports, ReportsOnlyListed and RememberedIff say what that reports and keeps. |
| `Folders.WalkAgrees` | internal/watch/watch.go:422-495 | Over every tree, the folders a walk enters are those that are there to be listed and whose every component on the way relativeDir accepts. |
| `Folders.RelativeDir` | internal/watch/watch.go:518-569 | relativeDir on a path under the watched folder returns its folder exactly when every folder on the way is one the walk enters. |
| `Watcher.RelDirAgreesWithScan` | internal/watch/watch.go:503-569 | Over every tree, a scan sees a tracked file standing in a folder if and only if RelDir, given the file's path, answers that folder. |
| `Watcher.DirSees` | internal/watch/watch.go:422-488 | What scanning a folder sees: exactly the tracked files standing in folders below it whose every component relativeDir accepts. |
| `Watcher.ScanSeesOnlyTracked` | internal/watch/watch.go:422-488 | A scan sees nothing but tracked files, in folders the walk enters. |
| `WatcherReports.ScanReports` | internal/watch/watch.go:422-468 | Over every tree with distinct names, a tracked regular file standing where the walk goes is observed exactly once by a scan, as listed; it is reported ready, once, if and only if it is then settled, valid, free and not the content reported last, and rejected if and only if settled, invalid and not so reported. |
| `WatcherReports.ScanReportsBornZero` | internal/watch/watch.go:422-468 | The same for a file born empty with the zero time. |
| `WatcherReports.ReportsOnlyListed` | internal/watch/watch.go:372-468 | Whatever a scan reports is a tracked regular file standing where the walk goes, with the size and time listed there. |
| `WatcherReports.DirMeets` | internal/watch/watch.go:422-488 | What scanning a folder does at the place of any file below it: one look, or none for a file that is not tracked or cannot be read. |
| `WatcherReports.RememberedIff` | internal/watch/watch.go:385-394 | What is still on record after a scan: the tracked files standing where the walk goes, and whatever lies under a folder that could not be listed. |
| `WatcherReports.ReportedAnew` | internal/watch/watch.go:331-336 | A file that vanishes and comes back with the very content reported before is reported again, as new, once it has settled again. |
| `WatcherReports.NothingListed` | internal/watch/watch.go:376-384 | When the watched folder itself cannot be listed nothing is reported and everything is kept. |
| `Folders.EntersExact` | internal/watch/watch.go:488-501 | Exactly which folders are entered, by the characters of their names. |
| `LogFile.Writer.Write` | internal/logfile/logfile.go:135-158 | Write succeeds if and only if no file operation fails, appends what it reports, rotates first exactly when the data would not fit, writes nothing after a failed rotation, and keeps tracked size equal to real size. |
| `LogFile.Writer.Rotate` | internal/logfile/logfile.go:163-215 | If every step succeeds generation i has become i+1 exactly, holes included, and the active file is empty; if only Remove, Close or the last rename fail no text but the oldest is lost. |
| `LogFile.Writer.ShiftGenerations` | internal/logfile/logfile.go:177-182 | The downward loop moves every generation up by one. |
| `LogFile.Open` | internal/logfile/logfile.go:89-125 | Open with its defaults for limits that are not positive: a failed call leaves no writer and at most an empty active file; else the writer starts at the real size. |
| `LogFile.RotationKeepsTail` | internal/logfile/logfile.go:163-215 | Oldest-to-newest generations followed by the active file are a suffix of what they were before. |
| `LogFile.ShiftedAt` | internal/logfile/logfile.go:177-182 | What each generation holds after the loop. |
| `LogFile.GenerationsDiffer` | internal/logfile/logfile.go:217-219 | Different generations have different names. |
| `FakeClock.FiresOnSchedule` | internal/clock/fake.go:76-100 | Whatever else is pending, Advance fires each timer exactly once and each ticker at exactly the multiples of its period up to the target. |
| `FakeClock.ScheduleExact` | internal/clock/fake.go:76-100 | That schedule: a timer's deadline once it has come, a ticker's every multiple of its period up to the target. |
| `FakeClock.DeliversFirst` | internal/clock/fake.go:84-90 | After an advance an empty channel holds the first time its timer's own schedule gives, or stays empty if there is none; a full one keeps what it held. |
| `FakeClock.NothingDelivered` | internal/clock/fake.go:84-90 | The channel of a timer that is not pending is unchanged. |
| `FakeClock.InDeadlineOrder` | internal/clock/fake.go:76-100 | Timers fire in the order of their deadlines, between the old time and the new, and none that is due is left. |
| `FakeClock.AdvanceInSteps` | internal/clock/fake.go:76-100 | Advance(a) then Advance(b) is Advance(a+b): same clock, same queue, same channels, same firings. |
| `FakeClock.FireWorks` | internal/clock/fake.go:80-98 | Each firing leaves less to do, so Advance ends although tickers re-arm. |
| `FakeClock.AdvanceHandled` | internal/clock/fake.go:76-100 | Advance keeps every pending timer's handle its own. |
| `FakeClock.Fake.NextDue` | internal/clock/fake.go:131-142 | next finds the first of the earliest timers due. |
| `FakeClock.Fake.Advance` | internal/clock/fake.go:76-100 | The loop on the clock's own fields goes where the function says and fires what it says; FiresOnSchedule, DeliversFirst and InDeadlineOrder say where and what that is. |
| `FakeClock.Fake.Remove` | internal/clock/fake.go:155-162 | remove takes out exactly this timer and reports whether it was pending. |
| `FakeClock.Fake.Reset` | internal/clock/fake.go:179-196 | Reset drains a stale value and re-arms the timer, and leaves every other pending timer as it was. |
| `FakeClock.Fake.Stop` | internal/clock/fake.go:173-177 | Stop takes out exactly this timer. |

## Left out

- Sockets, discovery, broadcast, keepalive, the reader goroutine and its waiters: replies it drops are covered by network loss.
- Fault injection in the simulator, and its silence and duplicate replies: the network of the model does all of that; results are the default ones.
- Progress callbacks, send errors as a cause of "no response", log text, and the wording of failures.
- The reply window that notifyAbort waits out before the next upload; uploads are modelled one at a time, each starting with no datagram of an earlier one in the network.
- UploadProtocol.NilMeansStored: the file is a fixed byte sequence; a reader whose bytes change between two reads of the same chunk is not modelled, though the loop reads each chunk once.
- UploadExactly.TrustworthyIffNotFooled: the condition is on the controller alone and speaks of all contents at once; for one given file some of these states cannot deceive.
- UploadProgress.LiveThroughout: runs in which a duplicated start restarts a completed transfer are excluded; the safety results hold for them too.
- ChunkTiming.SilenceEndsUpload: a controller that keeps acknowledging the same count keeps the loop alive, as in the code.
- Scheduler: an item's fields are one record in a shared cell, so the model has aliasing between the map and the goroutine but not assignments to single fields seen half done; the code makes them under its lock. The goroutine's place in the code is history kept beside the fields.
- Scheduler.Scheduler.HoldAll: the order in which the held items are reported.
- Events are recorded in the order of the sections that cause them; most are emitted just after the lock is released. Event times, progress events and the coalescer are not modelled.
- QueueEvents.LatestEventIsTrue: names the controller refuses; their item can leave the queue while the goroutine still holds it.
- nextDeadline and the wake-up channel of the scheduler: the goroutine may wake at any time.
- uploadTarget and Open appear as what they answer; a name is either accepted or refused for good.
- QueueRuns.StepKeeps: rejected is reached only for names uploadTarget refuses, as its only caller ensures.
- A manual send that arrives after the archive's check of the item and before the rename does not stop that rename, in the code as in the model.
- Archive.ArchiveSent: others may change anything outside sent/ between attempts, not between the Stat and the Rename of one attempt, and no other program changes sent/. Folders are not files; a folder in the way is a failing rename.
- Archive.ArchiveAll: sent folders are told apart by their names as written; two spellings of one folder are two.
- Archive.UniqueBackupName: with inconclusive answers for ever the search would not end, in the code either.
- Gate: the setters run at clock readings that do not go back; a timer that has fired and is stopped before its value is read leaves nothing behind. Reasons are an enumeration of the source's texts.
- Watcher.ScanKeeps: delivery of reports over the channels, their sorting, notifications, debouncing and cancellation; a report counts as made when it is recorded.
- WatcherReports.ScanReports: the entries of one folder have different names, as a file system sees to.
- Folders.RelativeDir: paths are component sequences, already cleaned, and the watched folder is matched exactly; spellings that differ in case and os.SameFile are not modelled. Symbolic links are not followed.
- The file extensions the watcher recognises: which names are candidates is a parameter.
- LogFile.Writer.Rotate: when the rename of some generation fails while the next succeeds, the next overwrites it; then only size tracking is claimed.
- FakeClock.Fake.Advance: timers are handles into the queue, not shared objects; BlockUntil and its waiters are not modelled. FakeClock.InDeadlineOrder supposes that nothing pending is overdue, which negative durations would break.
- The user interface, the app's life cycle, configuration and Windows calls.
