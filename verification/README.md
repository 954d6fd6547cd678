# Models of the transcription appliance's stateful logic

This project models the parts of the appliance where correctness depends on order and interleaving,
and proves what they are for. Each stateful core appears twice: as a transition function on values,
about which the theorems quantify over every run, and (where the source changes objects step by step)
as a class whose methods carry out the source's statements and are proved to take exactly the
transition's step. Clocks, ids, the network, the browser and the file system are parameters or
arbitrary events.

| file | subject |
|---|---|
| `StateStore`, `StateStoreClient` | the optimistic-concurrency store: seqlock reads, compare-and-swap writes, bounded retry, any number of clients interleaved at every table read |
| `IngestServer`, `IngestProgress`, `IngestWatch` | resumable uploads: sessions with a committed byte prefix, and the watched-folder client over a disk that changes and a network that loses, delays and repeats |
| `SweepScheduler` | coalescing sweeps and shutdown |
| `Heartbeat` | the worker's two-lock versioned heartbeat sender, interleaved at every lock |
| `Workflow`, `UploadOutcome`, `WorkflowState` | recordings, upload sessions and transcript jobs kept in agreement, and what each transition brings about |
| `AssignmentLedger`, `AssignmentTables`, `CasefileAccess`, `AssignmentEffects` | the assignment ledger, the access check against the index of visible recordings, and what each operation does to access |
| `SpeakerVote` | voting transcript segments onto speakers |
| `Speakers`, `SegmentEdits` | speaker rename, and the reviewer's patch against the whole document |
| `Decimal`, `CaptionTimestamp`, `DelimitedExport` | printers with their inverse parsers |
| `FakeSmtp`, `SmtpTransaction` | the incremental SMTP parser, and whole transactions through it |
| `CaptureAudio`, `CaptureTakes`, `CaptureComponent` | microphone capture generations under late browser events |
| `ModalStack` | stacked dialogs |
| `Search`, `Wrappers` | linear search; Option and Result |

## What the proofs found

- A whole-state write deletes every revision before it inserts them again (src/server/store.ts:531), and
  `completed_revision_id` is a foreign key with ON DELETE SET NULL on a connection that enforces foreign
  keys (src/server/db/schema.ts:595-600, src/server/db/client.ts:52). So any `withState` write, of any
  recording, makes every completed assignment forget its revision, and those users lose the access that
  completing was meant to keep: `WholeStateWriteForgetsRevisions`, `WholeStateWriteRevokesCompleted`,
  `ApprovedReviewerLosesAccess`.
- Finalize moves the file before its state is written (src/server/ingest/service.ts:443-450), inside a mutate
  that starts over after a version conflict. So one conflict with another writer loses a complete upload:
  the second attempt finds no temporary file and marks the session as failed, and nothing brings it back
  (`FinalizeOnce`, `LostUploadsStayLost`, `ConflictLosesUpload`).
- Repeating a finalize whose response was lost is refused and marks the session as failed, though the
  stored file stays (`FinalizeOnce`); the watcher is right to look at the status first.
- A session can ask for more bytes although its file is gone (an expiry or a finalize whose state was never
  written). An undisturbed watcher ingests a file exactly when its session can continue (`IngestFile`).
- The SMTP handler stops at QUIT but takes up what it left in the buffer at the next data event, so
  chunking matters exactly when a whole line follows QUIT (`SplitIsIrrelevantUnlessQuit`,
  `ChunksDecideAfterQuit`).
- Recipients added after a message was captured appear in that message until RSET
  (`LaterRecipientsReachCapturedMessages`, `SharedRecipients`).
- An upload created under a session id in use breaks the links between the records (`CreateKeepsInv`,
  `SharedSessionIdBreaksTheLinks`); the ingest service looks the id up before it creates.
- The access check takes an empty current revision id for none, the index does not (`CheckAndIndexAgree`).
  The case does not arise: ids are drawn with a prefix (src/domain/workflow.ts:20-22,
  src/server/casefile/commands.ts:121-123), and with such ids the two agree (`NamedRevisionsAgree`).

## Model

| member | source | states |
|---|---|---|
| `StateStore.AssembledFromOneState` | src/server/store.ts:455-494 | eight table reads that each agree with one committed state rebuild that state |
| `StateStore.StepKeepsInv` | src/server/store.ts:450-503 | every read, mutate, write and foreign transaction keeps the commit chain, every snapshot's origin and the ownership of commits |
| `StateStore.RunKeepsInv` | src/server/store.ts:450-693 | and so does every schedule of any number of clients |
| `StateStore.EveryRunIsSerializable` | src/server/store.ts:675-693 | the database holds what the committed mutates give one after the other; the version counts the commits |
| `StateStore.NoLostUpdates` | src/server/store.ts:510-526 | each commit is its author's mutate applied to the state its predecessor left |
| `StateStore.ChainIsSerial` | src/server/store.ts:675-693 | replaying the first n commits alone gives the state at version n |
| `StateStore.LoadsAreSnapshots` | src/server/store.ts:450-503 | a load that returns saw all eight tables of one committed state |
| `StateStore.CommitsExactlyOnce` | src/server/store.ts:647-693 | a client has committed exactly when it returned from its write, and then once; failed, exhausted and read-only clients changed nothing |
| `StateStore.GivingUpMeansOthersCommitted` | src/server/store.ts:675-693 | from any moment at which a client has yet to execute its first statement: if it gives up with a conflict, at least three commits have landed since, none of them its own |
| `StateStore.UndisturbedClientCommits` | src/server/store.ts:675-693 | a client left alone loads, mutates and commits at the first attempt |
| `StateStore.UndisturbedReaderSynchronizes` | src/server/store.ts:647-673 | a synchronizing reader left alone returns without writing exactly if nothing changed, and otherwise commits what it computed; its own error is passed on |
| `StateStoreClient.Database.Interference` | src/server/store.ts:450-503 | between two of our accesses only others' commits land, and the version counts them |
| `StateStoreClient.Database.WriteState` | src/server/store.ts:510-645 | the whole state is replaced and the version bumped exactly when the version is the expected one; otherwise only others' commits are there |
| `StateStoreClient.Database.ReadPass` | src/server/store.ts:453-471 | two equal version reads mean that the tables read between them are the current ones |
| `StateStoreClient.Database.LoadState` | src/server/store.ts:450-503 | the snapshot is the committed state of its version; giving up takes at least three commits by others |
| `StateStoreClient.Database.Load` | src/server/store.ts:450-503 | the same in terms of the history: left alone it returns the newest state |
| `StateStoreClient.Database.Attempt` | src/server/store.ts:678-685 | one round commits the mutate's result on the newest state, or reports who caused its end: the mutate's own error or conflict, a commit by others, or three of them |
| `StateStoreClient.Database.WithState` | src/server/store.ts:675-693 | on success the last commit is the mutate's result on the state just before it; a failure commits nothing of ours and has a reason: an error that the mutate raised on a committed state, or three conflicts, each a commit by others or raised by the mutate; left alone, the first attempt that raises no conflict decides, and a mutate that returns is committed |
| `IngestServer.ChunkKeepsPrefix` | src/server/ingest/service.ts:343-396 | an honest chunk at the committed offset extends the prefix |
| `IngestServer.HandleKeepsSessionsOk` | src/server/ingest/service.ts:271-481 | every honest request, whether its state is written at once, after a retry or never, keeps each session's file a prefix of the content that names it, and what is finalized stays |
| `IngestServer.BackgroundKeepsSessionsOk` | src/server/ingest/service.ts:133-164 | so do expiry and the verification engine |
| `IngestServer.DurableMeansFinalized` | scripts/ingest-watch-entry.ts:239-244 | a status that reads as durably finalized belongs to a session that stores its whole content |
| `IngestServer.HonestRunsStoreContent` | src/server/ingest/service.ts:271-481 | the same over every run of late, repeated and reordered requests |
| `IngestServer.FinalizeOnce` | src/server/ingest/service.ts:398-481 | finalize is accepted exactly for a complete temporary file whose state is written at once; a complete one whose state meets a conflict is lost; a repeated one is refused |
| `IngestServer.RetriedChunkIsTheSame` | src/server/ingest/service.ts:380-385 | a chunk that is written again after a conflict leaves the same file |
| `IngestServer.LostUploadsStayLost` | src/server/ingest/service.ts:343-456 | whatever arrives or happens afterwards, short of the session going away, a lost upload is never stored |
| `IngestServer.ConflictLosesUpload` | src/server/ingest/service.ts:403-456 | such a loss, in one byte |
| `IngestProgress.UploadIsStored` | src/server/ingest/service.ts:271-481 | an upload that is created, sent in any chunks (retried or not) and finalized at once is stored as exactly its content, moved once, and reported as done |
| `IngestProgress.ChunkTakenWhen` | src/server/ingest/service.ts:343-396 | a chunk is taken exactly if it starts where the upload stands and there is a file to go on with; its bytes then stand there, and what was before it stays |
| `IngestProgress.RepeatedChunkIsRefused` | src/server/ingest/service.ts:363-369 | a chunk that arrives again is refused and changes nothing |
| `IngestProgress.CreateAgainFinds` | src/server/ingest/service.ts:271-328 | creating again returns the session as it stands and changes nothing |
| `IngestProgress.FinalizeTakesCompleteOnly` | src/server/ingest/service.ts:409-450 | in any sessions whatever, a finalize is accepted only for a file of exactly the expected size, all committed; any other upload is marked as failed and otherwise kept |
| `IngestProgress.AdviceWorks` | src/server/ingest/service.ts:271-481 | the next action of a status works when followed: finalize is accepted, done means stored, resume takes any chunk exactly unless the file is gone, restart exactly means that none is taken but from byte 0 |
| `IngestProgress.ExpiryMeansRestart` | src/server/ingest/service.ts:133-164 | expiry takes the file of an incomplete upload, which must then restart, and no other |
| `IngestWatch.Watcher.Send` | scripts/ingest-watch-entry.ts:168-183 | a request is executed or not, its answer arrives or not; earlier requests may still arrive |
| `IngestWatch.Watcher.ReadChunk` | scripts/ingest-watch-entry.ts:185-192 | short reads are continued up to the chunk or the end of the file |
| `IngestWatch.Watcher.HashFile` | scripts/ingest-watch-entry.ts:194-202 | hashing a file that does not change gives the digest of its content |
| `IngestWatch.Watcher.LiveDigest` | scripts/ingest-watch-entry.ts:215-237 | a digest that is used belongs to the content behind the expected fingerprint, which the file showed while it was taken; a file that was replaced reads as changed |
| `IngestWatch.Watcher.LiveChunk` | scripts/ingest-watch-entry.ts:407-416 | a chunk that is sent is that content's slice at the offset; a file that was replaced reads as changed |
| `IngestWatch.Watcher.LoadSessionStatus` | scripts/ingest-watch-entry.ts:268-277 | a status that arrives is the session's status at the time it was asked |
| `IngestWatch.Watcher.NoteFinalized` | scripts/ingest-watch-entry.ts:279-286 | only a finalized digest enters `done` |
| `IngestWatch.Watcher.FinalizeSession` | scripts/ingest-watch-entry.ts:302-313 | success, also after a lost response, means that the session stores its content |
| `IngestWatch.Watcher.ReconcileFinalizeFailure` | scripts/ingest-watch-entry.ts:288-300 | a finalize whose answer is missing or bad counts as done only if the session is durably finalized |
| `IngestWatch.Watcher.AskToFinalize` | scripts/ingest-watch-entry.ts:302-313 | an accepted finalize has stored the content; undisturbed, it is accepted for a complete upload and refused for a stuck one |
| `IngestWatch.Watcher.GetOrCreateSession` | scripts/ingest-watch-entry.ts:315-339 | the session belongs to this digest and run, whether it was remembered, found or created |
| `IngestWatch.Watcher.IngestFile` | scripts/ingest-watch-entry.ts:341-448 | success means that the content behind the fingerprint is empty or its digest is in `done`; a file that nothing disturbs is ingested exactly when the server has no session for it or one that can continue; bytes that were given up are not sent again |
| `IngestWatch.Watcher.UploadContent` | scripts/ingest-watch-entry.ts:369-447 | the same from the session on |
| `IngestWatch.Watcher.ContinueSession` | scripts/ingest-watch-entry.ts:369-402 | what is done with the session that was found: it is finished, resumed or given up, and undisturbed it is ingested exactly if it can go on; one that needs a restart is given up, its digest and path blocked |
| `IngestWatch.Watcher.SendAndFinalize` | scripts/ingest-watch-entry.ts:403-447 | the same from the resume offset on; success means that the file showed its fingerprint again after it was sent, and a file that is replaced meanwhile is given up, its digest and path blocked |
| `IngestWatch.Watcher.SendChunks` | scripts/ingest-watch-entry.ts:406-435 | undisturbed, the upload ends with every byte committed, or stops at a session whose file is gone |
| `IngestWatch.Watcher.SendChunk` | scripts/ingest-watch-entry.ts:407-435 | one round moves the committed offset on, within the size |
| `IngestWatch.Watcher.WaitUntilStable` | scripts/ingest-watch-entry.ts:450-486 | a file is taken up exactly if it is a supported file, neither blocked nor completed as it is, and was noted with this fingerprint at least the stability window before; it then showed that fingerprint both times, so that, if it is the same file, its bytes never changed between; otherwise, if nothing bars it, it is noted now or stays noted; no other file is touched |
| `IngestWatch.Watcher.NotBarred` | scripts/ingest-watch-entry.ts:452-475 | the fingerprint of a supported file that is neither blocked nor completed as it is; every other entry is dropped from the candidates |
| `IngestWatch.Watcher.NoteOrTake` | scripts/ingest-watch-entry.ts:476-486 | a fingerprint that is new is noted, one noted long enough ago is taken up, any other stays noted |
| `IngestWatch.Watcher.TakeUp` | scripts/ingest-watch-entry.ts:488-497 | a path is completed only after a successful ingest, and for sure if the file keeps still and its upload has prospects |
| `IngestWatch.Watcher.ProcessCandidate` | scripts/ingest-watch-entry.ts:450-498 | every promise of the watcher is kept; a file that keeps still in a calm folder is noted, and completed with its fingerprint if it was noted long enough before; the entries of others do not set it back |
| `IngestWatch.Watcher.ForgetMissing` | scripts/ingest-watch-entry.ts:509-528 | candidates, completed, blocked and refused paths lose exactly the names that left the folder |
| `IngestWatch.Watcher.Sweep` | scripts/ingest-watch-entry.ts:500-529 | a sweep keeps the promises; it processes every entry while the watcher runs: a supported file that keeps still in a calm folder is noted by it, and completed by a sweep at least the stability window later |
| `IngestWatch.Watcher.SweepAfter` | scripts/ingest-watch-entry.ts:500-529 | the same for a pause and the sweep after it |
| `IngestWatch.Watcher.Watch` | scripts/ingest-watch-entry.ts:500-529 | after any number of sweeps: each finalized session of this run holds exactly the bytes its digest stands for and was stored once; `done` holds only finalized digests; completed paths were empty or are in `done`; and a supported file that keeps still in a calm folder is completed and ingested once a sweep has followed another after the stability window, unless it was blocked or its upload had no prospects from the start |
| `SweepScheduler.StepKeepsInv` | scripts/ingest-watch-entry.ts:531-554 | every step keeps at most one runner, registered as the active sweep |
| `SweepScheduler.RunKeepsInv` | scripts/ingest-watch-entry.ts:531-587 | over every schedule |
| `SweepScheduler.OneSweepAtATime` | scripts/ingest-watch-entry.ts:531-554 | two sweeps never overlap |
| `SweepScheduler.RequestsAreRemembered` | scripts/ingest-watch-entry.ts:531-554 | a request before shutdown is served by a sweep that starts after it, or is still flagged with a runner to see it |
| `SweepScheduler.QuietMeansServed` | scripts/ingest-watch-entry.ts:531-554 | when nothing runs and nothing stops, every request has been served |
| `SweepScheduler.NextRunnerStepServes` | scripts/ingest-watch-entry.ts:541-553 | the runner's next step starts the sweep that a flagged request waits for |
| `SweepScheduler.ShutdownIsFinal` | scripts/ingest-watch-entry.ts:567-587 | once shutdown has resolved no sweep runs or starts, whatever happens |
| `SweepScheduler.ShutdownResolvesSoon` | scripts/ingest-watch-entry.ts:567-587 | with the current sweep's end shutdown resolves |
| `SweepScheduler.SweepsWereAskedFor` | scripts/ingest-watch-entry.ts:531-554 | there are never more sweeps, the one still owed included, than calls that asked for one |
| `SweepScheduler.RequestStartsOrWaits` | scripts/ingest-watch-entry.ts:531-549 | a request is refused when stopping; otherwise it starts a sweep at once if none is active, and is flagged for the active one if there is |
| `SweepScheduler.BurstIsOneSweep` | scripts/ingest-watch-entry.ts:540-548 | any number of requests during a sweep come to one more sweep |
| `SweepScheduler.StoppedStartsNothing` | scripts/ingest-watch-entry.ts:567-587 | from the call of shutdown on, whatever happens, no sweep starts |
| `SweepScheduler.Scheduler.RunLoop` | scripts/ingest-watch-entry.ts:541-548 | the loop head takes the flag and starts a sweep, or ends |
| `SweepScheduler.Scheduler.Request` | scripts/ingest-watch-entry.ts:531-549 | scheduling takes the transition's step |
| `SweepScheduler.Scheduler.Settle` | scripts/ingest-watch-entry.ts:549-553 | so does the finally handler, which starts again for a late request |
| `SweepScheduler.Scheduler.BeginShutdown` | scripts/ingest-watch-entry.ts:567-587 | so does shutdown |
| `SweepScheduler.Scheduler.EventLoop` | scripts/ingest-watch-entry.ts:531-587 | any sequence of events ends in the transition system's state |
| `Heartbeat.StepKeepsLocks` | worker/main.py:434-460 | exactly the thread inside a post holds the send lock |
| `Heartbeat.StepKeepsPosts` | worker/main.py:434-460 | versions, posted payloads and the recorded version stay consistent at every step |
| `Heartbeat.StepKeepsWake` | worker/main.py:382-475 | every step keeps a pending update covered |
| `Heartbeat.RunKeepsInv` | worker/main.py:350-475 | over every interleaving of callers and loop |
| `Heartbeat.PostedVersionsNeverDecrease` | worker/main.py:434-460 | posts go out in version order, each with the fields of its version |
| `Heartbeat.CaughtUpMeansCurrent` | worker/main.py:434-460 | after a delivery, equal versions mean that the server has the current fields |
| `Heartbeat.PendingUpdatesAreCovered` | worker/main.py:382-475 | a pending update has the wake flag, a thread that will raise it or still snapshot, a post of the newest version under way, a failed post of it, or a stop |
| `Heartbeat.SenderCatchesUp` | worker/main.py:434-460 | a sender that gets the lock and is answered leaves nothing pending |
| `Heartbeat.WakeLeadsToSend` | worker/main.py:462-475 | a raised flag takes the loop to the send in its next round |
| `Heartbeat.TimeoutLeadsToPost` | worker/main.py:462-475 | a wait that times out leads to a post of the current fields, pending update or not: the periodic heartbeat |
| `Heartbeat.DelayedWakeSends` | worker/main.py:468-473 | a wake-up that comes too soon after the last progress post sleeps, and sends when the sleep ends |
| `Heartbeat.IdleFlushPostsNothing` | worker/main.py:421-441 | a flush with nothing pending posts nothing and leaves everything as it was |
| `Heartbeat.FailedPostStaysPending` | worker/main.py:421-460 | a post that fails gives the lock back, and what was pending still is |
| `Heartbeat.StopEndsTheLoop` | worker/main.py:377-467 | after stop the loop ends at its next test |
| `Heartbeat.UpdateIsPending` | worker/main.py:382-419 | an update that names any field is pending under a new version and comes to wake the loop; one that names none changes nothing |
| `Heartbeat.HeartbeatLoop.UpdateSection` | worker/main.py:393-419 | the arguments given, one by one, make the transition's update: fields, version and the wake-up to come |
| `Heartbeat.HeartbeatLoop.SnapshotSection` | worker/main.py:436-451 | the transition's snapshot: what it returns goes out as the newest post with this thread under way; it returns nothing only with nothing pending, the lock given back |
| `Heartbeat.HeartbeatLoop.RecordSection` | worker/main.py:459-460 | the transition's record: the sent version, the lock and the thread |
| `Heartbeat.HeartbeatLoop.PostReturned` | worker/main.py:452-456 | a delivered post is to be recorded; a failed one gives the lock back and is remembered as failed |
| `Heartbeat.HeartbeatLoop.CallerStep` | worker/main.py:377-425 | the statements of update, flush and stop outside the critical sections are the transition's |
| `Heartbeat.HeartbeatLoop.LoopStep` | worker/main.py:462-475 | so are those of the loop between two posts; after a timed-out wait the post is unconditional (`TimeoutLeadsToPost`) |
| `Heartbeat.HeartbeatLoop.Interleave` | worker/main.py:350-475 | under any interleaving the object keeps the invariant: posted versions never decrease, each post carries its version's fields, and being caught up means that the server has the current ones |
| `CaptureAudio.StepKeepsInv` | src/components/ingest/capture-audio.tsx:61-300 | each user action and browser event keeps generations, deliveries and the shown state consistent |
| `CaptureAudio.RunKeepsInv` | src/components/ingest/capture-audio.tsx:61-300 | over every order of events |
| `CaptureAudio.NoStreamLeaks` | src/components/ingest/capture-audio.tsx:61-91 | every stream that was ever acquired is stopped or held by the current generation |
| `CaptureAudio.LateEventsDoNothing` | src/components/ingest/capture-audio.tsx:120-127 | after unmount or discard all streams are stopped, and late permissions, data and stops deliver nothing |
| `CaptureAudio.RunsAreFaithful` | src/components/ingest/capture-audio.tsx:176-185 | the current generation holds exactly the data its recorder handed over, and a stop request means that Stop was pressed |
| `CaptureAudio.DeliversWhen` | src/components/ingest/capture-audio.tsx:187-215 | a step delivers exactly when the current generation's recorder stops after a requested stop |
| `CaptureAudio.DeliveriesAreComplete` | src/components/ingest/capture-audio.tsx:176-215 | over every run a delivery is its generation's first, follows a pressed Stop, and is exactly that generation's data in order |
| `CaptureTakes.StartAsks` | src/components/ingest/capture-audio.tsx:129-153 | Start makes a generation and asks for the microphone exactly if the shown state is idle and none is current |
| `CaptureTakes.PermissionDecides` | src/components/ingest/capture-audio.tsx:156-236 | a permission in time starts the recording, or is denied and let go if the recorder does not run; a late one is stopped and changes nothing else |
| `CaptureTakes.RefusalDecides` | src/components/ingest/capture-audio.tsx:223-235 | a refusal shows as denied exactly if the generation is still wanted |
| `CaptureTakes.PauseThenResume` | src/components/ingest/capture-audio.tsx:238-266 | pause suspends and keeps the data; resume brings back exactly the state before |
| `CaptureTakes.PressesThatDoNothing` | src/components/ingest/capture-audio.tsx:238-281 | a press that meets another state, or a recorder that throws, changes nothing |
| `CaptureTakes.LostTrackEndsTake` | src/components/ingest/capture-audio.tsx:166-174 | a lost track ends a take that nobody asked to stop, and is ignored after Stop |
| `CaptureTakes.UnaskedStopEndsTake` | src/components/ingest/capture-audio.tsx:187-195 | a recorder that stops unasked ends the take without a file |
| `CaptureTakes.DiscardReadiesStart` | src/components/ingest/capture-audio.tsx:283-300 | discard lets go of everything and shows a state from which Start works |
| `CaptureTakes.TakeGoesOn` | src/components/ingest/capture-audio.tsx:129-236 | until Stop, a take survives every event but those that end it, with its microphone |
| `CaptureTakes.PressedStopDelivers` | src/components/ingest/capture-audio.tsx:187-281 | over every run: after Stop, whatever else happens short of giving the take up, the recorder's stop delivers all the data it ever handed over, and the component is ready and holds nothing |
| `CaptureComponent.CaptureGeneration.LetGo` | src/components/ingest/capture-audio.tsx:67-90 | letting go stops recorder and stream and forgets the data, also when stopping throws |
| `CaptureComponent.Component.ReleaseCapture` | src/components/ingest/capture-audio.tsx:61-91 | release takes the transition's step on the one generation and the reference |
| `CaptureComponent.Component.AbandonInterruptedCapture` | src/components/ingest/capture-audio.tsx:93-104 | only the current, active generation is abandoned |
| `CaptureComponent.Component.StartRecording` | src/components/ingest/capture-audio.tsx:129-153 | a new generation exactly when idle with none current |
| `CaptureComponent.Component.PermissionGranted` | src/components/ingest/capture-audio.tsx:156-236 | a stream that comes too late is stopped; one in time is attached, or released when the recorder throws |
| `CaptureComponent.Component.PermissionRefused` | src/components/ingest/capture-audio.tsx:223-235 | a refusal releases only a current generation |
| `CaptureComponent.Component.TrackEndedListener` | src/components/ingest/capture-audio.tsx:166-174 | a lost track abandons the take unless a stop was requested |
| `CaptureComponent.Component.DataAvailableListener` | src/components/ingest/capture-audio.tsx:176-185 | non-empty data of the current generation is appended, nothing else changes |
| `CaptureComponent.Component.StopListener` | src/components/ingest/capture-audio.tsx:187-215 | deliver, abandon or ignore, as the transition says |
| `CaptureComponent.Component.PauseRecording` | src/components/ingest/capture-audio.tsx:238-251 | pause takes the transition's step, also when the browser throws |
| `CaptureComponent.Component.ResumeRecording` | src/components/ingest/capture-audio.tsx:253-266 | so does resume |
| `CaptureComponent.Component.StopRecording` | src/components/ingest/capture-audio.tsx:268-281 | so does stop |
| `CaptureComponent.Component.DiscardRecording` | src/components/ingest/capture-audio.tsx:283-300 | so does discard |
| `CaptureComponent.Component.Unmounted` | src/components/ingest/capture-audio.tsx:120-127 | so does the clean-up of an unmount |
| `CaptureComponent.Component.Dispatch` | src/components/ingest/capture-audio.tsx:120-300 | each user action and browser event, delivered to its generation, is the transition's step |
| `CaptureComponent.EventLoop` | src/components/ingest/capture-audio.tsx:61-300 | at the end of any run of a component every acquired stream is stopped or held by the generation it refers to, and a file that the last event delivered is whole, asked for and its generation's first |
| `Workflow.MaxVersion` | src/domain/workflow.ts:24-29 | the largest version among a recording's revisions, none exactly if it has none |
| `Workflow.ResolveUploadRefs` | src/domain/workflow.ts:257-274 | the session by id, its recording and that recording's job |
| `Workflow.RefsArePartners` | src/domain/workflow.ts:257-274 | in a linked state the three resolved records are each other's only partners |
| `Workflow.LinkedSessionsResolve` | src/domain/workflow.ts:257-274 | in a linked state resolving fails exactly for unknown session ids |
| `Workflow.UploadChangeKeepsInv` | src/domain/workflow.ts:347-466 | progress, expiry, failure and finalize keep all records linked and in agreement |
| `Workflow.CreateKeepsInv` | src/domain/workflow.ts:196-345 | creating keeps them linked exactly when the session id is not in use |
| `Workflow.SharedSessionIdBreaksTheLinks` | src/domain/workflow.ts:276-345 | two uploads under one session id break the links |
| `Workflow.DraftKeepsInv` | src/domain/workflow.ts:160-194 | a new draft keeps links and distinct versions |
| `Workflow.DraftIsNewestAndCurrent` | src/domain/workflow.ts:160-194 | a draft gets a version above all earlier ones, trimmed valid labels on otherwise unchanged segments, and becomes current; when it fails |
| `Workflow.RunsKeepRecordsLinked` | src/domain/workflow.ts:160-466 | over every run records stay linked with equal states, versions distinct, revisions only added, audit events only grown at the front |
| `Workflow.AuditGrowsAtTheFront` | src/domain/workflow.ts:66-96 | a failing transition, progress and drafts write no audit event, the others exactly one, in front |
| `UploadOutcome.TransitionsBringAbout` | src/domain/workflow.ts:347-466 | for the records found by id: finalize stores path and type and queues the job, ends verified now for a local session and verifying without a time for an external one; progress stores the byte count and asks to finalize exactly if all bytes are there; expiry ends interrupted with the job's state kept, failure ends with both failed; the event that says so; everything else stays, and a rejected transition changes nothing |
| `UploadOutcome.CreatedUploadIsFound` | src/domain/workflow.ts:276-345 | a created upload is found under its session id: uploading, none of the expected bytes, queued, in the uploader's name, in front of what was there |
| `UploadOutcome.CreatedRecordingAwaitsVerification` | src/domain/workflow.ts:196-255 | a recording that arrives in one piece waits for its verification, under ids that lead to it |
| `UploadOutcome.RunsVerifyLocally` | src/domain/workflow.ts:196-466 | over every governed run: a verified recording's session is not the external engine's and some command of the run finalized it, with the recording's path and the session's time of verification |
| `UploadOutcome.VerifiedMeansFinalizedLocally` | src/domain/workflow.ts:196-466 | so from the empty state on each verified recording has such a session |
| `UploadOutcome.LocalUploadEndsVerified` | src/domain/workflow.ts:276-466 | and a local upload that is created, filled and finalized ends verified and queued |
| `WorkflowState.LiveState.NoteUploadProgress` | src/domain/workflow.ts:347-367 | changing the records field by field is the transition, with the outcome above; a throw changes nothing |
| `WorkflowState.LiveState.ExpireUploadSession` | src/domain/workflow.ts:369-394 | the same for expiry |
| `WorkflowState.LiveState.FailUploadSession` | src/domain/workflow.ts:396-423 | the same for failure |
| `WorkflowState.LiveState.FinalizeUploadSession` | src/domain/workflow.ts:425-466 | the same for finalize: local uploads end verified, external ones wait |
| `WorkflowState.LiveState.CreateSystemDraftRevision` | src/domain/workflow.ts:160-194 | the same for a new draft |
| `AssignmentLedger.InsertRespectsUniqueIndex` | src/server/access/service.ts:385-418 | an inserted row never meets another active row of its recording, user and role |
| `AssignmentLedger.ActionKeepsInv` | src/server/access/service.ts:365-603 | each operation, and each whole-state write, keeps the ledger sound and append-only |
| `AssignmentLedger.LedgerIsAppendOnly` | src/server/access/service.ts:365-603 | over every run: one active row at most per key, no row dropped or reactivated, fields agree with status, created events are ended events plus active rows |
| `AssignmentLedger.RepeatedCallsChangeNothing` | src/server/access/service.ts:385-393 | assigning or removing again adds neither rows nor events |
| `AssignmentLedger.CompletedRevisionsLast` | src/server/access/service.ts:532-603 | without whole-state writes a row has a completed revision exactly when it is completed |
| `AssignmentLedger.WholeStateWriteForgetsRevisions` | src/server/db/schema.ts:595-600 | a whole-state write keeps that exactly if no row is completed |
| `AssignmentTables.AppDatabase.AssignRecordingToUser` | src/server/access/service.ts:365-451 | checks, insert and event are the ledger's step; whether the user already had it |
| `AssignmentTables.AppDatabase.RemoveRecordingAssignment` | src/server/access/service.ts:453-530 | update and event are the ledger's step; a missing recording rolls the update back |
| `AssignmentTables.AppDatabase.CompleteActiveRows` | src/server/access/service.ts:554-571 | the update ends exactly the active rows of the recording |
| `AssignmentTables.AppDatabase.InsertCompletionEvents` | src/server/access/service.ts:585-600 | one event for each of them, in order |
| `AssignmentTables.AppDatabase.CompleteActiveAssignmentsForApproval` | src/server/access/service.ts:532-603 | together they are the ledger's step |
| `AssignmentEffects.AssignAcceptedWhen` | src/server/access/service.ts:120-394 | an assign is accepted exactly for an active reviewer or approver account that has the assignment already or whose recording offers such work |
| `AssignmentEffects.AssignAddsRow` | src/server/access/service.ts:395-448 | it then adds that one row, in the account's role, active, with its event, unless there is one already |
| `AssignmentEffects.AssigneeCanOpen` | src/server/access/service.ts:365-451 | whoever is assigned to an existing recording can open it, and the index shows it |
| `AssignmentEffects.AssignLeavesOthers` | src/server/access/service.ts:365-451 | no one else's access changes |
| `AssignmentEffects.RemoveAcceptedWhen` | src/server/access/service.ts:453-530 | removing fails exactly for an unknown row, or an active one whose recording is gone |
| `AssignmentEffects.RemoveEndsRow` | src/server/access/service.ts:483-528 | it ends that row, if it was active, and no other, with one event |
| `AssignmentEffects.RemovalEndsAccess` | src/server/access/service.ts:453-530 | the user then has access only by another right |
| `AssignmentEffects.ApprovalEndsActiveRows` | src/server/access/service.ts:532-603 | approval ends exactly the active rows of its recording, each with the approved revision, one event for each in the order of the rows; it fails exactly if there are such rows and no recording |
| `CasefileAccess.VisibleRecordingIds` | src/server/access/service.ts:645-695 | the set built by three selects is exactly the visible recordings; none for an admin |
| `CasefileAccess.AccessMeans` | src/server/access/service.ts:605-643 | the check allows uploaders, active assignees and those who completed the current revision, nobody else |
| `AssignmentEffects.GrantMeans` | src/server/access/service.ts:605-643 | the ground of access in its order: oversight, upload, an active row, then the completed row for the asked revision |
| `AssignmentEffects.FoundIsLatest` | src/server/access/service.ts:220-243 | of the completed rows for a revision, one that was updated last is found |
| `CasefileAccess.VisibleMeans` | src/server/access/service.ts:645-695 | what the index shows of an existing recording |
| `CasefileAccess.CheckAndIndexAgree` | src/server/access/service.ts:605-726 | check and index agree for everyone but admins, except exactly where the current revision id is empty and only a completed assignment would allow |
| `CasefileAccess.NamedRevisionsAgree` | src/server/access/service.ts:605-726 | so they agree wherever no current revision id is empty, which drawn ids never are |
| `CasefileAccess.EmptyRevisionIdDisagrees` | src/server/access/service.ts:220-243 | were an id empty, a review from the empty ledger on would reach that exception |
| `CasefileAccess.CompletionKeepsAccess` | src/server/access/service.ts:532-603 | after completion a former assignee keeps access exactly if the completed revision is current, or by another right |
| `CasefileAccess.ReviewCompletes` | src/server/access/service.ts:532-603 | assigning and approving from the empty ledger on end with one completed row that knows its revision, and both events |
| `CasefileAccess.WholeStateWriteRevokesCompleted` | src/server/store.ts:529-536 | a whole-state write takes access from exactly those who had only a completed assignment |
| `CasefileAccess.ApprovedReviewerLosesAccess` | src/server/store.ts:529-536 | that loss, reached from the empty ledger by assigning a reviewer and approving |
| `SpeakerVote.MillisecondsTruncate` | worker/diarization_support.py:235 | seconds become milliseconds by truncation toward zero |
| `SpeakerVote.OverlapIsSharedTime` | worker/diarization_support.py:243-246 | the difference of the bounds is positive exactly if some millisecond lies in both segment and track, and then counts those milliseconds |
| `SpeakerVote.VotesAreTotals` | worker/diarization_support.py:242-246 | the dict holds the total time each speaker shares with the segment, for exactly those who share any |
| `SpeakerVote.VotesAreInOrder` | worker/diarization_support.py:242-246 | in order of first overlap |
| `SpeakerVote.ChoiceIsChosen` | worker/diarization_support.py:248-249 | the choice shares the most time, ties go to the first met, and there is none exactly if no track shares a millisecond with the segment |
| `SpeakerVote.ChosenIsUnique` | worker/diarization_support.py:248-249 | only one speaker meets that description |
| `SpeakerVote.NumbersAsPromised` | worker/diarization_support.py:226-257 | voted segments carry their speaker's number, the others the previous one; numbers run 1..k by first use |
| `SpeakerVote.CountIsDistinctLabels` | worker/diarization_support.py:259 | the returned count is the number of different labels |
| `SpeakerVote.LabelsIgnoreEngineNames` | worker/diarization_support.py:214-259 | an injective renaming of engine ids changes no label, ties included |
| `SpeakerVote.CollectVotes` | worker/diarization_support.py:242-246 | the loop over the tracks builds that dict |
| `SpeakerVote.LargestVote` | worker/diarization_support.py:249 | the first of the largest entries |
| `SpeakerVote.VoteFor` | worker/diarization_support.py:239-249 | the chosen speaker of one segment |
| `SpeakerVote.LabelFor` | worker/diarization_support.py:229-252 | the label of one segment and the order of first use after it |
| `SpeakerVote.AssignSpeakerLabels` | worker/diarization_support.py:214-259 | all labels as promised: a segment's speaker shares the most milliseconds with it, none is chosen exactly if no track shares any; the count of different labels; every other field and the order unchanged |
| `Speakers.TrimRemovesOnlySpace` | src/domain/speakers.ts:22-40 | trimming removes white space at the ends only |
| `Speakers.ValidatedNamesAreValid` | src/domain/speakers.ts:22-40 | validation accepts exactly what trims to a valid name, at most 80 UTF-16 units long, and returns that |
| `Speakers.Utf16LengthBounds` | src/domain/speakers.ts:31-37 | the length that is limited is the number of characters exactly if all are in the basic plane, and at most twice that |
| `Speakers.NormalizeTrimsLabels` | src/domain/speakers.ts:42-52 | normalizing succeeds exactly if every label is valid once trimmed, and changes nothing but labels |
| `Speakers.NormalizedStays` | src/domain/speakers.ts:42-52 | normalizing twice is normalizing once |
| `Speakers.TallyCounts` | src/domain/speakers.ts:55-63 | the counting map holds each speaker once with its number of segments; the counts add up to all segments |
| `Speakers.ListSpeakers` | src/domain/speakers.ts:55-63 | each speaker once, in order of first appearance, with its count |
| `Speakers.RenamePossibleWhen` | src/domain/speakers.ts:65-112 | a rename is possible exactly for a speaker of the transcript and another valid name, is a merge exactly if that name is in use, and changes nothing but that speaker's labels |
| `Speakers.PlanListsWhatMoves` | src/domain/speakers.ts:65-102 | the plan lists exactly the segments that applying it changes, as many ids as it announces |
| `Speakers.RenameCounts` | src/domain/speakers.ts:104-112 | every speaker's count after a rename |
| `Speakers.RenameConserves` | src/domain/speakers.ts:65-112 | the target gains what the source loses, others and the total stay |
| `Speakers.RenameBackRestores` | src/domain/speakers.ts:104-112 | renaming back restores the transcript exactly if the rename did not merge |
| `SegmentEdits.EditCommutesWithPatch` | src/components/casefile/casefile-workspace.tsx:98-108 | editing a patched document is patching with the recorded edit |
| `SegmentEdits.PatchRefinesDocument` | src/components/casefile/casefile-workspace.tsx:98-112 | after any edits the local document is the base with the patch merged by id |
| `SegmentEdits.SavingThePatchSavesTheDocument` | src/server/casefile/commands.ts:661-710 | the server accepts the patch exactly if every edit addressed a segment, and then arrives at the local document |
| `SegmentEdits.OnlyReviewerFieldsChange` | src/domain/models.ts:87-95 | id, timing and confidence never change, and no segment is added or lost |
| `SegmentEdits.LastEditsShow` | src/components/casefile/casefile-workspace.tsx:98-112 | the document shows the last text and the last speaker entered for a segment, each on its own |
| `SegmentEdits.Workspace.EditField` | src/components/casefile/casefile-workspace.tsx:776-792 | an edit updates document and patch together |
| `CaptionTimestamp.PrintThenRead` | src/server/transcript-export.ts:26-44 | reading a printed timestamp gives the floored, clamped milliseconds |
| `CaptionTimestamp.ReadThenPrint` | src/server/transcript-export.ts:26-44 | every well-formed timestamp is printed from what it reads as |
| `CaptionTimestamp.TextOrderIsTimeOrder` | src/server/transcript-export.ts:26-44 | below 100 hours the texts sort like the times |
| `Decimal.PadRoundTrip` | src/server/transcript-export.ts:22-24 | padding keeps the value |
| `Decimal.PadOfValue` | src/server/transcript-export.ts:22-24 | and is undone by reading |
| `Decimal.DigitsInOrder` | src/server/transcript-export.ts:22-24 | equal-length numerals sort like their values |
| `DelimitedExport.ReadEscaped` | src/server/transcript-export.ts:46-50 | a quoted field reads back as its value, whatever it contains |
| `DelimitedExport.OnlyQuotesAreDoubled` | src/server/transcript-export.ts:46-50 | quoting goes character by character |
| `DelimitedExport.WithoutQuotes` | src/server/transcript-export.ts:46-50 | and a text without quotes is only put between two |
| `DelimitedExport.ExportIsInvertible` | src/server/transcript-export.ts:135-164 | the quoting rules of section 2 of RFC 4180, with line feeds between rows, read the export back as the header and the sanitized matrix |
| `DelimitedExport.FormulaMeans` | src/server/transcript-export.ts:52-58 | the formula pattern is white space followed by one of the four characters |
| `DelimitedExport.NoFormulaCells` | src/server/transcript-export.ts:52-58 | a reader finds the six column names and then a row for each segment, in order, with id, times and confidence as they are; no speaker or text cell looks like a formula: harmless ones are as they were, the others have an apostrophe in front |
| `FakeSmtp.PumpInTwoParts` | e2e/support/fake-smtp.ts:51-97 | a loop that ran dry goes on as if all input had been there; one that quit does not |
| `FakeSmtp.SplitIsIrrelevantUnlessQuit` | e2e/support/fake-smtp.ts:51-97 | splitting in two changes nothing exactly unless the first part holds a QUIT line and a whole line follows that in the input |
| `FakeSmtp.CommandAfterQuit` | e2e/support/fake-smtp.ts:88-91 | a command after QUIT stays in the buffer if it comes in the same chunk, and takes effect, unanswered, if it comes in the next |
| `FakeSmtp.ChunksDecideAfterQuit` | e2e/support/fake-smtp.ts:78-91 | for one, DATA after QUIT opens a body or does not |
| `FakeSmtp.ChunkingIsIrrelevant` | e2e/support/fake-smtp.ts:51-97 | without QUIT any chunking gives the same messages, replies and residual state |
| `FakeSmtp.StuffedBodyIsRecovered` | e2e/support/fake-smtp.ts:59-67 | a body dot-stuffed by section 4.5.2 of RFC 5321 is recovered line for line |
| `FakeSmtp.BodySurvivesTheWire` | e2e/support/fake-smtp.ts:51-67 | the same in any chunks |
| `FakeSmtp.LaterRecipientsReachCapturedMessages` | e2e/support/fake-smtp.ts:39-88 | over any lines, the recipients of a message captured since the last RSET grow by exactly the RCPT arguments up to the next RSET |
| `FakeSmtp.DetachedRecipientsStay` | e2e/support/fake-smtp.ts:82-85 | a message from before a RSET keeps its recipients whatever follows |
| `FakeSmtp.SecondRecipientReachesFirstMessage` | e2e/support/fake-smtp.ts:39-85 | two messages with a recipient each both end with both |
| `FakeSmtp.SharedRecipients` | e2e/support/fake-smtp.ts:39-85 | for one, with recipients A and B |
| `SmtpTransaction.MailIsCaptured` | e2e/support/fake-smtp.ts:39-97 | a whole transaction in any chunks: one more message with the sender, all recipients and the body line for line, each command answered once and in order, and the connection ready for the next |
| `SmtpTransaction.WireIsHandled` | e2e/support/fake-smtp.ts:51-97 | lines on the wire are handled one by one, without their line ends |
| `SmtpTransaction.ResetForgets` | e2e/support/fake-smtp.ts:82-85 | RSET begins an envelope and a list of recipients of its own |
| `SmtpTransaction.EachCommandIsRecognized` | e2e/support/fake-smtp.ts:68-91 | each command is recognized whatever follows it |
| `SmtpTransaction.StartsMeans` | e2e/support/fake-smtp.ts:68-91 | by its first characters, in either case |
| `SmtpTransaction.SpacedArgument` | e2e/support/fake-smtp.ts:73-77 | an argument is the address without the white space before it and without angle brackets |
| `SmtpTransaction.IdleCommandsDoNotMatter` | e2e/support/fake-smtp.ts:68-94 | greetings, authentication and unknown commands change nothing in the captured mail |
| `SmtpTransaction.RepliesAreWellFormed` | e2e/support/fake-smtp.ts:68-94 | each command gets one reply in the format of section 4.2.1 of RFC 5321, with its code |
| `FakeSmtp.SmtpConnection.DataLine` | e2e/support/fake-smtp.ts:59-67 | a line of a body |
| `FakeSmtp.SmtpConnection.CommandLine` | e2e/support/fake-smtp.ts:68-94 | a command, by the first pattern that matches |
| `FakeSmtp.SmtpConnection.OnData` | e2e/support/fake-smtp.ts:51-97 | one data event is the parser's step on buffer and mode |
| `ModalStack.StepKeepsInv` | src/components/ui/modal.tsx:77-169 | each open and close keeps layers, interactivity and the saved page state right |
| `ModalStack.SyncedElsewhere` | src/components/ui/modal.tsx:24-35 | synchronizing leaves other backdrops alone |
| `ModalStack.RunKeepsInv` | src/components/ui/modal.tsx:77-169 | over every order of opens and closes |
| `ModalStack.PageIsRestored` | src/components/ui/modal.tsx:158-164 | when the stack empties, overflow and inert roots are as before the first open |
| `ModalStack.PageIsCovered` | src/components/ui/modal.tsx:90-101 | while it is not empty the page does not scroll, and besides what was inert before exactly the root found by the dialog that opened first is |
| `ModalStack.StackIsInOrder` | src/components/ui/modal.tsx:102-157 | the stack is exactly the dialogs still open, in order of opening, each with the backdrop it opened with |
| `ModalStack.LastOpenedIsInteractive` | src/components/ui/modal.tsx:24-35 | the one dialog that is not inert is the last opened of those still open; their layers go up from 1000 in order of opening |
| `ModalStack.Document.SyncModalStack` | src/components/ui/modal.tsx:24-35 | the loop writes each backdrop's layer and flags |
| `ModalStack.Document.OpenModal` | src/components/ui/modal.tsx:90-103 | opening is the transition's step |
| `ModalStack.Document.CloseModal` | src/components/ui/modal.tsx:148-168 | closing is the transition's step, and says exactly when the focus goes back |

## Left out

- Seeding: the database is taken as seeded, so the race between the emptiness check and the version read (src/server/store.ts:442-448) is not modelled.
- In the class of `StateStoreClient` a write fails only by a version conflict; one that fails for another reason is a step of `StateStore` (`WriteFails`).
- Verification by the mock engine and by the external engine's callbacks (src/server/orchestration/service.ts:256-291, 423-466): what `UploadOutcome` proves of verified recordings is about the workflow's own transitions.
- The order and ties of selected rows: a table is the list its select returns.
- Ids and clock readings are parameters; drawn ids are assumed to be new.
- HTTP, sign-in, cookies and authorization of the upload routes; a response is answered, lost, or its request not executed.
- Requests for one upload session are executed one after another, as in a server of one process; a conflict in the state store comes from a writer that leaves that session alone.
- The media file's name and its probing, and a crash between a file operation and the state write.
- The poll timer, the folder watcher and the abort of requests at shutdown; `shutdown` waits for the active sweep only.
- SHA-256 is taken as injective, and an unchanged fingerprint as an unchanged file.
- The worker's `stop` waits at most two seconds for its thread; only its flags are modelled. Send spacing is not claimed.
- A dialog whose backdrop element is missing: its effect returns before it touches the stack.
- React rendering, notices, focus movement, preview URLs and key handling of the capture and dialog components; a state that a handler saw when it was rendered is an arbitrary parameter.
- Fields of records that no modelled transition reads or writes, and `bucketRecording`.
- Purging ledgers and deleting users (cascades) outside the access service; the rows here are never deleted.
- The branch that handles a lost race on the unique index (src/server/access/service.ts:416-433): the transaction holds the write lock from its start, and `InsertRespectsUniqueIndex` shows that the insert cannot clash.
- The audit event's wording and metadata in the ledger; an event names its assignment and revision.
- What Node does with a reply after the connection was ended: here it is not sent, and the error it raises is not modelled.
- `parseMessage` (e2e/support/fake-smtp.ts:23-36): a captured message keeps the raw text it would be given.
- Number printing in exports: any non-empty text of digits, sign, point and exponent letters.
- Strings with unpaired surrogates: a character here is a Unicode scalar value.
- Track times are real numbers, so rounding of floating-point seconds is not modelled.
- Text, Markdown, JSON and docx exports, and the caption files around the timestamps.
