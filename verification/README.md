# Verified model of the SAM 3D demo server and converters

This project models, in Dafny 4.11, the parts of the repository whose correctness
is not visible in any one function: protocols between concurrent parties, file and
wire formats that several programs share, the skeleton algebra behind the animated
export, and the numerical tolerance rules. `dafny verify dfyconfig.toml` checks it.

## What is modelled

**Capture sessions** (`Capture*.dfy`). Frame handlers, the queue consumer, the upload
token, the one-slot frame channel, the job queue and the track objects form a labelled
transition system (`CaptureModel`). An event is one critical section under the
application lock or one channel operation; whether a file operation succeeds, when a
context is cancelled and how the session table is iterated are parameters of events.
One inductive invariant (`CaptureInvariant`) is kept by every event (`CaptureSteps`).
From it follow, over all runs, the spacing of committed timestamps, the isolation and
closure of takes (`CaptureSafety`), the origin of every sample of a take
(`CaptureTakes`), the accounts, the progress and the replies of
handlers (`CaptureProgress`, `CaptureReplies`, `CaptureAnswer`), what failed saves and
deletions do to takes and sessions (`CaptureLimits`, `CaptureRepeat`,
`CaptureStranded`), and the agreement of samples and files (`CaptureDamage`), on which
exports depend (`CaptureExport`). `CaptureGate` says in numbers which frames get in,
`CaptureRecording` which of them are filed, frame by frame and for whole recordings, and
`CaptureRoutes` what creating, finishing, stopping and deleting leave. `CaptureDisk` adds the track directories and track
files to a run, and `CaptureRestart` the start that reads them back. `CaptureServer`
holds the same critical sections as methods of a class that update fields in place,
track files included, each proved to be its event.

**Skeletons** (`Quaternions`, `Skeleton*`, `Glb*`). Quaternion laws over the reals; the
conversion of global joint states into a hierarchy and its inverse, the composition
down any topology the server accepts; the sign fixing in place; pose files; and the GLB
export with an independent reader of its container, accessors and node tree.
`GlbViewer` says where a viewer of the exported bytes sees every point, in the numbers of
the frames. The square
root is a function with the defining property of a square root; rounding to single
precision is an arbitrary function, with its bytes.

**Resident worker** (`Worker*`). Server, child process, pipes and pipe readers as one
transition system with crashes, cancellation and restarts, and the framed requests byte
by byte. `WorkerRestart` follows the child over several calls.

**Result files** (`Result*`). The C writer and both parsers of the format, for the
twenty fields as the server and the script each list them.

**GGUF archives** (`Gguf*`). The header writer, the streaming loops of the converters,
their readback, and a reader written from the GGUF specification.

**Parity and calibration** (`Parity`, `ParityRules`, `Calibration*`). The chunked
comparison against whole-array definitions, and the four calibrators, with their limits
in plain numbers.

**Jobs** (`Job*`). Admission, queue, consumer, cancellation, the storage reservation, and
the restart from the job files. A submission is three events: its directory is made, then
filled, then its job file is written or the directory removed. `JobRuns` follows a job
through the queue. `Startup` puts the two
restarts together.

**DevTools client** (`WebSocket*`). Frames, masking, fragments and pings of RFC 6455, and
the calls made over them.

`Bytes` and `Cursor` hold machine words and their reading; `Wrappers`, `Reals` and `Sets`
stock definitions.

## Where the code does less than one would expect

- A take whose save fails keeps the sample, but the session clock does not move
  (demo/recording.go:62-67), so the same frame can be sent again and stand twice in the
  take. `SaveDecidesSpacing` shows that a failed save is the exact cause, `DirtyCause`
  which events are such saves, `RepeatedSample` gives a sequence of events that does it,
  `CleanTakeSpaced` the property without failures. No selection with both samples can be
  exported (`EqualRefused`), while without failures times never refuse an export
  (`CleanExport`).
- A stop whose save fails leaves the take attached but no longer recording, and then it
  can be deleted; `StrandedCause` shows that such a deletion is the only way to it. From
  then on its session can never be finished, stopped or expired (`FinishPossible`,
  `StopThenDeleteStrands`, `StrandedForGood`), and whenever it is idle for a minute no
  session can be created (`StrandedBlocksCreate`). `CreatePossible` says exactly when one
  can.
- A removal that fails half way can lose the pose of a sample of a track that stays in
  the table (`LostPose`). `SampleFileAgreement` shows over all runs that samples and pose
  files disagree exactly after such a loss, or if they already did when the track was
  loaded.
- A directory without its job file makes every start of the server fail
  (demo/main.go:643). A submission leaves one if its job file cannot be saved and its
  directory then not removed (`JobServer.OrphanCause`, `RestartFails`), but also if the
  server just stops between the two, at demo/main.go:257-299 or
  demo/object_inference.go:145-187 (`StoppedInside`): main waits for the consumer, not for
  handlers. `JobServer.RestartPossible` says exactly when the jobs load.
- The same holds of track directories (demo/tracking.go:107-110), which a creation, the
  start of a take or a deletion can leave without a track file
  (`CaptureDisk.TracklessStep`, `TracklessHistory`). A failed deletion leaves the track in
  the table, so that its next save or deletion mends it; nothing mends the others
  (`AbandonedForGood`).
  `CaptureRestart.RestartPossible` says exactly when the tracks load, and
  `Startup.StartPossible` puts both conditions together.
- The script's parser accepts result files in which a face names a vertex that does not
  exist; the server's parser rejects exactly those (`ScriptAccepts`, `FaceOutside`).
- The GGUF header writer accepts metadata that declares an alignment other than 32 and
  aligns to 32 all the same. `AlignmentDecides` says exactly when a reader still finds
  the data; the converters themselves declare 32 (`Declared`).
- The DevTools client counts a ping's payload against the limit for the message it
  interrupts. `FragmentsRead` says exactly which messages are read, and `PingBreaks` gives
  a stream that fails only because of its ping.

## Model

| member | source | states |
|---|---|---|
| CaptureInvariant.InitInv | demo/tracking.go:96-126 | the protocol invariant holds of a server that has loaded its saved tracks and started nothing yet |
| CaptureAdmission.AdmitKeeps | demo/tracking.go:300-356 | admission of a frame, or its refusal, keeps the invariant: the new stamp is the last of all in flight, the entry and its cancel function belong to this handler, the take it names is sound |
| CaptureAdmission.CleanupKeeps | demo/tracking.go:357-363 | when a handler closes its entry there is one to close, and the counters, cancel functions and busy flag stay exact |
| CaptureGate.VideoGate | demo/tracking.go:300-356 | a frame of a video that records is admitted at any clock if and only if it is within a day, the consumer runs, no job waits, its settings are valid, nothing of the video is in flight, fewer than 1800 frames are filed, and it comes 1/Hz - 0.001 after the last one committed |
| CaptureGate.LiveGate | demo/tracking.go:300-356 | a frame of a live session is admitted if and only if the same general conditions hold, at most one is in flight, the last admission was 1/Hz - 0.005 ago unless the session is new, and its timestamp keeps 1/Hz - 0.001 to the last submitted or committed one |
| CaptureGate.TwoInFlight | demo/tracking.go:311-319 | with one frame in flight a live frame that comes a full interval later is admitted as the second; a third never is |
| CaptureGate.NoGate | demo/tracking.go:300-305 | a frame for a take, or for a track that is not in the table, is refused, and nothing changes |
| CaptureGate.TakeChosen | demo/tracking.go:342-345 | the take that an admitted frame joins is the one its session records, unless the frame is stamped before its start |
| CaptureGate.DecisionMade | demo/tracking.go:282-356 | whenever the token is free a new frame gets its decision |
| CaptureFront.SendMoves | demo/tracking.go:386-396 | handing a frame to the channel with the token held keeps requests in admission order |
| CaptureStore.FinishKeeps | demo/recording.go:29-40 | ending a take keeps every take in the recording phase attached to exactly one live recording session, also when the save fails |
| CaptureCommit.OfflineAdvances | demo/tracking.go:498-531 | an offline commit that files its sample moves the session clock to the new stamp and no other; one that does not changes no track |
| CaptureCommit.LiveAdvances | demo/tracking.go:524-531 | a live commit moves the session clock to the new stamp and no other if its take, if any, was appended to without an error, and no clock otherwise |
| CaptureRecording.VideoJoins | demo/tracking.go:489-535 | a frame of a video is filed if and only if it is not cancelled, the video records and every file is written, faces and preview with the first frame only; it is answered if the track file is saved as well, and otherwise refused with no track changed |
| CaptureRecording.LivePasses | demo/tracking.go:491-535 | a live frame outside of a take only moves its session on, unless it was cancelled or the session has ended |
| CaptureRecording.TakeJoins | demo/recording.go:41-68 | a live frame joins its take if and only if there is space, the first frame brings a preview, and the pose is stored; it gets its time since the take's start, the 1800th ends the take, a full disk interrupts it, and if the take's file is not saved the frame is refused and the session does not move on |
| CaptureRecording.VideoRecorded | demo/tracking.go:278-540 | any sequence of at most 1800 frames at the video's pace, sent one after the other, is filed completely, in order, with its times and poses, at whatever clock |
| CaptureRecording.TakeRecorded | demo/recording.go:41-68 | any sequence of live frames at the session's pace that fits into the take is filed in it completely, in order, with the times since its start |
| CaptureTracks.CreateKeeps | demo/tracking.go:214-277 | creating a track, with the sweep of abandoned sessions before it, keeps the invariant; at most four live sessions remain |
| CaptureTracks.FinishTrackKeeps | demo/tracking.go:142-170 | finishing a session with frames in flight keeps the invariant |
| CaptureTracks.StartKeeps | demo/recording.go:81-122 | starting a take keeps the invariant |
| CaptureTracks.StopKeeps | demo/recording.go:124-138 | stopping a take keeps the invariant, whether or not its save succeeds |
| CaptureTracks.DeleteKeeps | demo/recording.go:161-179 | deleting a track keeps the invariant, also when the removal fails half way |
| CaptureRoutes.SessionCreated | demo/tracking.go:214-277 | a session is created if and only if its rate is between 1 and 30, every take of an idle one can be saved, fewer than four live sessions stay, there is a place for a video, and its files can be made; then exactly the sessions idle for a minute are gone, their takes interrupted, and it is there, empty, at its rate |
| CaptureRoutes.SessionFinished | demo/tracking.go:142-170 | finishing a session completes its take first; if that cannot be saved the session goes on, otherwise it is complete, a live one leaves the table, and the contexts of exactly its own frames end |
| CaptureRoutes.TakeStopped | demo/recording.go:124-138 | stopping completes the take, and detaches it if its file can be written; without a take nothing changes |
| CaptureRoutes.TrackDeleted | demo/recording.go:161-179 | a saved track is deleted if and only if it neither records nor has frames on their way; then its directory and exactly its poses go, or if the removal fails only the lost ones |
| CaptureSteps.CommitKeeps | demo/tracking.go:489-540 | the whole commit of a frame under the lock keeps the invariant, for every cancellation and file outcome |
| CaptureSteps.StepKeeps | demo/tracking.go:278-540 | every event of every handler, of the consumer and of the clock keeps the invariant: one token holder, exact in-flight accounts, requests in admission order, spaced stamps, attached takes, samples that agree with files |
| CaptureRuns.RunInv | demo/tracking.go:278-540 | the invariant holds in every state of every run |
| CaptureRuns.EventAdds | demo/tracking.go:489-535 | no event removes or changes a sample, and only the commit of a frame adds one, at most one to a track |
| CaptureSafety.ClockStep | demo/tracking.go:324-334 | one event leaves a session clock alone or moves it forward by at least the sampling gap of 1/Hz - 0.001, and exactly when it commits a frame |
| CaptureSafety.CommittedSpaced | demo/tracking.go:324-334 | over every interleaving, any two timestamps committed to one session are at least 1/Hz - 0.001 apart, in commit order |
| CaptureSafety.TakeGrowth | demo/tracking.go:524-529 | the only way a take gains a sample: the commit of a request that names it, while it records and is its session's take, stamped at or after its start |
| CaptureSafety.AdmissionOf | demo/tracking.go:340-344 | every request a handler carries stems from one admission, with the take that was chosen there |
| CaptureSafety.TakeIsolation | demo/recording.go:106-121 | a take gains only frames admitted while it was its session's recording, so after it was created, stamped at or after its start, and committed while it records; the commit takes the very request that was admitted |
| CaptureTakes.TakeStarted | demo/recording.go:81-122 | a take is started if and only if its time is within a day, the session is live, records and has none yet, and there is room and file access; then it is empty, counts from the time asked for at the session's rate, and is what the session records |
| CaptureTakes.StartOf | demo/recording.go:106-121 | over every run a take goes back to one start request, whose time is its start for good |
| CaptureTakes.ArrivalOf | demo/tracking.go:295-300 | over every run the session and the timestamp a handler carries are those its frame arrived with |
| CaptureTakes.SampleStems | demo/recording.go:57-62 | over every run each sample of a take is the timestamp of a frame that arrived for its session, minus the time its start was asked for, and that frame was stamped at or after that time, admitted after the start, and committed |
| CaptureSafety.ClosedForGood | demo/recording.go:161-179 | a track that left the recording phase never records again nor gains a sample, and nothing is ever written for a deleted one, even with frames in flight |
| CaptureProgress.TokenHeldOnce | demo/tracking.go:282-293 | the upload token is held by exactly one party, or free: handlers that have not handed over, or another user of it |
| CaptureProgress.InflightCounted | demo/tracking.go:346-363 | inflight, the cancel functions and the handlers between admission and cleanup agree; busy means inflight is positive; at most one offline, two live, none for a take |
| CaptureProgress.AnsweredOnce | demo/tracking.go:433-440 | an enqueued request is in exactly one of the channel, the consumer and its reply channel until its reply is taken, and the consumer never blocks on the reply |
| CaptureProgress.NeverStuck | demo/tracking.go:385-419 | in every reachable state each handler's next step, or that of the consumer it waits for, is enabled |
| CaptureProgress.HandlerEnds | demo/tracking.go:385-419 | from every reachable state each handler can end within eleven events |
| CaptureProgress.EveryHandlerEnds | demo/main.go:403-428 | the same along every run of the server, in which the consumer, once live, stays live |
| CaptureProgress.ConsumerLive | demo/main.go:403-411 | once the consumer has announced itself it stays live, the shutdown exit aside |
| CaptureReplies.AnsweredAsEnqueued | demo/tracking.go:386-440 | over the life of a handler its request is enqueued at most once and never answered more often; a handler that has ended was answered exactly as often as it was enqueued |
| CaptureReplies.OneReply | demo/tracking.go:386-440 | between the enqueue of a request and the end of its handler exactly one answer names it, and none before |
| CaptureLimits.SaveDecidesSpacing | demo/recording.go:62-67 | after a commit that extended a take, the same stamp can be submitted again if and only if saving the take failed |
| CaptureLimits.CleanTakeSpaced | demo/recording.go:41-68 | the samples of a take none of whose saves failed are spaced by the sampling gap in every reachable state |
| CaptureLimits.DirtyCause | demo/recording.go:62-67 | a take comes to hold an unsaved sample exactly by a commit that files a sample and whose save fails |
| CaptureRepeat.FrameAlone | demo/tracking.go:278-418 | an admissible frame on a quiet server runs from its arrival to its cleanup in nine events, and all that is left of it is its commit and its session's admission record |
| CaptureRepeat.RepeatedSample | demo/recording.go:62-67 | a run from an empty server in which a failed save lets the same frame in again, so that it stands twice in the take |
| CaptureExport.EqualRefused | demo/recording.go:257-280 | a selection that holds two equal samples is never exported, whatever the frames and however numbers are rounded |
| CaptureExport.RepeatedRefused | demo/recording.go:257-280 | the run that files a sample twice leaves a take of which no selection with these samples can be exported |
| CaptureExport.CleanExport | demo/recording.go:231-284 | in every reachable state, for an offline track or a take with no failed save and any interval, the export succeeds if and only if something is selected and the poses, the movement and the topology are valid: under a rounding that keeps apart times a sampling gap apart, its times never refuse it |
| CaptureExport.NearestKeepsApart | demo/skeleton.go:180-183 | rounding to the nearest single-precision number keeps apart two times within the trim interval that are a sampling gap apart |
| CaptureAnswer.CommitAnswers | demo/tracking.go:489-540 | if every file operation succeeds, a commit is answered if and only if the frame was not cancelled and its session still records |
| CaptureAnswer.AnswerReached | demo/tracking.go:386-418 | from every reachable state a frame in flight that is not cancelled, of a session that records, can be brought to a successful answer within ten events |
| CaptureStranded.FinishPossible | demo/recording.go:29-40 | a session's take can be ended if and only if its directory still exists |
| CaptureStranded.StopThenDeleteStrands | demo/recording.go:124-179 | a stop whose save fails, then a deletion of the take, leaves the session pointing at a take that is gone |
| CaptureStranded.StrandedCause | demo/recording.go:161-179 | an event strands a session if and only if it deletes the take that the session still holds |
| CaptureStranded.StrandedHistory | demo/recording.go:161-179 | along every run a session is stranded if and only if its take was deleted while it held it |
| CaptureStranded.StrandedForGood | demo/tracking.go:142-170 | a session stranded once stays stranded and in the table at every later state of the run, and no finish ever ends it |
| CaptureStranded.SweepPasses | demo/tracking.go:231-245 | the sweep gets through if and only if the take of every expired session can be saved |
| CaptureStranded.CreateCondition | demo/tracking.go:214-277 | a session or video is created if and only if mode and rate are allowed, the sweep gets through, there is room for it afterwards, and its own files can be made |
| CaptureStranded.CreatePossible | demo/tracking.go:214-277 | some file outcome creates it if and only if mode and rate are allowed, there is room once the expired sessions are gone, and none of these is stranded |
| CaptureStranded.StrandedBlocksCreate | demo/tracking.go:231-245 | at every later state of the run at which a session stranded before is idle for a minute, no session or video can be created |
| CaptureDamage.ExportTimes | demo/recording.go:257-270 | the export loop succeeds exactly if every selected sample has its own pose file with the same time, and returns the selected times |
| CaptureDamage.RemovalAgreement | demo/recording.go:173-176 | after a failed removal a track that agreed with its pose files still agrees if and only if no pose of a sample is among the lost files |
| CaptureDamage.LostPose | demo/recording.go:173-176 | a run of one event that breaks the agreement: a removal that fails after the only pose is gone |
| CaptureDamage.SampleFileAgreement | demo/recording.go:16-26 | in every reachable state a saved track has Count equal to the number of samples, at most 1800; and every sample has its pose file if and only if that was so when the track was loaded and no failed removal since has lost one |
| CaptureDamage.DamageCause | demo/recording.go:173-176 | an event marks a track as damaged if and only if it is a failed removal that loses the pose of a sample |
| CaptureDisk.TracklessStep | demo/tracking.go:264-274 | an event leaves a directory without a track file if and only if it makes it and can neither save nor remove it, or is a deletion that fails after the file is gone; one that lacks its file gets it back, or goes, exactly with the next save or deletion of its track |
| CaptureDisk.TracklessHistory | demo/recording.go:111-119 | along every run a directory lacks its track file if and only if such an event left it so and nothing has mended it since |
| CaptureDisk.FilesFromPast | demo/tracking.go:90-95 | along every run each track file holds its track as it was in some earlier state |
| CaptureDisk.AbandonedForGood | demo/tracking.go:264-274 | a directory whose new track could neither be saved nor its directory removed lacks its track file at every later state of the run |
| CaptureRestart.LoadTracks | demo/tracking.go:96-126 | loading succeeds exactly if every directory has an acceptable track file and interrupted tracks can be saved; then each track is that of its file, interrupted if it was recording, with no take and a new clock, and the files are changed in the phase alone |
| CaptureRestart.RestartPossible | demo/tracking.go:96-126 | stopped at any point of a run, the tracks load again if and only if the stop was not between making a directory and saving its track nor between removing a track file and its directory, no directory was left without its file, and the files of recording tracks can be written |
| CaptureRestart.RestartFails | demo/tracking.go:105-112 | after such an event no restart at any later point of the run loads the tracks, whatever it can write |
| CaptureRestart.RestartBegins | demo/tracking.go:96-126 | whatever saves have failed, the loaded tracks make an initial state over an up-to-date disk; their samples are the first of those that were in memory, and a track that agreed with its pose files still agrees |
| CaptureServer.Server.constructor | demo/main.go:631-633 | a server over any tracks that a restart has loaded is an initial state, over an up-to-date disk |
| CaptureServer.Server.SaveTrack | demo/tracking.go:90-95 | writes the track file of a saved track, and nothing for a live session |
| CaptureServer.Server.AppendRecording | demo/recording.go:41-68 | updates take, session and track files in place exactly as the transition does |
| CaptureServer.Server.FinishRecording | demo/recording.go:29-40 | ends a session's take in place exactly as the transition does, its file included |
| CaptureServer.Server.CreateTrack | demo/tracking.go:214-277 | one create event, in place, keeping the invariant; directories and track files change as the event says |
| CaptureServer.Server.Sweep | demo/tracking.go:228-245 | the loop over the session table, which stops at the first failed save and has then written exactly the takes ended before |
| CaptureServer.Server.CountTracks | demo/tracking.go:229-245 | counts the live and the saved tracks of the table |
| CaptureServer.Server.FinishSession | demo/tracking.go:142-170 | one finish event, in place, keeping the invariant, with the track files it writes |
| CaptureServer.Server.RecordTake | demo/recording.go:81-122 | one start of a take, in place, keeping the invariant, with the directory and the file it makes or leaves |
| CaptureServer.Server.StopTake | demo/recording.go:124-138 | one stop of a take, in place, keeping the invariant, with the track file it writes |
| CaptureServer.Server.RenameTrack | demo/recording.go:140-160 | a renaming writes the track file of a saved track as it is now, and changes nothing else |
| CaptureServer.Server.DeleteTrack | demo/recording.go:161-179 | one deletion, in place, keeping the invariant, with what it removes of directory and file |
| CaptureServer.Server.TakeToken | demo/tracking.go:282-293 | takes the token exactly if it is free, and otherwise changes nothing |
| CaptureServer.Server.AdmitFrame | demo/tracking.go:300-356 | one admission or refusal, in place, keeping the invariant |
| CaptureServer.Server.EnqueueFrame | demo/tracking.go:389-396 | the enqueue: into the free slot, or refused when it is taken |
| CaptureServer.Server.HandOver | demo/tracking.go:390-392 | the return of the token after the enqueue |
| CaptureServer.Server.TakeReply | demo/tracking.go:397-418 | receives the reply that is there |
| CaptureServer.Server.CleanupFrame | demo/tracking.go:357-363 | the deferred cleanup of a handler |
| CaptureServer.Server.DequeueFrame | demo/main.go:427-428 | the consumer takes the frame out of the channel |
| CaptureServer.Server.CommitFrame | demo/tracking.go:489-540 | the commit under the lock, statement by statement, for every file outcome, with the track files it writes |
| CaptureServer.Server.Respond | demo/tracking.go:439-440 | the reply goes into the reply channel, which is free |
| Quaternions.QmulAssociative | demo/skeleton.go:114-116 | the quaternion product is associative |
| Quaternions.Norm2Multiplies | demo/skeleton.go:114-116 | the squared norm of a product is the product of the squared norms |
| Quaternions.RotatedComposes | demo/skeleton.go:125-128 | rotating by a product is rotating twice |
| Quaternions.RotatedInverse | demo/skeleton.go:117-128 | a rotation undoes its inverse, up to the squared norm |
| Quaternions.RotatedNegated | demo/skeleton.go:125-128 | a quaternion and its negative rotate every vector alike |
| GlbViewer.RotatedTurns | demo/skeleton.go:125-128 | rotating by a unit quaternion is multiplying by its rotation matrix, written out in its four numbers |
| Quaternions.NormalizedUnit | demo/skeleton.go:118-124 | every quaternion of positive norm is normalized to norm one |
| Skeleton.ValidateSkeleton | demo/skeleton.go:53-80 | accepts exactly frames of the right sizes, nonnegative time, camera within 100, and joints of near-unit rotation, bounded scale and position |
| Skeleton.FrameNumbers | demo/skeleton.go:53-80 | a valid frame in numbers: 1016 joint numbers, eight a joint, positions within 10000, squared norms from 0.99 to 1.01, scales from 0.00001 to 100000, three camera numbers within 100 |
| Skeleton.SkeletonTopology | demo/skeleton.go:30-38 | accepts exactly 127 names with 127 parents, the root first and each other parent before its child |
| Skeleton.UnitRotation | demo/skeleton.go:67-72 | a valid joint's rotation is never zero, so that it can be normalized |
| Skeleton.LocalSkeleton | demo/skeleton.go:136-159 | the loop yields the parent-relative state of every joint; its second normalization divides by one |
| SkeletonHierarchy.RelativeComposes | demo/skeleton.go:143-155 | a parent-relative state composed with its parent gives the child back exactly |
| SkeletonHierarchy.WorldIsGlobal | demo/skeleton.go:136-159 | composing the local states down any accepted topology reproduces every joint's position in metres, its normalized rotation and its scale, exactly |
| SkeletonHierarchy.ChainIsGlobal | demo/skeleton.go:136-159 | the chain of nodes above a joint takes every point of its space where the joint's global state takes it, whichever sign each rotation carries |
| SkeletonExport.FlipRow | demo/skeleton.go:194-206 | flips in place exactly the rotations that point away from the frame before, and touches no other row |
| SkeletonExport.RootOffset | demo/skeleton.go:186-193 | the root offset of a frame for either movement |
| SkeletonExport.AlignTracks | demo/skeleton.go:163-207 | succeeds exactly for 1 to 1800 valid frames, a known movement, an accepted topology and key times that increase in single precision; then all local states, times and offsets are those of the frames |
| SkeletonExport.ExportNumbers | demo/skeleton.go:163-185 | what can be exported, in numbers: 1 to 1800 valid frames whose times since the first grow in single precision, one of two movements, 127 joints each after its parent |
| SkeletonExport.SmoothFlows | demo/skeleton.go:194-206 | consecutive rotations of a joint have a nonnegative dot product |
| SkeletonExport.SmoothSame | demo/skeleton.go:194-206 | sign fixing changes a node at most by the sign of its rotation |
| SkeletonExport.FramePlaced | demo/skeleton.go:194-207 | in every frame the exported joint rows, composed along the parents, take every point where the frame's own global state does |
| SkeletonFile.SkeletonRead | demo/skeleton.go:82-109 | a frame that can be written is read back unchanged, from a file of the fixed size |
| SkeletonFile.SkeletonWritten | demo/skeleton.go:93-109 | every file that is accepted is exactly the writing of its frame |
| SkeletonFile.SkeletonLaid | demo/skeleton.go:82-92 | the file byte by byte: the tag, the time, the 1016 joint words from byte 16 on and the camera from byte 4080 on, 4092 bytes in all |
| GlbBuffer.Writer.Add | demo/skeleton.go:227-239 | appends the numbers to the buffer with a view and an accessor that describe exactly them |
| GlbBuffer.Writer.AddChannel | demo/skeleton.go:244-249 | adds a sampler from the key times to the new array, and a channel that uses it |
| GlbBuffer.ElementRead | demo/skeleton.go:227-239 | a glTF reader finds element i of any accessor to be exactly the numbers that were appended |
| GlbBuffer.ViewsTile | demo/skeleton.go:227-232 | buffer views tile the binary chunk without gaps, at multiples of four |
| GlbContainer.Pad | demo/skeleton.go:284-286 | the JSON text is only extended by spaces, to a multiple of four |
| GlbContainer.WriteContainer | demo/skeleton.go:287-298 | writes header and chunks with their lengths |
| GlbContainer.ContainerRead | demo/skeleton.go:287-298 | a reader that checks the magic, the version, the declared total length and both chunk lengths gets both chunks back, for every size that fits 32 bits |
| GlbContainer.ContainerLaid | demo/skeleton.go:287-298 | the container byte by byte: glTF, version 2, the total length, then length, kind and bytes of the text chunk and of the binary chunk, if there is one |
| GlbNodes.BuildNodes | demo/skeleton.go:208-222 | node 0 is the root, node j + 1 is joint j with its children in order |
| GlbNodes.OneParent | demo/skeleton.go:212-221 | every node but the root is listed once, by exactly one node that comes before it |
| GlbNodes.Reached | demo/skeleton.go:208-222 | every node is reached from the root through children lists: the 128 nodes form one tree |
| GlbNodes.NodesNamed | demo/skeleton.go:208-222 | the root is called SAM3D, and the node of each joint bears the joint's name, in the order of the joints |
| GlbScene.PathIsChain | demo/skeleton.go:208-222 | down any path of children lists from the root, a joint's node acts as the chain of joints above it does, moved by the root's translation |
| GlbScene.ExportedPose | demo/skeleton.go:181-222 | in every frame the exported scene, composed from its root node down the children lists, takes every point of every joint where the frame's own global state does, moved by the root offset |
| GlbScene.PelvisHeld | demo/skeleton.go:188-193 | an animation exported in place holds joint 1 where the first frame put it, in every frame, as the scene composes it |
| GlbViewer.GlobalPoint | demo/skeleton.go:136-159 | a joint's global state in the frame's own eight numbers: a point is scaled, turned by the normalized rotation and moved by the position in metres |
| GlbViewer.StillPlaced | demo/skeleton.go:181-222 | the nodes of a single-frame export put every point of every joint where the frame's numbers do, moved by (c0, -c1, -c2) of its camera for movement camera, and not at all in place |
| GlbViewer.KeyPlaced | demo/skeleton.go:181-222 | at every key of an animation the channels put every point of every joint where that frame's numbers do, moved by (c0, -c1, -c2) of that frame's camera, or in place by what holds joint 1 |
| GlbViewer.FrameShown | demo/skeleton.go:223-286 | a viewer that reads the numbers of every channel at key i from the bytes of the chunk gets nodes that put every point there |
| GlbViewer.TimeShown | demo/skeleton.go:223-240 | and the time it reads for key i is that frame's time since the first, in single precision |
| SkeletonGlb.Animate | demo/skeleton.go:240-274 | the animation holds the key times, the root channel and three channels a joint, each described and wired to its array |
| SkeletonGlb.TargetsDistinct | demo/skeleton.go:256-274 | the 382 channels and the animated node properties correspond one to one |
| SkeletonGlb.KeyRead | demo/skeleton.go:240-274 | what a reader finds at key i of any channel is the time of frame i and the state of its node in frame i, in single precision |
| SkeletonGlb.TimesBounded | demo/skeleton.go:233-236 | the declared minimum and maximum of the key times are the true ones |
| SkeletonGlb.AnimationLength | demo/skeleton.go:227-276 | the binary chunk of an animation takes 5096 bytes a frame |
| SkeletonGlb.Export | demo/skeleton.go:163-299 | the export succeeds exactly for exportable input, and its bytes are a container of a document and a binary chunk that hold the scene, read back whenever the document stays below about 4 GiB by itself: the binary chunk takes at most 9172800 bytes |
| WorkerFrames.WorkerFrame | demo/worker.go:147-157 | builds the frame of exactly two valid paths and refuses all others |
| WorkerFrames.PathRead | apps/body_infer.c:78-85 | the worker reads a framed path back, whatever follows it |
| WorkerFrames.PathAwaited | apps/body_infer.c:78-81 | with only a part of a framed path there, the worker waits |
| WorkerFrames.PathWritten | apps/body_infer.c:81-85 | whatever the worker accepts as a path is one the server could have framed |
| WorkerFrames.FrameLaid | demo/worker.go:147-157 | the request byte by byte: each path behind the four digits of its length, the lowest first |
| WorkerLockstep.StepKeeps | demo/worker.go:164-276 | every step of server, child and pipe readers, crashes and cancellations included, keeps the lockstep invariant |
| WorkerLockstep.IdleLockstep | demo/worker.go:170-188 | between calls, requests sent, DONE lines emitted and DONE lines heard are equally many, and no byte or protocol line is under way |
| WorkerLockstep.SuccessMeansResult | demo/worker.go:271-275 | a call returns without an error only after its own result file was written whole and closed, from its own input, during that call |
| WorkerLockstep.FailureStops | demo/worker.go:183-187 | every failure after the deferred stop leaves no child, so no stale DONE can answer a later request; a call refused at the door leaves a calm child |
| WorkerLockstep.RunAnswers | apps/body_infer.c:114-121 | over every run, each success answers the request of that very call |
| WorkerProgress.NeverStuck | demo/worker.go:212-273 | inside a call some step other than a cancellation can always be taken, whatever the child has done |
| WorkerProgress.CallEnds | demo/worker.go:164-276 | every call can return within a bounded number of steps without being cancelled; with a live child that has not misreported it can return with success, with this call's own result file |
| WorkerRestart.EnterReplaces | demo/worker.go:170-192 | with no child, or one that is known to have exited, a call starts a new one, whose counters are zero and whose pipes are empty, and waits for it; a failing start or log ends the call and leaves none |
| WorkerRestart.EnterReuses | demo/worker.go:170-257 | a child not known to have exited is sent the two paths of the call, if they are valid |
| WorkerRestart.FilesNamed | demo/worker.go:256 | the input of a call is image.input in its directory, the result result.bin |
| WorkerRestart.CallSucceeds | demo/worker.go:164-276 | from every reachable state between calls, with the child replaced, missing or alive, a call for any directory with valid paths can succeed with its own result file |
| WorkerRestart.FailureHeals | demo/worker.go:183-187 | after every failed call the next one can succeed |
| WorkerRestart.LineDecides | demo/worker.go:215-248 | READY starts the sending, DONE ends the call with success, diagnostics and, while the result is awaited, valid timings are passed over; any other line at any time fails the call and ends the child |
| WorkerRestart.CallBreaks | demo/worker.go:215-275 | an exit of the child, a cancellation and a failing write do the same |
| WorkerConsumer.Consumer.EnterCall | demo/worker.go:164-192 | entering a call in place: a reaped child is replaced, a missing one started, a failing start or log ends the call |
| WorkerConsumer.Consumer.WaitTurn | demo/worker.go:212-248 | one turn of the wait loop: cancellation, exit, diagnostics, timing, the expected line or an unexpected one |
| WorkerConsumer.Consumer.SendRequest | demo/worker.go:255-262 | hands the frame to the writer, or fails on an invalid path |
| WorkerConsumer.Consumer.StopResident | demo/worker.go:118-145 | drops the child from the application, kills it, and takes off its events until its output is read to the end and it is reaped |
| WorkerConsumer.Recorder.Record | demo/worker.go:194-211 | the tail is always the last 4096 bytes of everything recorded, and the log a prefix of it that stops at its limit |
| ResultFormat.WriteTensor | apps/body_infer.c:61-67 | writes one tensor: name, type, rank, element count, dimensions, words |
| ResultFormat.WriteResult | apps/body_infer.c:59-69 | writes the header and every tensor in the given order |
| ResultRoundTrip.WrittenRead | demo/result.go:31-101 | reading gives back what was written, for every order of the tensors |
| ResultRoundTrip.ReadWritten | demo/result.go:31-101 | everything accepted is the writing of one complete set of tensors in some order |
| ResultRoundTrip.Accepted | demo/result.go:31-101 | accepted if and only if the bytes are such a writing |
| ResultRoundTrip.NoneMissing | demo/result.go:38-60 | no field can be missing: the count and the check for duplicates force all of them |
| ResultRoundTrip.FileLaid | apps/body_infer.c:59-69 | the file byte by byte: tag, count, and each tensor where the sizes before it end |
| ResultRoundTrip.LaxAccepts | scripts/check_body_api.py:32-53 | a reader that does not look at indices accepts whatever the strict reader accepts, with the same words |
| ResultRoundTrip.LaxAcceptsMore | scripts/check_body_api.py:48-50 | of what that reader accepts, the strict one accepts exactly the files whose indices are in range |
| ResultSchema.ServerWellFormed | demo/result.go:14-22 | the server's twenty fields have different names and sizes that fit |
| ResultSchema.SameFields | scripts/check_body_api.py:10-30 | the script's table and the server's table hold the same fields |
| ResultSchema.ScriptAccepts | scripts/check_body_api.py:32-53 | every file the server accepts the script accepts with the same words; of the script's files the server rejects exactly those with a face outside the mesh |
| ResultSchema.FaceOutside | scripts/check_body_api.py:32-53 | a complete file whose faces all name vertex n is accepted by the script for every n, and by the server if and only if n is a vertex of the mesh |
| ResultSize.AcceptedSize | demo/result.go:13-101 | every result file the server accepts has exactly 827364 bytes, in whatever order its twenty tensors stand |
| ResultSize.AcceptedKinds | demo/result.go:31-101 | in an accepted file faces alone are of type 2, with indices below 18439; every other tensor is of type 1 and finite |
| ResultParsers.ParseResult | demo/result.go:31-101 | the parser's loop accepts exactly what the strict reader accepts, and returns its words by name |
| ResultParsers.ParseRest | demo/result.go:61-95 | one tensor after its name: type, rank, count, each dimension in turn, words |
| ResultParsers.CompareDims | demo/result.go:64-71 | reads the dimensions one by one and multiplies them up |
| ResultParsers.ReadOutput | scripts/check_body_api.py:32-53 | the script's loop accepts exactly what the lax reader accepts, and returns its words by name |
| ResultParsers.CollectedAll | demo/result.go:45-95 | the returned table has every tensor under its name |
| GgufOrder.SortedAscends | scripts/convert_gguf.py:98-106 | sorting a dictionary's items gives strictly ascending names |
| GgufOrder.BelowMeans | scripts/convert_gguf.py:98-106 | one name comes before another if at the first place where they part it ends or has the smaller byte |
| GgufOrder.OrderIrrelevant | scripts/convert_gguf.py:98-106 | the sorted items do not depend on the order in which the dictionary was filled |
| Gguf.MetaSection | scripts/convert_gguf.py:98-104 | writes the metadata, or fails on an invalid key or value |
| Gguf.InfoSection | scripts/convert_gguf.py:105-116 | writes the descriptions with reversed axes and running offsets, or fails on an invalid name or shape |
| Gguf.EncodeHeader | scripts/convert_gguf.py:92-119 | succeeds exactly for encodable input, and returns the padded header and the size of the data |
| Gguf.EncodableNumbers | scripts/convert_gguf.py:84-119 | what can be written, in numbers: 1 to 4096 tensors and 1 to 128 entries, names of 1 to 63 letters, digits, underscores and dots, one to four nonempty axes and at most 2^31 elements, types 0 or 26, numbers below 2^32, keys and texts of 1 to 65536 bytes without a zero, a header of at most 4 MiB |
| GgufArchive.Convert | scripts/convert_gguf.py:135-183 | publishes exactly if input and schema agree and every value is valid; the final length check never fails |
| GgufArchive.Stream | scripts/convert_body_branch.py:47-51 | the write loop writes every tensor's values and padding in name order |
| GgufArchive.BodyLength | scripts/convert_mhr_gguf.py:66-79 | the data written has exactly the length that the header announced |
| GgufArchive.ReadBack | scripts/convert_body_branch.py:54-60 | the readback passes exactly the intended file |
| GgufRoundTrip.BlocksTile | scripts/convert_gguf.py:105-119 | offsets are multiples of 32, data and padding tile the body, and the file length is header plus body |
| GgufRoundTrip.OffsetBounded | scripts/convert_gguf.py:110-116 | no offset overflows its field |
| GgufRoundTrip.FixedLaid | scripts/convert_gguf.py:97 | the first bytes are GGUF, version 3, the number of tensors and the number of entries |
| GgufRoundTrip.MetaLaid | scripts/convert_gguf.py:98-104 | an entry byte by byte: key length, key, type code 4 and the number, or type code 8, length and text |
| GgufRoundTrip.InfoLaid | scripts/convert_gguf.py:105-117 | a description byte by byte: name length, name, rank, the axes with the last one first, type, offset |
| GgufRoundTrip.ArchiveRead | scripts/convert_gguf.py:92-119 | a reader of the format recovers the metadata and every tensor's name, axes in original order, type and data, if the declared alignment puts the data where the writer does |
| GgufRoundTrip.ConvertedRead | scripts/convert_gguf.py:153-172 | the same for whatever a conversion publishes |
| GgufAlignment.AlignmentDecides | scripts/convert_gguf.py:98-117 | whatever the tensors hold, a reader recovers them if and only if the declared alignment puts the data at the multiple of 32 where the writer does |
| GgufAlignment.Declared | scripts/convert_gguf.py:67-68 | metadata that declares an alignment of 32, or none, makes a reader use 32; another number makes it use that |
| GgufAlignment.ConvertedDelivers | scripts/convert_gguf.py:92-172 | under an alignment of 32, declared or not, a reader of whatever a conversion publishes gets all of the metadata and exactly the tensors of the schema, in the order of their names, each with its axes in the schema's order, the type asked for, or 0, and the very words of its input |
| GgufRoundTrip.OutputDetermined | scripts/convert_gguf.py:98-106 | two conversions whose dictionaries hold the same items publish the same bytes |
| GgufIndices.ValidateSparse | scripts/convert_mhr_gguf.py:20-26 | passes exactly sparse coordinates in bounds, sorted and without repetition |
| GgufIndices.SparseNumbers | scripts/convert_mhr_gguf.py:23-26 | sorted coordinates in numbers: rows below 3000, columns below 750, and positions 750 * row + column that grow |
| GgufIndices.ValidateSkeletonParents | scripts/convert_mhr_gguf.py:27-29 | passes exactly the topologies that the exporter accepts |
| Parity.FoldChunks | scripts/check_parity.py:77-91 | for any chunk size the fold gives the true maximum, the first index attaining it and the two Euclidean norms of the whole arrays |
| Parity.HypotFolds | scripts/check_parity.py:89-91 | folding norms with hypot gives the norm of the concatenation |
| Parity.CompareArray | scripts/check_parity.py:56-99 | the report is the verdict of the whole-array definitions, and a refusal carries the first obstacle in the order of the checks |
| Parity.VerdictUnique | scripts/check_parity.py:56-99 | that verdict, the reason of a refusal included, does not depend on the chunk size |
| Parity.PassMeans | scripts/check_parity.py:56-99 | a pass, element by element: same shape and type, not empty, numeric and finite; equal under an exact rule, and otherwise floating point with no element further off than the absolute limit and the norm of the differences within the relative one |
| Parity.NoMismatches | scripts/check_parity.py:72-74 | an exact comparison counts no mismatch if and only if the arrays are equal |
| ParityRules.ValidateRules | scripts/check_parity.py:29-53 | accepts exactly files of version 1 with a boundary that is not blank and a nonempty list of well-formed rules with different names, and returns that list |
| ParityRules.CompareFiles | scripts/check_parity.py:102-119 | succeeds exactly for a valid rules file whose names are the tensor sets; passes if and only if every tensor passes, and names the first that fails |
| Calibration.BackboneSound | scripts/calibrate_bf16_backbone.py:14-35 | the rule admits every control and stays between the floors and the ceilings, clipped or not |
| Calibration.ClipExtends | scripts/calibrate_bf16_backbone.py:24-34 | when each policy succeeds, exactly; clipping changes no rule that fits without it |
| Calibration.CalibrateBackbone | scripts/calibrate_bf16_backbone.py:45-62 | succeeds if and only if every tensor is a nonzero F32 signal and each control's errors, doubled unless clipping, stay below its caps; each rule then is the doubled largest error between floor and cap, and every control array passes it |
| CalibrationNumbers.BackboneNumbers | scripts/calibrate_bf16_backbone.py:14-35 | when a tensor is calibrated, element by element: float32, not zero everywhere, and twice each control's deviation, or with clipping the deviation, within a tenth of the peak or 0.0001 and within five percent in norm |
| CalibrationNumbers.BackboneLimit | scripts/calibrate_bf16_backbone.py:14-35 | its limits: twice the larger variation, at least 0.0001 and 0.00002, with clipping at most the caps |
| Calibration.DinoSound | scripts/calibrate_trained_dino.py:19-29 | the rule admits its control and respects both ceilings |
| Calibration.DinoExact | scripts/calibrate_trained_dino.py:19-29 | exactly when the activation and operation calibrations succeed, and that they agree where both do |
| Calibration.CalibrateDino | scripts/calibrate_trained_dino.py:59-75 | succeeds if and only if every tensor is F32 and four times its errors stay below its caps; each rule then is four times the error, between floor and cap, and the control array passes it |
| CalibrationNumbers.ActivationNumbers | scripts/calibrate_trained_dino.py:19-29 | the same for activations: four times the deviation within a ten-thousandth of the peak or 0.0001 and within a thousandth in norm |
| CalibrationNumbers.ActivationLimit | scripts/calibrate_trained_dino.py:19-29 | their limits: four times the deviation, at least 0.0001 and 0.00002 |
| Calibration.OperationSound | scripts/check_trained_operations.py:67-78 | an operation's rule admits its control and respects its ceilings |
| Calibration.OperationPasses | scripts/check_trained_operations.py:67-78 | the control arrays of an operation pass its rule |
| CalibrationNumbers.OperationNumbers | scripts/check_trained_operations.py:67-78 | an operation's rule in numbers: the ceiling is 0.01 for softmax outputs, and four times the relative error at most a thousandth; the absolute limit is cut off at the ceiling |
| Calibration.BodySound | scripts/calibrate_bf16_body.py:17-27 | the rule of a final field admits every control and respects the ceiling of its kind |
| Calibration.BodyExact | scripts/calibrate_bf16_body.py:17-27 | exactly when the calibration of a field succeeds |
| Calibration.CalibrateBody | scripts/calibrate_bf16_body.py:44-52 | succeeds if and only if both controls of every field, doubled, stay below the cap of its kind; each rule then is the doubled largest error between floor and cap, and every control array passes it |
| CalibrationNumbers.BodyNumbers | scripts/calibrate_bf16_body.py:17-27 | the same for final fields: twice the deviation within 0.01 for metric ones, two for pixels, a tenth of the peak or 0.0001 for others, and within five percent in norm |
| CalibrationNumbers.BodyLimit | scripts/calibrate_bf16_body.py:17-27 | their limits: twice the larger variation, at least 0.0001 and 0.00002 |
| JobSafety.StepKeeps | demo/main.go:403-476 | every event keeps the job invariant: distinct queued ids that exist, one running job that is current, states that fit the consumer |
| JobSafety.JobsMoveForward | demo/main.go:337-357 | a job goes from queued to running or cancelled, from running to a final state, and no further; none disappears |
| JobSafety.OneRunning | demo/main.go:436-454 | a job runs if and only if it is the current one, and a deletion then reaches it |
| JobSafety.ActiveBounded | demo/main.go:241-249 | no more jobs may still write than wait in the queue and one more, the job popped but not yet marked included |
| JobSafety.BeginWithinBudget | demo/object_inference.go:125-137 | an admission leaves what is stored and set aside within the budget, also while the running job writes during the measurement |
| JobSafety.RunWithinBudget | demo/main.go:241-249 | over every run, from the first admission on, what is stored and what is set aside for jobs that may still write stays within the budget |
| JobSafety.FinishedForGood | demo/main.go:429-474 | over every run a finished job never changes |
| JobServer.Server.constructor | demo/main.go:626-662 | a server over loaded, finished jobs is an initial state |
| JobServer.Server.BeginSubmit | demo/main.go:231-260 | the guards of a submission and the making of its directory; begun exactly if it is admissible and the directory can be made |
| JobServer.Server.FillDirectory | demo/main.go:268-287 | the input files grow the new directory, within its allowance |
| JobServer.Server.EndSubmit | demo/main.go:299-305 | the job file and the queue entry, or the removal of the directory |
| JobServer.Server.Submit | demo/main.go:231-306 | a submission that nobody interleaves with is its three events; accepted exactly if admissible and its directory and job file can be made |
| JobServer.Server.Delete | demo/main.go:337-357 | one deletion in place |
| JobServer.Server.TakeNext | demo/main.go:429 | the consumer takes the first identifier out of the queue |
| JobServer.Server.MarkNext | demo/main.go:430-443 | starts the job exactly if it is still queued |
| JobServer.Server.FinishJob | demo/main.go:450-474 | a job that produced a result is complete, one whose context was cancelled is cancelled, every other is failed, in memory and, if it can be written, in its job file; the consumer is free again |
| JobRuns.SubmissionEnds | demo/main.go:231-306 | a submission is accepted if and only if there is room in the history, fewer than two jobs wait, 160 MiB for it and for every other writer fit into the budget, and its directory and job file can be made; then it is the last of the queue, and otherwise no job is added |
| JobRuns.DeletionEnds | demo/main.go:337-357 | deleting a waiting job cancels it, deleting the running one asks it to stop, and no other job changes |
| JobRuns.TurnTaken | demo/main.go:429-443 | the consumer starts the job it took from the queue, unless that was cancelled: then nothing changes |
| JobRuns.JobCompletes | demo/main.go:429-474 | from every reachable state without a submission under way, a waiting job can run to its end, after those before it and within three events of the consumer for each |
| JobServer.LoadJobs | demo/main.go:639-661 | a restart succeeds exactly if every directory has a job file and interrupted jobs can be saved; then a queued or running job is failed and every other is as it was, in memory and on disk |
| JobServer.OrphanCause | demo/main.go:256-302 | an event leaves a directory for good without a job file if and only if it ends a submission that cannot save its job file and cannot remove the directory |
| JobServer.OrphanHistory | demo/main.go:256-302 | along every run the directories left without a job file are those of the start and those left since, and none of them ever goes away |
| JobServer.RestartFails | demo/main.go:639-661 | after such a submission no restart at any later point of the run loads, whatever it can write |
| JobServer.RestartPossible | demo/main.go:639-661 | stopped at any point of a run, the jobs load again if and only if no directory lacked a job file at the start, no submission has left one since, none is between making its directory and saving its job file, and unfinished jobs can be saved |
| JobServer.StoppedInside | demo/main.go:256-302 | a server stopped inside its first submission never loads its jobs again, although no file operation has failed |
| Startup.LoadApp | demo/main.go:626-662 | a start succeeds exactly if the tracks load and then the jobs |
| Startup.StartPossible | demo/main.go:626-662 | wherever the server was stopped, the next start succeeds if and only if the conditions of both loaders hold |
| WebSocketFrames.Send | scripts/devtools.py:37-40 | writes one masked frame, with the length form its size asks for |
| WebSocketFrames.MaskedTwice | scripts/devtools.py:40 | masking twice gives the payload back |
| WebSocketFrames.ClientFrameRead | scripts/devtools.py:37-40 | the browser reads the payload of every sent frame back, in all three length forms, whatever the mask and whatever follows |
| WebSocketFrames.ClientFrameLaid | scripts/devtools.py:37-40 | a frame byte by byte: the final bit with the opcode, the length in one of three forms with its highest digit first, the mask, and byte i of the payload, of which exactly the binary digits set in mask byte i mod 4 are turned over |
| WebSocketReceive.FragmentsRead | scripts/devtools.py:41-54 | a fragmented message is read if and only if each of its frames, pings included, fits beside the text before it; then the result is exactly the concatenation of the fragments, up to the end of the message, and otherwise the connection fails; every ping that fits is answered in order |
| WebSocketReceive.OverLimit | scripts/devtools.py:47 | a frame of any kind that does not fit beside the text held so far ends the connection |
| WebSocketReceive.ServerFrameLaid | scripts/devtools.py:44-48 | a frame of the browser byte by byte, as the client reads it |
| WebSocketReceive.FrameDecides | scripts/devtools.py:49-54 | what one frame that fits does, by its kind: 0 and 1 add to the text, and a final one ends the message, 8 ends the connection, 9 is answered, 10 passed over, any other kind fails |
| WebSocketReceive.MaskedRefused | scripts/devtools.py:47 | a masked frame of the browser ends the connection, whatever else it is |
| WebSocketReceive.TruncatedEnds | scripts/devtools.py:30-36 | while the stream ends inside a frame there is no message |
| WebSocketReceive.PingBreaks | scripts/devtools.py:47 | a stream whose text fits and whose ping would fit alone, but not beside the text, fails; without the ping it is read |
| WebSocketClient.PongRead | scripts/devtools.py:50 | on the wire the browser finds the answers one after the other, each with its ping's own payload |
| WebSocketClient.RequestRead | scripts/devtools.py:55-57 | the browser finds the request of a call as one text frame, whatever stands around it |
| WebSocketClient.Client.Receive | scripts/devtools.py:41-54 | the loop over frames, with its pongs written in order |
| WebSocketClient.Client.Call | scripts/devtools.py:55-64 | sends the request, then receives until its reply arrives, the time is up or the connection breaks; keeps everything else as events and answers every ping |
| WebSocketClient.CallAnswered | scripts/devtools.py:55-64 | a call finds its own reply behind any number of other messages, however fragmented and mixed with pings; these are its events in order, and the next call reads on behind it |
| WebSocketClient.CallUnanswered | scripts/devtools.py:55-65 | a call that does not find its reply keeps the other messages as its events; it times out when its turns are used up, and fails when the connection ends or a message does not decode |

## Left out

- CaptureRestart.LoadTracks: a track file is a track or unreadable; JSON and the identifier check against the directory name are not part of this model.
- CaptureDisk.FilesFromPast: track files are replaced whole, as a rename does it; what a power failure leaves of a file, and files that somebody else changes, are left out.
- JobServer.LoadJobs: job files are whole for the same reason; the stage texts that a running job saves do not change what a restart makes of it.
- CaptureSteps.StepKeeps: a track object is a value in a table under its identifier, split into its saved part and its admission part; aliasing between handlers is by identifier.
- CaptureProgress.EveryHandlerEnds: leaves the shutdown exit of the consumer aside, which can leave a queued frame without an answer; it says that each handler can end, not that a scheduler lets it.
- CaptureModel identifiers are fresh: a repeated 12-byte random number is not modelled.
- The request counter `next` of a track is unbounded; the 64-bit wrap-around is out of reach of a run.
- Listings, file downloads, HTTP parsing, JSON, image and JPEG codecs: outside the protocols.
- The settings stored beside a sample's time, the names of tracks, and the mesh file of an offline frame beyond its success.
- Skeleton.ValidateSkeleton: over numbers that are finite already; `SkeletonFile.Valid` adds the check that every stored word is.
- Skeleton.LocalSkeleton: over reals; single and double precision rounding inside the conversion is not modelled.
- SkeletonGlb.Export: the JSON encoder is a parameter, so names and extras of the document matter only as bytes; with a document of almost 4 GiB, for which the length field would be cut off, the container is written but not claimed to be readable.
- SkeletonFile.SkeletonRead: words are opaque; which of them are finite, and their values, are parameters.
- `viewerVertices`, `writeGLB` of the static mesh and the OBJ writer (demo/result.go): one loop each, no new kind of property.
- WorkerLockstep.StepKeeps: process groups, scopes and signals appear as a child that may exit at any time and that a stop removes together with its channels; the text of diagnostics is not modelled.
- ResultFormat.WriteResult: a failing write ends the runner and is a crash of the worker model, not a shorter file.
- The option parser of the runner and its one-shot mode (apps/body_infer.c:86-112).
- GgufArchive.Convert: hashing, the safetensors header, temporary files and the atomic link are not part of this model; the per-tensor value checks are one parameter.
- GgufOrder.OrderIrrelevant: names are compared as UTF-8 bytes, which order as their code points do.
- `validate_value`, `native_views` and the manifest readers: checks without a partner.
- Parity.CompareArray: over reals; overflow of an error metric and the dtype conversions of chunks are not modelled.
- Calibration.CalibrateBackbone: manifests, hashes and tensor coverage are checked before the loop and left out, here as in the other calibrators.
- ParityRules.ValidateRules: the JSON types of the fields are reduced to being usable or not.
- JobSafety.RunWithinBudget: runs with jobs only, each directory within its 160 MiB; tracks, which have margins of their own, are left out.
- WebSocketClient.Client.Receive: returns the bytes of the message, not the parsed JSON; the socket is the finite sequence of bytes the browser sends.
- WebSocketClient.Client.Call: JSON encoding and decoding are parameters, and the deadline is the number of turns it allows the loop.
- The handshake of the DevTools client, timeouts, screenshots and page scripts.
- Neural, geometry and image kernels, of which only declarations are visible.
