# Music job service: model and proofs

A Dafny 4.11 model of the music service's job runner, its GPU container lifecycle, the artifacts it leaves on disk,
its event stream, the cloud-compatible edge and four algorithms of the browser client, with proofs about all of
their runs and inputs. `dafny verify dfyconfig.toml` checks the project.

## What is modelled

**One transition system.** The single-slot worker, cancellers, submitters, callers of `ensure_ready` and the idle
loop share one event loop, so code between two suspending `await`s is one step. `Runner.JobRunner` and
`Lifecycle.Readiness` have the source's fields and one method for each such stretch; every method is proved to do to
the fields what a function on the values `Core` and `Gate` does. `Machine` composes those functions: `State.Perform`
is one step, `Enabled` says when it may happen, `Run` is any sequence of steps. Any waiter may get the lock, every
probe, status, start, stop and engine call may answer anything at any later step (a status answer is the container's
state at that moment, and the container may be changed from outside at any moment), and a start or stop may take
effect behind a reported failure. The step in which `ensure_ready` returns READY also releases the lock, moves the
job to running, begins the engine call and takes the lease; `cancel()` and `_persist_and_succeed` are each one step.

**The invariant** is built file by file: `Ledger` (which job is where), `JobInvariant` (records, logs, cancelled set,
slot), `GateInvariant` (lock, lease, cache and where coroutines wait), `TraceInvariant` (the conversation with the
container), `DiskInvariant` (records against files), `ContainerTally` (starts against stops). `Theorems` states what
follows for every run; `Table` tells each step by its effects alone, field by field, and `Outcomes` what the end of an
engine call does to its job and where a succeeded record has its contents from; `Progress` has the decreasing measure,
`Sections` the one for whoever holds the lock, `IdleTiming` the idle deadline, `ColdStart` the bound on the wait.

**Around it.** `Artifacts` and `ArtifactSafety`: the write protocol call by call, each of which may be the last, and the
accessors that decide what is observable. `Sse` and `SseReplay`: frames, the server's loop and a client that parses by
the WHATWG HTML Living Standard, sections 9.2.5 and 9.2.6; `Envelopes`: the JSON around streamed hex; `Listener`:
sessions of many connections, resumed with the id of the last message or, as the browser does, with the standard's last
event ID string; `Watching`: such listeners of a job in a run. `Cloud`, `Delivery` and `Parity`: request translation,
streaming, and the agreement of the two deliveries over a whole run. `Wav`, `Peaks`, `Lru`, `Eta`: the browser client's
WAVE walker (chunks and fields as in Multimedia Programming Interface and Data Specifications 1.0, chapters 2 and 3),
waveform peaks, bounded map and time estimate.

## Where the code does less than one might expect

- Successful starts can exceed successful stops by two: a stop that takes effect although its answer is an error is
  not counted, and the next caller starts the container again. `LostStop.LostStopUnbalances` gives the run;
  `Theorems.StartsAlternate` gives the exact condition.
- The browser's `EventSource` (api/app/static/app.js:361) can be told an event twice. The WHATWG standard sets its last
  event ID string at every blank line (section 9.2.6), so a resumed connection that brings a heartbeat and no event
  empties it, and the next one replays from the start. `Listener.StandardRepeats` is such a session,
  `Listener.StandardExactly` says for all sessions when the events seen are the history from its first one on,
  `Listener.RemembersExactly` that only such a connection spoils it, and `SseReplay.StandardForgets` which connections
  empty the string. A client that resumes with the id of the last message it got sees every event exactly once
  (`Listener.ExactlyOnce`).
- A listener whose cursor is at or past the terminal event is never answered (`SseReplay.TerminalIsReached` is an
  equivalence).
- A `Last-Event-ID` of superscript digits, or of more than 4300 digits, passes `isdigit` and is refused by `int`;
  `Sse.ParseLastEventId` has the outcome `Rejected` for it.
- The temp file of a delivery is removed exactly if at least one piece of the stream was asked for: a generator closed
  before its first piece never enters its `try` (`Delivery.HexBody`, `Delivery.FileBody`).
- The hex ceiling cannot refuse any request under its default value (`Cloud.FullSongFits`).
- `parseWavPcm`'s copy for an odd data offset is dead code (`Wav.ParseWavPcm`).

## Model

| member | source | states |
|---|---|---|
| `Theorems.Always` | api/jobs/runner.py:136-209 | the joint invariant of worker, cancels, readiness, idle loop, disk and trace holds at every suspension of every run |
| `Theorems.NeverStoppedUnderGeneration` | api/lifecycle/readiness.py:300-322 | while a stop is in flight there is no lease, no engine call and no cached READY, the idle loop has the lock, and no step of anybody begins an engine call before the stop answers |
| `Theorems.OneSlot` | api/jobs/runner.py:120-209 | the cancelled set is exactly the cancelled records; a running job is the current one with its call awaited under the one lease; the call's job is cancelled exactly if it was told to stop; no transition error ever reaches the net around the worker |
| `Theorems.EngineCallsAreSerial` | api/jobs/runner.py:169-187 | a call begins only where there was none, for a job not cancelled and moved to running in that step; a call is forgotten only once it is done |
| `Theorems.LivesOfJobs` | api/jobs/store.py:86-170 | every log is queued, optional running, at most one terminal event, never queued to succeeded, numbered from 1, and status, started_at, ended_at and error of the record agree with it |
| `Theorems.RunsEvolve` | api/jobs/store.py:136-164 | between any two moments of a run records only move forward in status, keep id and submission, and logs only grow at their end |
| `Theorems.TerminalForever` | api/jobs/store.py:86-120 | a terminal record and its log never change again |
| `Theorems.CancelSticks` | api/jobs/runner.py:120-134 | an accepted cancel is final: the record stays the one cancel returned, and an awaited call of the job has been told to stop or has ended |
| `Theorems.NothingLost` | api/jobs/runner.py:113-147 | processed, in hand and queued are in this order the submissions in order, each id in exactly one place, and processed jobs are terminal |
| `Theorems.EveryJobEnds` | api/jobs/runner.py:136-209 | without new submissions the worker has at most Cost steps left whatever others do, and when they are used up every job is terminal |
| `Theorems.NoDeadlock` | api/jobs/runner.py:149-187 | an unfinished job always leaves a step to the worker or to the holder of the lock it waits for |
| `Theorems.ArtifactsMatchRecords` | api/jobs/runner.py:203-243 | a succeeded job's directory is exactly its audio and the sidecar of that record; queued, running and cancelled jobs changed nothing; a failed one left at most one interrupted write; nothing else on disk changes |
| `Outcomes.ResumeTells` | api/jobs/runner.py:184-249 | at the end of an engine call slot and lease are free; a cancelled job stays as it is, an engine error fails it with its message, a result makes it succeed with that result if it can be kept and fails it as a failed write otherwise |
| `Outcomes.FinishedSucceeds` | api/jobs/runner.py:203-243 | in every run, the result of a call for a job not cancelled ends up in its record (audio, content type, engine, model, seconds, time) exactly if there is no root, or the audio is readable, the id valid, its place free and no call refused |
| `Outcomes.ErroredFails` | api/jobs/runner.py:194-201 | in every run, an engine error fails its job with that message, unless cancelled |
| `Outcomes.SucceededWasDelivered` | api/jobs/runner.py:187-243 | every succeeded record carries a result that the engine delivered at a step at which that job was the current one |
| `Outcomes.AJobSucceeds` | api/jobs/runner.py:113-243 | from every fresh process there is a run in which a submitted job succeeds with the engine's result |
| `Table.ReturnTells` | api/jobs/runner.py:156-187 | ensure_ready's answer to the worker: a cancelled job is let go, READY makes it running under the lease, anything else fails it with the state and cause in words |
| `Table.AcquireTells` | api/lifecycle/readiness.py:200-220 | with the lock: a fresh cache answers at once and frees it, otherwise the first probe with its deadline |
| `Table.ProbeTells` | api/lifecycle/readiness.py:205-254 | a probe that finds the models ends the call READY, cached, without a cause; another goes on to the status, pauses until the deadline, or gives up with the state it means |
| `Table.StatusTells` | api/lifecycle/readiness.py:224-237 | running is polled with the same deadline under the lock, stopped is started, absent and refused end with their cause |
| `Table.StartTells` | api/lifecycle/readiness.py:230-237 | a started container is polled, a refused start ends with its cause |
| `Table.EnterTells` | api/lifecycle/readiness.py:193-200 | entering restarts the idle timer and arms the loop; a fresh cache answers without the lock |
| `Table.IdleWakeTells` | api/lifecycle/readiness.py:286-298 | unleased and idle for the interval the loop asks for the lock, otherwise it sleeps the rest of it, or a poll |
| `Table.IdleStatusTells` | api/lifecycle/readiness.py:300-319 | it stops a running container still idle and unleased, with the cache emptied first, and sleeps an interval otherwise |
| `Table.SubmitTells` | api/jobs/runner.py:113-118 | a new queued record, its first event, its id at the end of the queue, and nothing else |
| `Table.CancelTells` | api/jobs/runner.py:120-134 | unknown and ended jobs are left alone; any other is cancelled now, and the call of a running one told to stop |
| `Table.TakeTells` | api/jobs/runner.py:136-159 | a job cancelled in the queue is passed over, any other enters ensure_ready |
| `Theorems.SidecarTells` | api/jobs/artifacts.py:188-237 | the sidecar of a succeeded job says of its own record: id and trace id, the request asked and sent, the engine's answer, the same instants and the times between them, and the audio's rate, channels, duration, size and hash |
| `Theorems.EveryNoteLawful` | api/lifecycle/readiness.py:182-237 | calls to the container exclude each other; start follows a reading of stopped in the same critical section; stop is the idle loop's, follows a reading of running and comes an interval after every earlier activity; a cached READY rests on a probe younger than cache_seconds with no stop since and an empty cause |
| `Theorems.StartsAlternate` | api/lifecycle/readiness.py:212-237 | with this controller alone, effective starts and stops alternate for any number of callers; reported starts exceed reported stops by at most one as long as no more stops than starts are lost behind a failure, and exactly if the balance says so |
| `LostStop.LostStopUnbalances` | api/lifecycle/readiness.py:313-322 | a run with two reported starts and no reported stop: the condition of StartsAlternate is needed |
| `JobInvariant.StepKeeps` | api/jobs/runner.py:149-209 | each step keeps the job invariant |
| `GateInvariant.StepKeeps` | api/lifecycle/readiness.py:193-322 | each step keeps lock, lease, cache and the places where coroutines wait consistent |
| `TraceInvariant.StepKeeps` | api/lifecycle/readiness.py:193-322 | each step writes only lawful notes |
| `DiskInvariant.StepKeeps` | api/jobs/runner.py:211-243 | each step keeps records and files in agreement |
| `ContainerTally.StepKeeps` | api/lifecycle/readiness.py:219-237 | each step keeps the balance of starts and stops |
| `Ledger.ExactlyOnePlace` | api/jobs/runner.py:113-165 | an id is in exactly one of queue, hand and processed |
| `Progress.WorkerStepCosts` | api/jobs/runner.py:149-209 | every step of the worker lowers the measure |
| `Progress.OtherStepCosts` | api/jobs/runner.py:149-209 | no step of anybody else raises it |
| `Sections.EverySectionEnds` | api/lifecycle/readiness.py:200-254 | whoever takes the lock lets go within 2 * ceil(timeout / poll) + 6 of its own steps, whatever is answered and whatever others do |
| `Sections.HolderNears` | api/lifecycle/readiness.py:200-322 | each step of the holder frees the lock or brings it nearer to that |
| `Sections.OthersStay` | api/lifecycle/readiness.py:193-322 | no step of anybody else takes the lock away or moves its holder |
| `IdleTiming.IdleDownInTime` | api/lifecycle/readiness.py:286-322 | a quiet running system is asked to stop not before last activity + interval and before last activity + interval + max(poll, interval) |
| `IdleTiming.QuietGoesOn` | api/lifecycle/readiness.py:286-322 | until then, in every state that the prompt steps lead to, the idle loop has one more to take, so the deadline is not met by standing still |
| `ColdStart.PollUntilReady` | api/lifecycle/readiness.py:239-254 | at most 1 + ceil(budget / poll) probes; the last one decides; not READY only at or after the deadline; with exact sleeps it ends by max(deadline + poll, start) + one probe |
| `ColdStart.RoundsAreCeiling` | api/lifecycle/readiness.py:239-254 | the number of rounds in these bounds is the budget in polls, rounded up |
| `ColdStart.DriveReadiness` | api/lifecycle/readiness.py:212-237 | the whole cold path takes at most max(timeout + poll, probe + status + start) + probe; which answers end it, with which state and cause; a running or started container is polled until a probe finds the models or the deadline is over |
| `Machine.TookIsTake` | api/jobs/runner.py:138-187 | the machine's step for taking a job is the runner's method |
| `Runner.JobRunner.Submit` | api/jobs/runner.py:113-118 | creates, logs and enqueues: the new state is Core.Submit of the old |
| `Runner.JobRunner.Cancel` | api/jobs/runner.py:120-134 | marks and aborts first, then moves the record; errors leave everything as it was |
| `Runner.JobRunner.EnsureCancelled` | api/jobs/runner.py:245-249 | moves a job to cancelled only if it is not already terminal |
| `Runner.JobRunner.Admit` | api/jobs/runner.py:156-187 | from READY to the engine call without suspension; cancelled and not-ready jobs end there |
| `Runner.JobRunner.Take` | api/jobs/runner.py:138-187 | a job cancelled while queued is passed over; the cached READY leads straight into the call |
| `Runner.JobRunner.PersistAndSucceed` | api/jobs/runner.py:211-243 | writes the artifact from the succeeded record, then moves the record, or fails the job if the write failed |
| `Runner.JobRunner.Conclude` | api/jobs/runner.py:184-209 | releases lease and slot, and cancel wins over whatever the engine call delivered |
| `Lifecycle.Readiness.FreshReady` | api/lifecycle/readiness.py:182-191 | READY only from an entry younger than cache_seconds |
| `Lifecycle.Readiness.EnsureReady` | api/lifecycle/readiness.py:193-200 | touches the activity clock, arms the idle loop, looks at the cache |
| `Lifecycle.Readiness.Enlock` | api/lifecycle/readiness.py:200-221 | second look under the lock, then the first probe with its deadline |
| `Lifecycle.Readiness.FirstProbe` | api/lifecycle/readiness.py:212-223 | READY is recorded at once; without a controller there is no waiting |
| `Lifecycle.Readiness.Inspected` | api/lifecycle/readiness.py:224-237 | absent and failing containers end with a cause; a start is asked for only if stopped |
| `Lifecycle.Readiness.Polled` | api/lifecycle/readiness.py:239-254 | READY, deadline and pause of the poll loop |
| `Lifecycle.Readiness.IdleTurn` | api/lifecycle/readiness.py:81-98 | queues for the lock only if idle for the interval with no lease, otherwise sleeps as long as `_next_idle_sleep` says |
| `Lifecycle.Readiness.IdleInspected` | api/lifecycle/readiness.py:300-317 | decides again under the lock and clears the cache before the stop suspends |
| `Lifecycle.Readiness.ExitLease` | api/lifecycle/readiness.py:256-269 | one lease less and the activity clock touched |
| `Jobs.OpenStore` | api/jobs/store.py:126-134 | a log limit below one is refused; otherwise an empty store |
| `Jobs.JobStore.Update` | api/jobs/store.py:151-155 | read, transition and store in one: an illegal transition changes nothing |
| `Jobs.JobStore.AppendEvent` | api/jobs/store.py:157-164 | next number of the job; the bounded deque always holds the last events of the whole history |
| `Artifacts.FileSystem.AtomicWriteBytes` | api/jobs/artifacts.py:250-262 | stopped in any call, the directory is the closed form of the completed calls: the name keeps what it had or has the whole new data |
| `Artifacts.FileSystem.WriteArtifact` | api/jobs/artifacts.py:274-302 | stopped in any of the eleven calls, the disk is the closed form of the completed ones; which errors leave which disk |
| `ArtifactSafety.WrittenExactly` | api/jobs/artifacts.py:274-302 | a write succeeds exactly if there is readable audio, a valid id, a free place in the root and no refused call, and returns that place |
| `ArtifactSafety.CrashSafe` | api/jobs/artifacts.py:274-302 | one write stopped anywhere leaves old entries alone, a sidecar only beside its whole audio, and is servable exactly from the second rename on; success means exactly the pair |
| `ArtifactSafety.CrashesSafe` | api/jobs/artifacts.py:250-302 | the same over any sequence of crashed processes |
| `Artifacts.FileSystem.OpenJobDir` | api/jobs/artifacts.py:316-332 | invalid ids are errors, symlinks and files are nothing, and only a returned descriptor stays open |
| `Artifacts.FileSystem.OpenMember` | api/jobs/artifacts.py:354-381 | serves only a member of a complete pair, exactly then if no call is refused, and holds one descriptor then and none on every other path |
| `Artifacts.FileSystem.ScanListing` | api/jobs/artifacts.py:394-432 | it raises exactly if scandir is refused or an entry cannot be read; no descriptor stays open whichever calls are refused; with none refused the rows are those of the complete candidates, newest first |
| `ArtifactSafety.ListingExact` | api/jobs/artifacts.py:394-432 | the listing is newest first, without duplicates, and has exactly the directories open_member serves |
| `Sse.FrameIsOneMessage` | api/jobs/events.py:37-39 | parsed by the standard, a rendered event is exactly one message with its id, type and data |
| `Sse.MessageTells` | api/jobs/events.py:17-39 | a message's type names the event's status as the browser's listeners do, its data and id are the event's |
| `Sse.CursorTells` | api/app/routes/jobs.py:74-75 | which headers resume behind a number, which start from the beginning and which int() refuses |
| `Sse.BeatIsNoMessage` | api/app/routes/jobs.py:152-154 | a heartbeat is no message |
| `SseReplay.CutAnywhere` | api/jobs/events.py:37-39 | a stream cut after any character delivers exactly its whole items |
| `SseReplay.EventStream.Sweep` | api/app/routes/jobs.py:143-148 | one sweep yields the retained events past the cursor up to a terminal one, which ends the stream, and moves the cursor to the last yielded |
| `SseReplay.EventStream.Follow` | api/app/routes/jobs.py:140-157 | over any sequence of logs, disconnects and clock readings the loop yields what `Trailed` says, of which NeverSilent is proved |
| `SseReplay.NeverSilent` | api/app/routes/jobs.py:143-155 | heartbeats are at least the interval apart and, with turns no further apart than a poll, at most the interval and one poll; a stream that goes on had one, or was opened, less than an interval before its last turn |
| `SseReplay.FollowDelivers` | api/app/routes/jobs.py:140-157 | over any turns the loop sends the retained history from its cursor on, in order and once, up to the last log read, and ends only after the terminal event or when the client is gone |
| `Listener.AlwaysSound` | api/app/routes/jobs.py:128-157 | for both clients and any interleaving of appends, polls, heartbeats, cuts at any character and resumptions: every message seen is the event with its number, each connection sends a stretch of the history from its cursor on, and the order of what was seen is that of the visits |
| `Listener.ExactlyOnce` | api/app/routes/jobs.py:128-157 | a client that resumes with its last message's id has seen the job's events from the first on, in order, none missing, none twice |
| `Listener.StandardExactly` | api/app/static/app.js:359-367 | the standard's client has if and only if no connection that delivered an event was opened with an empty cursor after something had been seen |
| `Listener.RemembersExactly` | api/app/static/app.js:359-367 | and it has as long as no resumed connection brings a heartbeat and no event |
| `Listener.StandardRepeats` | api/app/static/app.js:359-367 | a session of the standard's client in which one event is seen twice |
| `Watching.ListenersOfARun` | api/jobs/store.py:157-170 | in every run, for the log of any job and any limit of at least three: exactly once for the careful client, the equivalence for the standard's |
| `Watching.TerminalOfARun` | api/app/routes/jobs.py:143-148 | in every run, for any limit of at least one: a sweep of a terminal job's log yields the terminal event exactly from the cursors before it |
| `SseReplay.GrammarIsNumbered` | api/jobs/store.py:157-164 | every log of the store's grammar is numbered from one, has at most three events and none after a terminal one, so a limit of three retains it |
| `SseReplay.TerminalIsReached` | api/app/routes/jobs.py:143-148 | for every limit of at least one a listener gets the terminal event if and only if its cursor is before it |
| `SseReplay.StandardForgets` | api/app/routes/jobs.py:74-75 | when the standard's own last event ID survives a connection: an equivalence |
| `Wav.ParseWavPcm` | api/app/static/app.js:112-142 | every read is inside the buffer, the walk ends, its offset stays even and the odd copy is never made; the outcome is that of the last fmt and data chunks |
| `Wav.WalkReads` | api/app/static/app.js:118-134 | over any written chunk list the walk finds the last fmt and the last data chunk, wherever they stand |
| `Wav.ParseUndoesWrite` | api/app/static/app.js:112-142 | for every well-formed chunk list, odd sizes padded, the parser returns the rate, channels and samples written |
| `Wav.RefusesOtherFiles` | api/app/static/app.js:112-136 | a written file is refused exactly if its last fmt is not 16-bit PCM, or it has no or empty data |
| `Wav.BrokenOff` | api/app/static/app.js:131-139 | a file that breaks off within its samples gives those that are whole |
| `Wav.UsualFileRoundTrips` | api/app/static/app.js:112-142 | the same for fmt and data with any other chunks before, between and after |
| `Peaks.ExtractPeaks` | api/app/static/app.js:147-164 | every bucket holds the largest channel 0 magnitude of its frames over 32768; no frames give zeros, no buckets an empty array |
| `Peaks.StretchesInside` | api/app/static/app.js:153-155 | every bucket and column is non-empty and in range |
| `Peaks.StretchesCover` | api/app/static/app.js:153-155 | every frame is in some bucket, every bucket in some column |
| `Peaks.CutIsWholePart` | api/app/static/app.js:153-155 | a bucket or column starts at the whole part of k * items / count |
| `Peaks.StretchesMeet` | api/app/static/app.js:153-155 | it ends where the next one starts, or holds one item where that starts at the same place |
| `Peaks.PartitionExactly` | api/app/static/app.js:153-155 | buckets are disjoint if and only if there are no more of them than frames |
| `Peaks.PeaksInRange` | api/app/static/app.js:156-161 | peaks lie between 0 and 1 |
| `Peaks.HighestPeak` | api/app/static/app.js:147-164 | the highest peak is the largest channel 0 magnitude of the whole song |
| `Peaks.DrawColumns` | api/app/static/app.js:785-793 | each bar is the highest peak's share of the height but two pixels, or one pixel if that is less |
| `Peaks.LoudestIsDrawn` | api/app/static/app.js:785-793 | for all numbers of frames, buckets and columns and every height the tallest bar is that of loudest / 32768: its share of the height but two pixels, and never under one |
| `Lru.LruSet` | api/app/static/app.js:207-212 | the map becomes the last max entries with the key moved to the end, keys distinct |
| `Lru.KeepsMostRecent` | api/app/static/app.js:207-212 | after any history of sets with one max of at least 1 the map is the last max of the last sets of all keys ever set |
| `Lru.LastSetsMeans` | api/app/static/app.js:207-212 | those last sets: each key of the history once, with its latest value |
| `Lru.LastSetsInOrder` | api/app/static/app.js:207-212 | and in the order in which they were last set |
| `Eta.RecentAreNewest` | api/app/static/app.js:84-88 | the runs used are ten of those that count, or all of fewer, and none left out is newer than one of them |
| `Eta.EstimateIs` | api/app/static/app.js:83-93 | the estimate is the requested frames times the second largest seconds per frame of those runs, or the largest of three or four; none without frames |
| `Eta.OrderDoesNotMatter` | api/app/static/app.js:83-93 | permuting a history with distinct mtimes changes nothing |
| `Eta.ScalesWithSeconds` | api/app/static/app.js:83-93 | runs c times as slow give an estimate c times as long |
| `Eta.ScalesWithFrames` | api/app/static/app.js:83-93 | there is an estimate exactly for three runs or more and a positive length, and it is linear in the length |
| `Eta.FittedIsSecondLargest` | api/app/static/app.js:89-91 | from five recent runs on the rate is the second largest: it bounds all but one |
| `Eta.FittedIsLargestOfFew` | api/app/static/app.js:89-91 | with three or four it bounds them all |
| `Eta.OneWeirdRun` | api/app/static/app.js:83-93 | whatever seconds one run is given, the rate stays under every bound on the other recent runs |
| `Cloud.ResolvesToTheMatrix` | api/transcode/ffmpeg.py:72-111 | the plans resolved to are all those of the combination matrix and no others |
| `Cloud.RefusesTheFirst` | api/compat/minimax.py:70-126 | a refusal names the first field in the fixed order that cannot be honoured; with none, only the ceiling refuses |
| `Cloud.AcceptedExactly` | api/compat/minimax.py:70-137 | under the default ceiling a body is accepted exactly if every field can be honoured |
| `Cloud.AcceptedSays` | api/compat/minimax.py:93-137 | an accepted request has the lyrics for input, the prompt for instructions, and seed, length, format and plan as the body says or by default |
| `Cloud.FalseValues` | api/compat/minimax.py:80-84 | the values for which a flag is not refused |
| `Cloud.EstimateIs` | api/compat/minimax.py:150-160 | the estimate in whole numbers, by bitrate or by rate |
| `Cloud.FullSongFits` | api/compat/minimax.py:150-160 | no accepted request reaches the default ceiling |
| `Cloud.RecordedReplays` | api/compat/minimax.py:128-137 | the recorded copy is the received fields verbatim, and translates again to the very same request and plan |
| `Delivery.ReadJsonBody` | api/app/routes/music.py:261-281 | however the body is chunked, the whole is parsed, and refused exactly over the cap or when it is no JSON |
| `Envelopes.EnvelopeTells` | api/compat/minimax.py:163-173 | audio, status, trace id, what was measured and success stand under their keys, the numbers in decimal |
| `Envelopes.EnvelopeAround` | api/app/routes/music.py:371-372 | the rendered envelope is the same text before and behind whatever audio it carries |
| `Envelopes.EnvelopeSplits` | api/app/routes/music.py:371-372 | the placeholder occurs once in the rendered envelope, so the split has exactly two parts |
| `Delivery.HexBody` | api/app/routes/music.py:366-380 | what was sent when the client left is the beginning of the stream, and the temp file is gone unless nothing was asked for |
| `Delivery.FileBody` | api/app/routes/music.py:383-390 | the same for the raw file |
| `Delivery.HexStreamIsTheEnvelope` | api/app/routes/music.py:366-380 | for every file length and chunk size the pieces are the JSON envelope with the hex of the whole file, which decodes to the file, and no piece is over two characters a byte of one chunk |
| `Delivery.ResultReplies` | api/app/routes/music.py:222-253 | the url route knows only stored artifacts of cloud requests, fails for an unresolvable setting or a refused transcode, and else sends the stored audio transcoded |
| `Delivery.SubmittedSays` | api/app/routes/music.py:168-174 | the submitted job has the body's lyrics, prompt, seed and length, and the recorded copy |
| `Delivery.DeliveriesAgree` | api/app/routes/music.py:222-253 | on a stored artifact the url route resolves POST's plan, and hex and url deliver the same bytes or fail together |
| `Parity.WhatWasSung` | api/app/routes/music.py:168-175 | in every run, the sidecar of a succeeded cloud job tells that the engine was asked for the body's lyrics, prompt, seed and length |
| `Parity.BothDeliveriesOfARun` | api/app/routes/music.py:147-208 | in every run, from the step that submitted an accepted body to any moment after its job succeeded, both routes deliver alike |

## Left out

- `JobRunner.stop()`, `aclose()` and the lifespan teardown: a stop landing while a cancelled call unwinds is swallowed, so "stop always ends" is not available.
- `last_known()`: it keeps an old READY by design.
- Several readings of the clock within one stretch of code: a step has one reading.
- Cancellation of a readiness caller in the middle of an await: callers run to the end.
- An engine call that ends as cancelled without `cancel()`: an aborted outcome occurs only after a request to cancel, as the engine client promises.
- Reused job ids, and a symbolic link planted under an id before its job is submitted: ids are taken as fresh.
- Changes of the artifacts root by other programs while a request reads it.
- Power loss: the crash model keeps completed calls in order.
- Rounding: clocks, durations, rates, peaks and bar heights are exact rationals. A peak is a multiple of 1/32768, which a 32-bit float holds exactly.
- WAV header parsing, SHA-256, JSON text, ISO instants, HTTP, the Docker socket, ffmpeg and ffprobe: parameters, deterministic in their inputs or free in their answers. The sidecar's JSON is taken to load as what was dumped, rendered event data to have no line break, a rendered duration to have no capital S.
- Environment parsing and configuration: the limits that `_duration` enforces are `Settings.Valid`.
- `transcode` and `_output_args`: one function of the audio and the plan.
- `_listing_summary`: a listing row has the sidecar's bytes instead of a projection of them.
- A byte order mark before an event stream, and a JSON sidecar that is no object.
- Content-Length text: the declared length comes as a number or not at all.
- `estimate_hex_bytes` as a bound on delivered WAV files: headers are not counted.
- Eta.OrderDoesNotMatter: asks for distinct mtimes, because with equal ones the stable sort makes the ten most recent runs depend on the order of the history; the other results on the estimate ask for nothing of the kind.
- Lru.LruSet: takes a natural number as max, because with a negative one the source's loop does not end.
- Theorems.StartsAlternate: a start or stop whose answer is lost is taken to have acted by the time of that answer, or never. One that acts after the controller's timeout (api/lifecycle/controller.py:45) is a change of the container from outside here, which this theorem excludes.
- Artifacts.FileSystem.AtomicWriteBytes: a temporary name that is already a link or a special file, and a final name that is a directory or a special file, are not modelled; `write_artifact` calls it on a directory that it has just made.
- Theorems.EveryJobEnds: bounds the worker's steps, not the time; that awaited calls answer and a free lock is handed to a waiter is an assumption on the schedule.
- DOM, canvas, theme, playback, status texts and byte formatting: nothing hard to state.
