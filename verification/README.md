# ArqmaMQ: a verified model of the proxy and its codecs

ArqmaMQ is a message layer over ZeroMQ. One proxy thread owns all state: it hands jobs to worker
threads, keeps the connection tables, matches replies to requests, and talks to other threads in
bencoded control messages. This project models that state machine and the codecs it relies on, and
proves what the code has to keep.

* **Scheduler** (`Scheduler*.dfy`). `SchedulerModel` is the state of the proxy and its worker threads,
  with their message channels, and what each action does to it. A run (`SchedulerRuns`) is any
  interleaving of the loop's phases (control, workers, timers, drain, incoming) with the threads' own
  steps. What is true of every run is in `SchedulerTheorems` (capacity, counters, order, batches),
  `SchedulerAdmissions` (what is accepted), `SchedulerSubmissions` and `SchedulerPlaces` (what is
  submitted, and on which thread it waits and runs), `SchedulerOrder`, `SchedulerLimits`,
  `SchedulerExecution` and `SchedulerCompletions` (what is executed), `SchedulerRecords` and
  `SchedulerShutdown`. The modules before them build the invariant, and `SchedulerWitnesses` holds
  runs in which a natural claim fails. `SchedulerProxy` is the same code as it runs: fields
  updated in place and loops, each method proved to compute the model's step. `SchedulerLoop` is a
  pass of the proxy loop, proved to go from states of runs to states of runs.
* **Bencoding** (`Bencode*.dfy`). Printer, parser, skipper and dict seeker over arbitrary byte strings
  (characters stand for bytes), with 64-bit wrap-around written out, the consumers as classes, and the
  exact grammar of what is accepted (`BencodeGrammar`). `SendOptions`, `SendReading` and `SendProxy` follow a send from its options through the control dict to the proxy.
* **Connections** (`Connection*.dfy`, `ActiveNodes.dfy`). Five tables of indices into one vector of
  sockets. A socket's identity is the order in which it was opened, so that "the same socket" can be
  said across renumbering. `ConnectionExact` and `ConnectionOutcomes` say exactly what each operation
  does and when each callback is called.
* **Bases and addresses** (`BitPacking`, `BaseCodecs`, `BaseLoops`, `Address*.dfy`). One shift
  register for digits of 4, 5 or 6 bits, the three alphabets, and the exact address grammar.
* **Requests** (`Request*.dfy`). Waiting requests, the callbacks handed to jobs, and their outcomes.

Where documentation and code differ, or a natural claim fails, the code is followed:

* A record is reset only on the worker whose report deletes the batch, so the records of workers that
  reported other jobs of the batch still name it. `StaleTaggedRecord` and `StaleWorkerRecord` are runs
  that get there, `StaleExactly` says exactly when, and `DeletedRecords` that such a worker holds no job.
* The wrap test of the digit loop misses some numbers of 2^64 and above (`OversizedAccepted`); the
  loop is exact if and only if the number fits (`ReadsExactlyWhenItFits`), and `AcceptedExactly` says
  which digit strings it accepts.
* A QR-friendly address is printed for every TCP host but parses back only for the hosts that
  `QrFriendly` describes (`QrRoundTrip`, `QrUnfriendlyHost`).
* A socket path may end in a key of 44 characters with two padding characters, which is read as 31 bytes
  (`ShortKeyAccepted`); every other accepted address is well formed (`AcceptedIsWellFormed`).
* A request whose tag is already waiting loses its callback, since the table insertion does nothing
  (`SendConserves`, `SharedTagLoses`); tags are random, and runs are taken over distinct tags.
* The timeout of a pending connect reads the entry after erasing it; the model reads its index first.
* After QUIT, commands are still admitted although `max_workers` is 0, and can then outgrow the
  reserved records (`AdmissionAfterQuit`, `AdmissionOverflows`).

## Model

| member | source | states |
|---|---|---|
| `SchedulerTheorems.CapacityOverRuns` | arqmamq/worker.cpp:163-176 | in every state of every run before QUIT: what all classes use beyond their reservations fits into the general workers, busy workers never exceed `max_workers`, worker records never outgrow the space reserved at startup, and the classes other than k leave k its reservation |
| `SchedulerTheorems.CountersOverRuns` | arqmamq/worker.cpp:335-406 | in every run each class counter is the number of workers that hold a job of that class, idle indices are distinct and valid, and each `queued` is the number of that category's pending commands and within `max_queue` |
| `SchedulerTheorems.AdmissionAfterQuit` | arqmamq/worker.cpp:384-406 | once quitting, an admission stays within the reserved worker records if and only if it is not dispatched to a new record with all of them in use (`AdmissionOverflows` reaches the other case) |
| `SchedulerTheorems.HistoryGrows` | arqmamq/proxy.cpp:453-545 | along a run what was accepted and what was started is only ever appended to |
| `SchedulerTheorems.OrderOverRuns` | arqmamq/proxy.cpp:481-541 | commands and injected tasks of one category start in the order they were accepted, over whole runs: accepted = started followed by exactly the queued ones |
| `SchedulerTheorems.DrainOverRuns` | arqmamq/proxy.cpp:499-502 | in every run the drain leaves no queued batch job, reply job, tagged job or pending command that could be started |
| `SchedulerTheorems.JobsOverRuns` | arqmamq/worker.cpp:201-253 | each job of each submitted batch is at any time in exactly one of: a queue, a working thread, the finished jobs; `jobs_outstanding` counts the first two |
| `SchedulerTheorems.CompletionsOverRuns` | arqmamq/worker.cpp:212-247 | a batch's completion exists at most once over a run, only if one was set, and only after every job of the batch has finished |
| `SchedulerTheorems.DeletedOverRuns` | arqmamq/worker.cpp:249-253 | once a batch is deleted no queue and no working thread refers to it, and all its jobs and its completion have run |
| `SchedulerTheorems.TimersOverRuns` | arqmamq/jobs.cpp:81-119 | a squelched timer is marked running exactly when one live batch is its own, and then exactly one, of one job |
| `SchedulerAdmissions.AcceptedOverRuns` | arqmamq/worker.cpp:335-397 | over any run the accepted tasks of a category are exactly those that arrived for it, in order, without the ones that found it busy (reservation used up and general workers taken) with its queue at its limit |
| `SchedulerAdmissions.AdmissionOutcome` | arqmamq/worker.cpp:335-406 | on arrival a task goes to the worker idled last or to a new one if the category is not busy, else behind all queued ones if there is room, else the state does not change at all; nothing else changes in the first two cases |
| `SchedulerAdmissions.AcceptsNothing` | arqmamq/proxy.cpp:453-545 | no event but the arrival of a command or injected task accepts anything |
| `SchedulerPlaces.PlacesOverRuns` | arqmamq/jobs.cpp:7-52 | in every run each job waits in the queue of the tagged thread it was submitted for, or in a common queue if for none, and is held by that thread or by an ordinary worker; completions likewise; and the reply queue and class hold the reply jobs and no others |
| `SchedulerPlaces.StepMoves` | arqmamq/worker.cpp:212-247 | every event either takes jobs from the front of queues to workers of those queues, or adds jobs at the back of the queues they are for |
| `SchedulerPlaces.FinishPushed` | arqmamq/worker.cpp:212-247 | a finished job queues nothing but the completion of its own batch, on the thread that is to run it |
| `SchedulerPlaces.ProcessQueueDrained` | arqmamq/proxy.cpp:663-697 | a drain shortens queues from the front only, and a worker that takes up a job takes one that waited for it |
| `SchedulerSubmissions.SubmittedOverRuns` | arqmamq/jobs.cpp:7-43 | over any run batches are numbered in the order of submission and kept as submitted: the caller's, one job for each reply, and one for each timer that fires and is neither squelched nor run in the proxy |
| `SchedulerSubmissions.StepSubmits` | arqmamq/jobs.cpp:81-119 | which batch, if any, an event submits, and that no event but the setting of a timer changes a timer's settings |
| `SchedulerSubmissions.TimerSettingsOverRuns` | arqmamq/jobs.cpp:56-68 | over any run the timers are those that were set, each with the settings it was given |
| `SchedulerCompletions.ExecutedAtHome` | arqmamq/worker.cpp:94-111 | in every run what a thread executes was submitted for it |
| `SchedulerCompletions.CompletionsExecuted` | arqmamq/worker.cpp:212-247 | over any run a completion set for a thread has been executed, once, exactly when it is finished or its report is on the way, and one set for the proxy is executed by no worker |
| `SchedulerOrder.JobsInOrder` | arqmamq/jobs.cpp:45-52 | over any run what is left of a queue is a back part of it, ahead of all that was queued later: the jobs of each queue start in the order in which they were queued |
| `SchedulerOrder.DrainPriority` | arqmamq/proxy.cpp:663-697 | a drain that leaves a batch job waiting has started replies and commands within their own reservations only, and one that leaves a reply waiting has started commands so |
| `SchedulerOrder.IdledLast` | arqmamq/worker.cpp:258-266 | a worker that reports becomes the next one to be used |
| `SchedulerLimits.StartupLimits` | arqmamq/proxy.cpp:327-349 | without a wish of the caller's half as many threads as general ones are reserved for batch jobs and an eighth for replies, rounded up, and records for all reservations together |
| `SchedulerLimits.LimitsOverRuns` | arqmamq/proxy.cpp:453-545 | over any run the limits are those of startup, and `max_workers` is the whole capacity until QUIT and 0 from then on |
| `SchedulerRecords.DeletedRecords` | arqmamq/worker.cpp:249-263 | in every run a record that names a deleted batch, of an ordinary or a tagged worker, belongs to a worker that holds no job |
| `SchedulerRecords.StaleExactly` | arqmamq/worker.cpp:199-253 | in every run a record, ordinary or tagged, names a deleted batch if and only if its thread reported a job of that batch, that report did not delete the batch, and the record has been given no job since |
| `SchedulerRecords.DeletingReport` | arqmamq/worker.cpp:199-253 | a report, from an ordinary or a tagged worker, that deletes its batch resets exactly the reporter's record: the records that still name the batch are the other ones that did |
| `SchedulerRecords.StepRecord` | arqmamq/worker.cpp:178-277 | no event takes a record away, a record stops holding its job only by reporting it, and a record that holds none keeps its contents until it is given one |
| `SchedulerRecords.NamingStep` | arqmamq/worker.cpp:199-253 | how one event changes which batch a record that holds no job names |
| `SchedulerReports.ReportEffect` | arqmamq/worker.cpp:194-266 | a RAN touches no record but the reporter's, which is reset if and only if its batch was deleted, and says what is finished |
| `SchedulerReports.ThreadEffect` | arqmamq/worker.cpp:19-100 | a thread's own step changes only its own record's thread and channels, and reports exactly when its job returned |
| `SchedulerFrames.ProxyQuiet` | arqmamq/proxy.cpp:663-697 | no control message, timer, incoming message or drain touches a record that holds a job; each holder gained is one start counted, and nothing is finished |
| `SchedulerWitnesses.StaleTaggedRecord` | arqmamq/worker.cpp:249-263 | a run from startup after which a tagged worker's record names a deleted batch |
| `SchedulerWitnesses.StaleWorkerRecord` | arqmamq/worker.cpp:249-263 | a run from startup after which an idle worker's record names a deleted batch |
| `SchedulerWitnesses.AdmissionOverflows` | arqmamq/worker.cpp:384-406 | a run from startup to QUIT after which one more command would need a third worker record where two were reserved |
| `SchedulerExecution.ExecutedIsReported` | arqmamq/worker.cpp:94-160 | over any run every job a thread has executed has been reported or its report is on the way, counted for each job |
| `SchedulerExecution.CommandsExecuted` | arqmamq/worker.cpp:356-372 | over any run the commands started are those that workers hold and those reported, and each start is executed at most once, and once when it is reported |
| `SchedulerExecution.JobsExecuted` | arqmamq/worker.cpp:102-111 | over any run no job and no completion of a batch is executed twice, and a job has been executed exactly when it is finished or its report is on the way |
| `SchedulerRuns.StartupInv` | arqmamq/proxy.cpp:327-349 | the state after startup satisfies every invariant, whatever the configuration |
| `SchedulerRuns.StepKeepsInv` | arqmamq/proxy.cpp:481-541 | every event of the proxy loop and of the worker threads keeps capacity, counters, order, batches, timers and protocol together |
| `SchedulerRuns.AdvanceKeepsInv` | arqmamq/proxy.cpp:499-504 | moving on to the next phase, with its drain, keeps every invariant |
| `SchedulerRuns.RunInvariant` | arqmamq/proxy.cpp:453-545 | every state of every run satisfies the invariant |
| `SchedulerRuns.QuitEffect` | arqmamq/proxy.cpp:293-304 | QUIT is sent once to exactly the idle workers and the tagged workers that are not busy; nothing else changes |
| `SchedulerRuns.QuitKeepsCore` | arqmamq/proxy.cpp:293-304 | QUIT keeps every invariant |
| `SchedulerStarts.LaunchHolds` | arqmamq/worker.cpp:163-176 | taking a worker, new or idle, makes exactly one more worker hold exactly the given job |
| `SchedulerStarts.LaunchKeepsProtocol` | arqmamq/worker.cpp:272-277 | a worker is loaded only while it is not yet spawned or is waiting, and gets RUN only if it is waiting |
| `SchedulerStarts.RoomForOne` | arqmamq/worker.cpp:335-335 | the dispatch test alone leaves room for one more job of the class within the general workers |
| `SchedulerStarts.StartCommandCounters` | arqmamq/worker.cpp:356-372 | starting a command keeps the class counters and the capacity bound |
| `SchedulerStarts.StartBatchJobCounters` | arqmamq/jobs.cpp:45-52 | starting a batch or reply job keeps the class counters and the capacity bound |
| `SchedulerStarts.StartBatchJobRefs` | arqmamq/jobs.cpp:45-52 | starting a batch or reply job moves its reference from the queue to a worker and leaves every batch's bookkeeping as it was |
| `SchedulerStarts.StartTaggedKeeps` | arqmamq/proxy.cpp:667-675 | starting a tagged worker's next job keeps its protocol state and the job references |
| `SchedulerQueues.FullHouse` | arqmamq/proxy.cpp:684-684 | when busy workers have reached `max_workers` no class is dispatchable, so the loop may stop early |
| `SchedulerQueues.NothingWaits` | arqmamq/worker.cpp:335-349 | where nothing queued is dispatchable, a category with room has nothing queued, so a command admitted now overtakes none |
| `SchedulerQueues.AdmitKeepsCore` | arqmamq/worker.cpp:335-406 | admission keeps every invariant (`AdmissionOutcome` says what it does) |
| `SchedulerQueues.StartPendingKeepsCore` | arqmamq/proxy.cpp:686-692 | starting the first pending command of a category keeps every invariant |
| `SchedulerQueues.DrainCommandsKeeps` | arqmamq/proxy.cpp:684-696 | one pass over the pending commands keeps every invariant and leaves none dispatchable |
| `SchedulerQueues.DrainJobsKeeps` | arqmamq/jobs.cpp:45-52 | draining a job queue keeps every invariant and leaves it empty or not dispatchable |
| `SchedulerQueues.DrainTaggedKeeps` | arqmamq/proxy.cpp:667-675 | after the pass over the tagged workers none is free with a job queued |
| `SchedulerQueues.DrainIsWorkConserving` | arqmamq/proxy.cpp:663-697 | when the drain returns before QUIT nothing queued anywhere is dispatchable, also when the pass stopped early |
| `SchedulerSubmits.SubmitBatchKeepsCore` | arqmamq/jobs.cpp:7-26 | a new batch's jobs are queued once each and every invariant is kept (`PlacesOverRuns` says where) |
| `SchedulerSubmits.ScheduleReplyKeepsCore` | arqmamq/jobs.cpp:37-43 | a reply job is queued as a one-job batch and every invariant is kept |
| `SchedulerSubmits.NoFire` | arqmamq/jobs.cpp:88-99 | a firing that is squelched, unknown or run in the proxy queues nothing |
| `SchedulerSubmits.FireTimerKeepsCore` | arqmamq/jobs.cpp:81-119 | a timer firing keeps every invariant, the one-live-batch property of squelched timers included |
| `SchedulerSubmits.AddTimerKeepsCore` | arqmamq/jobs.cpp:56-68 | adding a timer keeps every invariant |
| `SchedulerLedger.SubmitKeepsLedger` | arqmamq/jobs.cpp:7-26 | the batch bookkeeping holds again after a submission under a fresh identity |
| `SchedulerLedger.JobKeepsLedger` | arqmamq/batch.h:241-248 | finishing a job that is not the last keeps the batch bookkeeping, with one outstanding job less |
| `SchedulerLedger.LastJobKeepsLedger` | arqmamq/worker.cpp:235-246 | finishing the last job deletes the batch or queues its completion, and nothing else refers to it |
| `SchedulerLedger.InProxyKeepsLedger` | arqmamq/worker.cpp:219-234 | a completion run in the proxy happens once, after all jobs, and ends the batch |
| `SchedulerLedger.CompletionKeepsLedger` | arqmamq/worker.cpp:214-216 | the return of a completion ends the batch |
| `SchedulerMessages.FinishKeepsLedger` | arqmamq/worker.cpp:212-253 | whatever a finished batch job leads to keeps the batch bookkeeping |
| `SchedulerMessages.FinishKeepsTimers` | arqmamq/worker.cpp:218-253 | whatever a finished batch job leads to keeps running flags and live timer batches matched |
| `SchedulerMessages.RanFindsBusy` | arqmamq/worker.cpp:199-210 | a RAN comes only from a worker that is not idle, was not told to quit and holds the job in its record |
| `SchedulerMessages.RanKeepsCore` | arqmamq/worker.cpp:199-263 | RAN from a worker keeps every invariant |
| `SchedulerMessages.TaggedRanKeepsCore` | arqmamq/worker.cpp:199-263 | RAN from a tagged worker keeps every invariant |
| `SchedulerMessages.WorkerMessageKeepsCore` | arqmamq/worker.cpp:178-270 | any worker message keeps every invariant |
| `SchedulerMessages.TaggedMessageKeepsCore` | arqmamq/worker.cpp:178-270 | any message of a tagged worker keeps every invariant |
| `SchedulerMessages.ReceiveKeeps` | arqmamq/worker.cpp:17-50 | a worker thread's receipt of RUN or QUIT is one its state expects |
| `SchedulerMessages.TaggedReceiveKeeps` | arqmamq/worker.cpp:78-90 | a tagged thread's receipt of START, RUN or QUIT is one its state expects |
| `SchedulerMessages.WorkerReceiveKeepsCore` | arqmamq/worker.cpp:94-100 | a worker thread's receive step keeps every invariant |
| `SchedulerMessages.WorkerFinishKeepsCore` | arqmamq/worker.cpp:102-158 | a worker thread's finishing of its job keeps every invariant |
| `SchedulerShutdown.LoadsOnlyBetweenJobs` | arqmamq/worker.cpp:272-277 | from the moment a record, ordinary or tagged, is given a job until its report is read, no event but its own thread's touches the record or its channels |
| `SchedulerShutdown.ProtocolOverRuns` | arqmamq/worker.cpp:258-266 | in every run RUN finds its thread waiting, no thread is sent QUIT twice or before QUIT, and a joined thread was sent QUIT exactly once and has exited |
| `SchedulerShutdown.ShutdownAdvances` | arqmamq/proxy.cpp:455-460 | while quitting, every thread step and every worker message brings shutdown strictly closer |
| `SchedulerShutdown.ShutdownNeverReverts` | arqmamq/proxy.cpp:293-304 | while quitting, no other event sets shutdown back |
| `SchedulerShutdown.ShutdownNeverStuck` | arqmamq/proxy.cpp:453-490 | while some thread is not joined, some step that advances shutdown is possible |
| `SchedulerShutdown.ShutdownDone` | arqmamq/proxy.cpp:456-459 | the steps run out exactly when every thread has been joined, which is when the proxy quits |
| `SchedulerShutdown.ShutdownOverRuns` | arqmamq/proxy.cpp:453-490 | from QUIT on a run contains at most `TotalLeft` thread steps and worker messages; after that many, and whenever none is possible, every thread has exited and been joined after exactly one QUIT |
| `SchedulerShutdown.ShutdownStep` | arqmamq/proxy.cpp:455-460 | while quitting, a step uses up what is left exactly when it is a thread step or a worker message |
| `SchedulerProxy.JobBatch.constructor` | arqmamq/batch.h:160-166 | an empty batch |
| `SchedulerProxy.JobBatch.AddJob` | arqmamq/batch.h:185-211 | keeps every job outstanding while the batch is put together, so it stays a batch as submitted, with one job more; in-proxy jobs are refused |
| `SchedulerProxy.JobBatch.SetCompletion` | arqmamq/batch.h:194-200 | keeps the jobs outstanding, and sets the completion and its thread at most once |
| `SchedulerProxy.JobBatch.Finished` | arqmamq/batch.h:241-248 | lowers the outstanding count and says whether the batch runs on, needs its completion, or is done |
| `SchedulerProxy.CountsDown` | arqmamq/batch.h:241-248 | a submitted batch runs on until exactly as many jobs have returned as it has, and then completes or is done |
| `SchedulerProxy.Proxy.constructor` | arqmamq/proxy.cpp:327-349 | the state after startup, with default reservations filled in |
| `SchedulerProxy.Proxy.GetIdleWorker` | arqmamq/worker.cpp:163-176 | pops the most recently idled worker or appends a new record |
| `SchedulerProxy.Proxy.RunWorker` | arqmamq/worker.cpp:272-277 | spawns the thread or sends it RUN |
| `SchedulerProxy.Proxy.LaunchJob` | arqmamq/arqmamq.cpp:341-384 | loads the record of the worker taken and sets it going |
| `SchedulerProxy.Proxy.StartTask` | arqmamq/worker.cpp:356-372 | one worker more holds the command, and its category counts it |
| `SchedulerProxy.Proxy.AdmitTask` | arqmamq/worker.cpp:384-406 | has the effect of an arrival, which `AdmissionOutcome` describes |
| `SchedulerProxy.Proxy.RunBatchJobs` | arqmamq/jobs.cpp:45-52 | the loop refines the job drain |
| `SchedulerProxy.Proxy.RunTagged` | arqmamq/proxy.cpp:667-675 | the loop refines the pass over the tagged workers |
| `SchedulerProxy.Proxy.StartPendingTask` | arqmamq/proxy.cpp:688-692 | starts one pending command and takes it off the list |
| `SchedulerProxy.Proxy.RunPending` | arqmamq/proxy.cpp:684-696 | the loop refines the pass over the pending commands |
| `SchedulerProxy.Proxy.DrainQueues` | arqmamq/proxy.cpp:663-697 | refines the whole drain |
| `SchedulerProxy.Proxy.SubmitJobs` | arqmamq/jobs.cpp:7-26 | takes over a batch as `AddJob` and `SetCompletion` leave it, refuses one without jobs, and otherwise its loop refines the submission |
| `SchedulerProxy.Proxy.ScheduleReplyJob` | arqmamq/jobs.cpp:37-43 | refines the queueing of a reply job |
| `SchedulerProxy.Proxy.QueueTimerJob` | arqmamq/jobs.cpp:81-119 | refines a timer firing |
| `SchedulerProxy.Proxy.QueueCompletionJob` | arqmamq/worker.cpp:235-241 | has the effect of the queueing of a completion, which `FinishPushed` describes |
| `SchedulerProxy.Proxy.RunCompletion` | arqmamq/jobs.cpp:105-112 | a timer batch's completion lets its timer fire again |
| `SchedulerProxy.Proxy.FinishJob` | arqmamq/worker.cpp:212-253 | refines what the end of a batch job leads to, and says whether the record is reset |
| `SchedulerProxy.Proxy.HandleWorkerMessage` | arqmamq/worker.cpp:178-270 | refines the handling of a worker message |
| `SchedulerProxy.Proxy.SettleWorker` | arqmamq/worker.cpp:201-257 | refines the counting down of the class and the end of the job |
| `SchedulerProxy.Proxy.HandleTaggedMessage` | arqmamq/worker.cpp:178-270 | refines the handling of a tagged worker's message |
| `SchedulerProxy.Proxy.SettleTaggedWorker` | arqmamq/worker.cpp:201-253 | refines the end of a tagged worker's job |
| `SchedulerProxy.Proxy.QuitIdleWorkers` | arqmamq/proxy.cpp:298-300 | the loop sends QUIT to each idle worker once |
| `SchedulerProxy.Proxy.QuitTaggedWorkers` | arqmamq/proxy.cpp:301-303 | the loop sends QUIT to each tagged worker that is not busy once |
| `SchedulerProxy.Proxy.QuitWorkers` | arqmamq/proxy.cpp:293-304 | refines QUIT |
| `SchedulerProxy.Proxy.Handle` | arqmamq/proxy.cpp:481-541 | every message, timer and thread step has exactly the effect of the event of the run theorems |
| `SchedulerLoop.NoneJoinable` | arqmamq/proxy.cpp:456-457 | decides whether every thread has been joined |
| `SchedulerLoop.HandleAll` | arqmamq/proxy.cpp:481-489 | the loop over waiting messages has the effect of their events in order, and stays in its phase |
| `SchedulerLoop.LoopPass` | arqmamq/proxy.cpp:453-545 | a pass quits if and only if it is quitting and every thread is joined; otherwise it has the effect of its messages in the order of the phases with the drain between timers and incoming messages, and leads from states of runs to states of runs |
| `SchedulerLoop.AfterBoth` | arqmamq/proxy.cpp:481-541 | a sequence of events can happen and leads where its parts, one after the other, can and lead |
| `SchedulerLoop.AfterReachable` | arqmamq/proxy.cpp:453-545 | whatever can happen after a state of a run is a state of a run |
| `SchedulerLoop.PhaseKept` | arqmamq/proxy.cpp:453-545 | only the loop itself moves on to its next phase |
| `BencodeSkip.SkipAgrees` | arqmamq/bt_serialize.cpp:162-201 | for every byte string, valid or malformed, skipping succeeds exactly when the full parser does, and both leave the same rest |
| `BencodeSkip.SkipItemsAgrees` | arqmamq/bt_serialize.cpp:175-186 | the same for the inside of a list |
| `BencodeSkip.SkipEntriesAgrees` | arqmamq/bt_serialize.cpp:188-201 | the same for the inside of a dict |
| `BencodeNumbers.ReadsExactlyWhenItFits` | arqmamq/bt_serialize.cpp:36-50 | a digit string is read as the number it denotes if and only if that number is below 2^64 |
| `BencodeNumbers.ReadsModulo` | arqmamq/bt_serialize.cpp:42-49 | whatever digit string is accepted is read as its number modulo 2^64 |
| `BencodeNumbers.AcceptedExactly` | arqmamq/bt_serialize.cpp:36-50 | a digit string is accepted, as its number modulo 2^64, if and only if the residues of its ever longer beginnings never decrease |
| `BencodeNumbers.OversizedAccepted` | arqmamq/bt_serialize.cpp:43-46 | an oversized number that the wrap test lets through as another number |
| `BencodeNumbers.PrintNatDigits` | arqmamq/bt_serialize.h:109-116 | the printed decimal digits denote the number |
| `BencodeNumbers.ParseStringPrinted` | arqmamq/bt_serialize.cpp:52-66 | a printed string parses back and leaves exactly what follows |
| `BencodeNumbers.ParseIntegerPrinted` | arqmamq/bt_serialize.cpp:76-97 | every integer from -2^63 to 2^64-1 parses back from its encoding |
| `BencodeRoundTrip.RoundTrip` | arqmamq/bt_serialize.cpp:102-133 | parsing the encoding of any nested value followed by anything yields the value, with non-negative integers unsigned and views as strings, and leaves exactly what follows |
| `BencodeRoundTrip.ItemsRoundTrip` | arqmamq/bt_serialize.h:290-317 | the same for the items of a list |
| `BencodeRoundTrip.EntriesRoundTrip` | arqmamq/bt_serialize.h:221-262 | the same for the entries of a dict |
| `BencodeRoundTrip.PrefixFree` | arqmamq/bt_serialize.h:108-145 | no encoding is a prefix of another: equal data come from the same value and the same remainder |
| `BencodeRoundTrip.ParsedIsWellFormed` | arqmamq/bt_serialize.cpp:102-133 | whatever the parser accepts can be written again, with sorted distinct keys and integers in range |
| `BencodeRoundTrip.CollectKeepsSorted` | arqmamq/bt_serialize.h:251-257 | inserting entries in any order leaves a sorted dict of entries that were given |
| `BencodeDicts.CollectFirst` | arqmamq/bt_serialize.h:251-257 | a dict holds for each key the first value that came with it, in whatever order the keys came |
| `BencodeDicts.ParsedDict` | arqmamq/bt_serialize.h:240-262 | a parsed dict is sorted and holds for each key the first value in the text |
| `BencodeDicts.Examples` | arqmamq/bt_serialize.h:109-235 | the printed texts of the examples in BEP 3 |
| `BencodeGrammar.ParsesExactly` | arqmamq/bt_serialize.cpp:101-133 | on any byte string the parser reads a value and leaves a remainder if and only if the grammar (leading zeroes, keys in any order, residues of oversized numbers) spells that value with what is before the remainder |
| `BencodeGrammar.Accepts` | arqmamq/bt_serialize.cpp:52-97 | every derivation of the grammar is read as what it means, whatever follows it |
| `BencodeGrammar.Derives` | arqmamq/bt_serialize.cpp:52-97 | whatever the parser accepts has a derivation with that value and that remainder |
| `BencodeRoundTrip.CanonicalIdempotent` | arqmamq/bt_serialize.h:220-262 | writing what was parsed gives an encoding that parses and writes to itself |
| `BencodeSeek.SeekStops` | arqmamq/bt_serialize.h:858-864 | a seek stops at the first key not below the one sought and says whether it is that key |
| `BencodeSeek.QueriesMatch` | arqmamq/bt_serialize.h:858-864 | from any position, ascending queries give what lookup gives |
| `BencodeSeek.SeekIsLookup` | arqmamq/bt_serialize.h:858-864 | on the encoding of any dict, ascending non-empty keys queried in turn hit exactly where map lookup does, with the same values |
| `BencodeSeek.EmptyKeySeek` | arqmamq/bt_serialize.h:858-864 | seeking the empty key says found exactly at an empty key or at the end of the dict |
| `BencodeConsumers.ReadUnsigned` | arqmamq/bt_serialize.cpp:36-50 | the digit loop computes the wrapped number, with the wrap test |
| `BencodeConsumers.ReadString` | arqmamq/bt_serialize.cpp:52-66 | refines the string parser |
| `BencodeConsumers.ReadInteger` | arqmamq/bt_serialize.cpp:76-97 | refines the integer parser |
| `BencodeConsumers.ReadList` | arqmamq/bt_serialize.h:299-317 | the element loop refines the list parser |
| `BencodeConsumers.ReadDict` | arqmamq/bt_serialize.h:240-262 | the entry loop refines the dict parser |
| `BencodeConsumers.ReadValue` | arqmamq/bt_serialize.cpp:102-133 | refines the value parser |
| `BencodeConsumers.ListConsumer.constructor` | arqmamq/bt_serialize.cpp:138-142 | stands just inside the list |
| `BencodeConsumers.ListConsumer.ConsumeStringView` | arqmamq/bt_serialize.cpp:146-155 | consumes a string, and moves only if it succeeds |
| `BencodeConsumers.ListConsumer.Skip` | arqmamq/bt_serialize.cpp:162-173 | refines the skipper |
| `BencodeConsumers.ListConsumer.ConsumeListData` | arqmamq/bt_serialize.cpp:175-186 | the loop skips a whole list and returns exactly the text it covered |
| `BencodeConsumers.ListConsumer.ConsumeDictData` | arqmamq/bt_serialize.cpp:188-201 | the loop skips a whole dict and returns exactly the text it covered |
| `BencodeConsumers.DictConsumer.constructor` | arqmamq/bt_serialize.cpp:203-208 | stands just inside the dict with no key read |
| `BencodeConsumers.DictConsumer.ReadKey` | arqmamq/bt_serialize.cpp:210-219 | caches the next key, reports the end, or throws |
| `BencodeConsumers.DictConsumer.Seek` | arqmamq/bt_serialize.h:858-864 | the loop refines the seek |
| `BencodeConsumers.DictConsumer.Next` | arqmamq/bt_serialize.h:775-799 | consumes the value at the cached key and forgets the key |
| `SendOptions.OptionsWritten` | arqmamq/arqmamq.h:1162-1214 | after any options the dict holds, under each key, the last one given for it |
| `SendOptions.BuildWrites` | arqmamq/arqmamq.h:1218-1232 | a built send holds exactly the destination, the parts, the request details and the last option of each kind |
| `SendOptions.KeysAscend` | arqmamq/proxy.cpp:59-108 | the keys the proxy asks for ascend, with and without a request |
| `SendOptions.AnswersAreWritten` | arqmamq/proxy.cpp:59-108 | every question of the proxy is answered with what was written under that key |
| `SendOptions.SendRecovered` | arqmamq/proxy.cpp:44-108 | reading back any built send or request gives exactly what the caller asked for: each option as the last one of its kind says, defaults where there is none, and the message parts in order |
| `SendOptions.ReadOutIsAsked` | arqmamq/arqmamq.h:1162-1232 | what the proxy reads under its keys is what the options mean, the last of each kind winning, with the command, the tag and the message parts in order |
| `SendReading.AcceptedExactly` | arqmamq/proxy.cpp:44-108 | the proxy accepts a control dict if and only if it names one destination and not two, has a message, has callback and tag if a reply is wanted, and each value it asks for has its type; otherwise it throws |
| `SendProxy.BuildControl` | arqmamq/arqmamq.h:1218-1232 | the option loop refines the built dict |
| `SendProxy.BuildRequest` | arqmamq/arqmamq.h:1316-1324 | adds the request details, with the tag as first part |
| `SendProxy.Ask` | arqmamq/proxy.cpp:59-108 | seek-and-consume in turn refines the query sequence |
| `SendProxy.ReadControl` | arqmamq/proxy.cpp:44-108 | refines the reading of a control message, failing where the proxy throws |
| `BitPacking.LoadBounded` | arqmamq/base32z.h:79-103 | the encoder's register holds no more bits than its counter says and always fits sixteen bits |
| `BitPacking.AbsorbBounded` | arqmamq/base32z.h:147-160 | the decoder's register holds no more bits than its counter says, its counter stays below eight, and sixteen bits are enough |
| `BitPacking.DecoderBounded` | arqmamq/base64.h:176-199 | the same along a whole decoding of any digits, with the number of whole bytes it yields |
| `BitPacking.EncoderBounded` | arqmamq/base64.h:81-100 | the same along a whole encoding, with every bit accounted for |
| `BitPacking.PackLength` | arqmamq/base32z.h:106-112 | the number of digits is the bits rounded up to whole digits |
| `BitPacking.KeepsInStep` | arqmamq/base32z.h:79-103 | along any input, encoder and decoder registers together hold exactly the byte split between them |
| `BitPacking.RoundTrip` | arqmamq/base64.h:176-199 | unpacking undoes packing for every byte string and every digit width used |
| `BitPacking.PackValue` | arqmamq/base64.h:81-119 | the digits spell the bytes' own number, padded with zero bits to a whole digit |
| `BaseCodecs.Alphabet32` | arqmamq/base32z.h:43-70 | decoding inverts the 32 letters |
| `BaseCodecs.Digits32` | arqmamq/base32z.h:120-128 | the validity test accepts exactly the alphabet, in either case |
| `BaseCodecs.AnyCase32` | arqmamq/base32z.h:57-65 | a letter and its upper case have the same value |
| `BaseCodecs.Alphabet64` | arqmamq/base64.h:42-72 | decoding inverts the 64 letters |
| `BaseCodecs.DecodersBounded` | arqmamq/base32z.h:147-160 | for every text, valid or not, each of the three decoders keeps its register within its counter and yields exactly the whole bytes it was fed |
| `BaseAlphabets.Letters32` | arqmamq/base32z.h:43-56 | the letters are those of z-base-32 |
| `BaseAlphabets.Letters64` | arqmamq/base64.h:42-66 | the letters are those of section 4 of RFC 4648 |
| `BaseAlphabets.Valid64` | arqmamq/base64.h:137-157 | the test accepts the letters of RFC 4648 and no other character |
| `BaseAlphabets.Base64Exactly` | arqmamq/base64.h:137-157 | a text is valid base64 if and only if it is letters followed by at most two padding characters that complete a group of four |
| `BaseCodecs.HexRoundTrip` | arqmamq/hex.h:66-73 | hex decodes to the bytes it was made from, is accepted, and has two digits a byte |
| `BaseCodecs.Base32zRoundTrip` | arqmamq/base32z.h:79-103 | for every byte string decode(encode(b)) = b, the encoding is accepted, and its length is ceil(8n/5) |
| `BaseCodecs.Base32zAnyCase` | arqmamq/base32z.h:120-128 | decoding and validity ignore letter case, for every text |
| `BaseCodecs.Base32zMeans` | arqmamq/base32z.h:79-103 | the letters spell the bytes' bits in order |
| `BaseCodecs.Base64RoundTrip` | arqmamq/base64.h:81-119 | for every byte string decode(encode(b)) = b with and without padding, the encoding is accepted, and its length is 4 ceil(n/3) |
| `BaseCodecs.Base64Means` | arqmamq/base64.h:81-119 | the letters before the padding spell the bytes' bits in order, as in section 4 of RFC 4648 |
| `BaseLoops.ToBase32z` | arqmamq/base32z.h:79-103 | the loop computes the base32z text |
| `BaseLoops.ToBase64` | arqmamq/base64.h:81-119 | the loop computes the padded base64 text |
| `BaseLoops.LeftOver` | arqmamq/base64.h:103-118 | the bits left in the register tell the size of the last group |
| `BaseLoops.CheckBase32z` | arqmamq/base32z.h:120-128 | the loop decides validity |
| `BaseLoops.CheckBase64` | arqmamq/base64.h:137-157 | the loop decides validity: at most two padding characters, only up to a multiple of four |
| `BaseLoops.FromBase32z` | arqmamq/base32z.h:147-160 | the loop decodes |
| `BaseLoops.FromBase64` | arqmamq/base64.h:176-199 | the loop decodes, passing over padding |
| `BaseLoops.ToHexText` | arqmamq/hex.h:66-73 | the loop over nibbles computes the text that packing four bits at a time spells |
| `BaseLoops.CheckHex` | arqmamq/hex.h:95-113 | the loop decides validity: an even number of digits of either case |
| `BaseLoops.FromHexText` | arqmamq/hex.h:129-137 | the loop over pairs decodes |
| `AddressRoundTrip.KeyDecodes` | arqmamq/address.cpp:24-41 | a 32-byte key is recognised by the length of its text and decoded from each of the four encodings |
| `AddressRoundTrip.TcpParses` | arqmamq/address.cpp:46-110 | host, port and key of a TCP address are parsed back |
| `AddressRoundTrip.UnixByLength` | arqmamq/address.cpp:115-140 | a key after a socket path is never taken for a longer one, since the separator would be inside it |
| `AddressRoundTrip.UnixParses` | arqmamq/address.cpp:115-140 | socket path and key are parsed back, also when a base64 key contains a slash |
| `AddressRoundTrip.FullAddressRoundTrip` | arqmamq/address.cpp:225-260 | for every well-formed address and each key encoding, parsing the printed address gives an equal address |
| `AddressGrammar.AddressExactly` | arqmamq/address.cpp:142-182 | a text is accepted as an address if and only if the grammar (scheme spellings, bracketed or plain host, decimal port, key encodings by length) spells that address |
| `AddressGrammar.TcpExactly` | arqmamq/address.cpp:46-110 | exactly which texts after the scheme are a host, port and key |
| `AddressGrammar.UnixExactly` | arqmamq/address.cpp:115-140 | exactly which texts after the scheme are a socket path and key |
| `AddressGrammar.SchemeExactly` | arqmamq/address.cpp:150-164 | exactly which spellings stand for which protocol, "tcp+curve" and "curve" for the same one |
| `AddressGrammar.PrintedScheme` | arqmamq/address.cpp:225-260 | an address is printed under one spelling of its scheme |
| `AddressGrammar.AcceptedIsWellFormed` | arqmamq/address.cpp:115-140 | an accepted address is well formed if and only if it is not a socket path whose key ends in two padding characters |
| `AddressGrammar.ShortKeyAccepted` | arqmamq/address.cpp:115-140 | a path accepted with a key of 31 bytes |
| `AddressGrammar.PrintedAgain` | arqmamq/address.cpp:225-260 | printing any other accepted address and parsing that gives the same address again |
| `AddressGrammar.EqualExactly` | arqmamq/address.cpp:308-320 | two well-formed addresses are equal if and only if they are printed alike, in whichever encoding |
| `AddressQr.QrRoundTrip` | arqmamq/address.cpp:278-306 | parsing the QR-friendly form gives the address with its host in lower case, if and only if the host is bracketed or spelled in QR characters and does not start with $ |
| `AddressQr.QrUnfriendlyHost` | arqmamq/address.cpp:166-174 | a plain host whose QR form does not parse |
| `AddressQr.DollarLost` | arqmamq/address.cpp:49-62 | a leading $ is read as an IPv6 literal |
| `AddressParser.LowerCase` | arqmamq/address.cpp:73-77 | the loop lower-cases in place |
| `AddressParser.UpperCase` | arqmamq/address.cpp:287-290 | the loop upper-cases in place |
| `AddressParser.CheckQr` | arqmamq/address.cpp:166-174 | the loop accepts exactly the QR-friendly texts |
| `AddressParser.ScanWhile` | arqmamq/address.cpp:50-50 | the search finds the longest start of allowed characters |
| `AddressParser.FindSeparator` | arqmamq/address.cpp:143-143 | the search finds the first `://` |
| `AddressParser.ReadDecimal` | arqmamq/address.cpp:88-88 | the loop computes the number the digits denote |
| `AddressParser.ReadPubkey` | arqmamq/address.cpp:24-41 | refines the key parser |
| `AddressParser.ReadHost` | arqmamq/address.cpp:49-71 | refines the host parser |
| `AddressParser.ReadPort` | arqmamq/address.cpp:79-94 | refines the port parser |
| `AddressParser.ReadTcp` | arqmamq/address.cpp:46-110 | refines the TCP parser |
| `AddressParser.ReadUnix` | arqmamq/address.cpp:115-140 | refines the socket-path parser |
| `AddressParser.ReadAddress` | arqmamq/address.cpp:142-182 | refines the address parser, failing where it throws |
| `AddressParser.PrintKey` | arqmamq/address.cpp:204-223 | refines the key printer |
| `AddressParser.PrintAddress` | arqmamq/address.cpp:225-260 | refines the address printer |
| `AddressParser.PrintQr` | arqmamq/address.cpp:278-306 | refines the QR printer, failing where it throws |
| `ConnectionInvariant.CloseResolves` | arqmamq/connections.cpp:187-220 | closing removes from a table exactly the references to the closed socket, and every other entry still names the socket it named |
| `ConnectionInvariant.OnlyOneErased` | arqmamq/connections.cpp:187-199 | when one entry refers to the closed socket, nothing else is erased and an iterator past it stays valid |
| `ConnectionInvariant.CloseKeeps` | arqmamq/connections.cpp:204-220 | closing any outgoing connection keeps the whole table invariant and the listeners where they are |
| `ConnectionSteps.OpenKeeps` | arqmamq/connections.cpp:148-157 | a new socket with its id and peer entry keeps the table invariant |
| `ConnectionSteps.NewNode` | arqmamq/connections.cpp:93-116 | a new connection to a node is opened only when no connection has its id |
| `ConnectionSteps.ConnectSnKeeps` | arqmamq/connections.cpp:88-160 | connecting to a service node keeps the table invariant (`ConnectSnExact` says what it does) |
| `ConnectionExact.ConnectSnExact` | arqmamq/connections.cpp:88-160 | the first connection that the restrictions allow is used, an outgoing one starting its idle time anew with the longer of both limits; if there is none, one is opened exactly when neither an optional nor an incoming one was asked for and the node is reachable; nothing else changes |
| `ConnectionExact.OpensExactly` | arqmamq/connections.cpp:88-160 | the number of sockets grows, by one, if and only if no allowed connection exists, one may be opened, and the node is reachable |
| `ConnectionExact.ConnectRemoteExact` | arqmamq/connections.cpp:322-345 | any other connection is opened with its connect pending until its time is up, or its callback is told of the failure; nothing else changes |
| `ConnectionExact.IncomingExact` | arqmamq/worker.cpp:294-309 | a route of a service node is noted once: the first message adds an entry, and later ones change nothing |
| `ConnectionExact.DisconnectExact` | arqmamq/connections.cpp:368-380 | disconnecting closes the outgoing connection to the id and no other, and does nothing without one |
| `ConnectionSteps.ConnectRemoteKeeps` | arqmamq/connections.cpp:286-350 | connecting to a remote keeps the table invariant, connected or failed |
| `ConnectionSteps.IncomingKeeps` | arqmamq/worker.cpp:294-309 | a peer entry for an active node's incoming message keeps the table invariant |
| `ConnectionSteps.DropPeerKeeps` | arqmamq/proxy.cpp:235-248 | forgetting an incoming peer keeps the table invariant |
| `ConnectionSteps.PeerExists` | arqmamq/worker.cpp:286-292 | every outgoing connection's id has a peer entry |
| `ConnectionSteps.HelloKeeps` | arqmamq/proxy.cpp:601-625 | HELLO keeps the table invariant and always completes a pending connect |
| `ConnectionSteps.DisconnectKeeps` | arqmamq/connections.cpp:368-380 | a disconnect keeps the table invariant and leaves no outgoing peer of that id |
| `ConnectionSteps.OneOutgoing` | arqmamq/connections.cpp:93-116 | no id has two outgoing peer entries |
| `ConnectionSweeps.SweepExact` | arqmamq/connections.cpp:222-242 | a walk that closes connections keeps exactly the peers it does not pick, in order, each on its socket |
| `ConnectionSweeps.ExpireIdleKeeps` | arqmamq/connections.cpp:222-242 | expiry closes exactly the idle outgoing connections and keeps the table invariant |
| `ConnectionSweeps.RemoveNodeKeeps` | arqmamq/auth.cpp:175-188 | removing a node leaves no peer entry of it, touches no other peer, and keeps the table invariant |
| `ConnectionSweeps.TimedOutKeeps` | arqmamq/connections.cpp:261-264 | failing and closing one overdue connect erases nothing else and keeps the table invariant |
| `ConnectionSweeps.CleanPendingExact` | arqmamq/connections.cpp:259-268 | exactly the overdue connects fail, each once and in order; the others stay |
| `ConnectionRuns.StartupKeeps` | arqmamq/proxy.cpp:357-380 | startup puts the listeners at the lowest indices, in order, and establishes the table invariant |
| `ConnectionRuns.StepKeeps` | arqmamq/proxy.cpp:601-635 | every connection event keeps the table invariant and the listeners |
| `ConnectionRuns.RunKeeps` | arqmamq/proxy.cpp:453-545 | from startup on, over any run, the tables agree and the listeners stay where startup put them |
| `ConnectionRuns.OutgoingPeers` | arqmamq/connections.cpp:88-160 | in any state of a run each index past the listeners has exactly one peer, outgoing and under that connection's id, and no id has two outgoing peers |
| `ConnectionRuns.CallbacksOnce` | arqmamq/connections.cpp:259-268 | over any run no connect callback is called twice or while its connect is pending, and success names its own connection |
| `ConnectionCallbacks.CallbacksAccounted` | arqmamq/connections.cpp:322-345 | over any run a connection number was requested if and only if its connect is pending, its callback was called, or its connection was closed by a goodbye, a disconnect or idle expiry while pending; the three exclude each other |
| `ConnectionOutcomes.CallsOverRuns` | arqmamq/connections.cpp:259-345 | over any run a connect succeeds exactly on a HELLO of its connection while pending, and fails exactly when its connection cannot be opened or a cleanup finds it late |
| `ConnectionOutcomes.WaitsOverRuns` | arqmamq/connections.cpp:337-340 | what is pending was requested, and has until the time it was given |
| `ConnectionOutcomes.StepCalls` | arqmamq/proxy.cpp:601-625 | which callbacks an event calls, and that nothing becomes pending but a connect that was opened |
| `ConnectionOutcomes.ExpiresExactly` | arqmamq/connections.cpp:222-241 | expiry spares exactly the incoming peers and those whose idle time has not passed |
| `ConnectionCallbacks.StepAccounted` | arqmamq/connections.cpp:204-268 | a pending connect disappears without a call exactly on the goodbye of its own connection, the disconnect of its own id, or the expiry of its own idle peer |
| `ConnectionCallbacks.ClosePending` | arqmamq/connections.cpp:204-220 | closing a connection takes away exactly the pending connect of that connection |
| `ConnectionCallbacks.ExpirePending` | arqmamq/connections.cpp:222-241 | idle expiry takes a pending connect away exactly when its own peer is idle |
| `ConnectionCallbacks.CleanPendingLive` | arqmamq/connections.cpp:259-268 | the timeout pass turns pending connects into calls and loses none |
| `ConnectionCallbacks.RemoveNodesPending` | arqmamq/auth.cpp:170-192 | taking service nodes off the active set touches no pending connect |
| `ActiveNodes.Unchanged` | arqmamq/auth.cpp:108-111 | nothing added and equal sizes mean the set is unchanged |
| `ActiveNodes.EarlyExit` | arqmamq/auth.cpp:112-117 | once the sizes balance every node that must go has been found |
| `ActiveNodes.RemovedPeersGone` | arqmamq/auth.cpp:170-188 | after removals the active set has lost exactly those nodes and no peer entry of any of them is left |
| `ActiveNodes.UpdateActive` | arqmamq/auth.cpp:170-193 | an update leaves the old set without the removed and with the added, and no peer of a removed node |
| `ConnectionProxy.UpdateConnectionIndices` | arqmamq/connections.cpp:187-199 | the erase-or-decrement loop renumbers a table |
| `ConnectionProxy.Proxy.Start` | arqmamq/proxy.cpp:357-380 | the loop opens the listeners |
| `ConnectionProxy.Proxy.CloseConnection` | arqmamq/connections.cpp:204-220 | refines closing: all five tables |
| `ConnectionProxy.Proxy.FindUsable` | arqmamq/connections.cpp:93-100 | the loop finds the first connection the restrictions allow |
| `ConnectionProxy.Proxy.ConnectServiceNode` | arqmamq/connections.cpp:88-160 | has the effect that `ConnectSnExact` describes; a connection is returned if and only if an allowed one existed or one could be opened, and it is a valid socket and route of that node |
| `ConnectionProxy.Proxy.ConnectToRemote` | arqmamq/connections.cpp:322-349 | refines connecting to a remote |
| `ConnectionProxy.Proxy.NoteIncoming` | arqmamq/worker.cpp:294-309 | the loop adds a peer entry for a route that has none |
| `ConnectionProxy.Proxy.HandleHello` | arqmamq/proxy.cpp:601-625 | refines HELLO |
| `ConnectionProxy.Proxy.DisconnectFrom` | arqmamq/connections.cpp:368-380 | refines a disconnect |
| `ConnectionProxy.Proxy.ExpireIdlePeers` | arqmamq/connections.cpp:222-242 | the loop refines expiry, its iterator staying valid |
| `ConnectionProxy.Proxy.CleanupConnects` | arqmamq/connections.cpp:259-268 | the loop refines the connect timeouts |
| `ConnectionProxy.Proxy.ForgetNode` | arqmamq/auth.cpp:176-187 | the loop refines the removal of one node |
| `ConnectionProxy.Proxy.UpdateNodesClean` | arqmamq/auth.cpp:170-193 | removes and adds nodes, in whatever order the set is walked |
| `ConnectionProxy.Proxy.FilterKeys` | arqmamq/auth.cpp:97-107 | the loop keeps the keys of 32 bytes and finds the new ones |
| `ConnectionProxy.Proxy.FindRemoved` | arqmamq/auth.cpp:112-117 | the loop, with its early exit, finds every node that must go |
| `ConnectionProxy.Proxy.SetActiveNodes` | arqmamq/auth.cpp:95-119 | the active set becomes the 32-byte keys given; nodes no longer in it lose their peers |
| `ConnectionProxy.Proxy.UpdateActiveNodes` | arqmamq/auth.cpp:137-168 | the active set becomes (active - (removed - added)) + valid added; nodes no longer in it lose their peers |
| `RequestRuns.SendConserves` | arqmamq/proxy.cpp:187-195 | the end of a send loses no callback if and only if the tag is untaken or the message was not sent |
| `RequestRuns.SharedTagLoses` | arqmamq/proxy.cpp:187-195 | two requests under one tag, of which the second one's callback is neither waiting nor fired |
| `RequestRuns.SendKeeps` | arqmamq/proxy.cpp:187-195 | a request under a fresh tag keeps the request invariant |
| `RequestRuns.HandleKeeps` | arqmamq/proxy.cpp:569-590 | any message, with duplicate and unknown tags, keeps the request invariant (`AnswerSettles` says what it does) |
| `RequestRuns.ExpireKeeps` | arqmamq/connections.cpp:270-281 | expiry keeps the request invariant |
| `RequestRuns.ExpireExact` | arqmamq/connections.cpp:270-281 | exactly the overdue requests fail, each once and in order |
| `RequestRuns.RunKeeps` | arqmamq/proxy.cpp:569-659 | the request invariant holds in every state of every run with distinct tags |
| `RequestRuns.CallbacksOverRuns` | arqmamq/proxy.cpp:569-659 | over any run each callback is waiting or was handed to exactly one job, no tag fires twice, and a success carries the data of a received REPLY with the request's own tag |
| `RequestOutcomes.OutcomesOverRuns` | arqmamq/proxy.cpp:569-659 | over any run the callbacks handed over are exactly those of requests not sent (failure, TIMEOUT), answered by a REPLY while they waited (success with its data), refused by an error reply while they waited (failure with the error), or found late (failure, TIMEOUT) |
| `RequestOutcomes.WaitingOverRuns` | arqmamq/proxy.cpp:187-195 | over any run the waiting requests are exactly those that were sent and whose callback has not been handed over |
| `RequestOutcomes.SuccessExactly` | arqmamq/proxy.cpp:569-590 | a sent request succeeds with some data if and only if a REPLY with its tag and that data arrives while it waits |
| `RequestOutcomes.AnswerSettles` | arqmamq/proxy.cpp:569-659 | a REPLY or error reply takes out exactly the waiting request whose tag it bears and hands over its callback as it says |
| `RequestOutcomes.OtherwiseSilent` | arqmamq/proxy.cpp:569-659 | a message that answers no waiting request changes none |
| `RequestProxy.Requests.constructor` | arqmamq/arqmamq.h:330-333 | no requests |
| `RequestProxy.Requests.FinishSend` | arqmamq/proxy.cpp:187-195 | refines the end of a send |
| `RequestProxy.Requests.SettleRequest` | arqmamq/proxy.cpp:575-589 | refines the settling of the request with a tag |
| `RequestProxy.Requests.HandleMessage` | arqmamq/proxy.cpp:569-659 | has the effect that `AnswerSettles` and `OtherwiseSilent` describe |
| `RequestProxy.Requests.ExpireRequests` | arqmamq/connections.cpp:270-281 | the loop refines the request timeouts |

## Left out

- Sockets, polling, encryption set-up, thread names, file modes and logging: foreign calls. Channels are sequences, and time is a number given to each step.
- Admissions during shutdown: runs admit no commands after QUIT. `AdmissionAfterQuit` says what an admission would do.
- Command dispatch by name, access checks and the authentication protocol: each is settled by reading one chain of branches.
- The retry path of a failed send: a send is either sent or not sent, and an incoming peer whose route died is forgotten in a step of its own.
- Job functions, results and exceptions: a job is its identity, and running it is one step of its thread.
- Timer intervals and removal of timers: a timer may fire at any time, and stays.
- The `started` flag of a batch, which nothing sets.
- Order inside unordered maps and sets: new entries go to any position, and sets are walked in any order.
- The clock is read once in a pass that expires peers, where the code reads it for each peer.
- Options with negative durations, which the proxy's reader refuses: durations in `SendOption` are natural numbers.
- Tuple, variant and generic container serialization, and the typed list and dict readers: the value parser covers the format.
- The lookup tables of the alphabets as arrays: they are functions here.
- `set_pubkey`, which checks a length and switches the protocol.
- SchedulerProxy.JobBatch.AddJob: job functions and result slots are not kept, only their number and threads.
- ConnectionRuns.CallbacksOnce: at most one of success and failure, since a closed connection drops both callbacks; `CallbacksAccounted` says which closings do.
- AddressRoundTrip.FullAddressRoundTrip: for well-formed addresses, which are those the parser accepts apart from the short keys above.
