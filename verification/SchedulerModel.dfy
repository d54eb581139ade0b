/**
 The state the proxy thread keeps for its workers, and what each proxy action does to it.

 Jobs come in classes: batch jobs, reply jobs, and one class per command category.  A job starts
 when its class is below its reservation or fewer than `general` workers are busy.  Worker threads
 are modelled by their control state and by the two message channels that join them to the proxy.
 */
module SchedulerModel {

  import opened Basics

  /** One job of a batch; `jobno` -1 stands for the batch's completion function. */
  datatype JobRef = JobRef(batch: nat, jobno: int)

  const COMPLETION: int := -1
  const IN_PROXY: int := -1

  /** The payload of an accepted remote command or injected task. */
  datatype Task = Task(id: nat, injected: bool)

  datatype Pending = Pending(cat: nat, task: Task)

  /** What a worker record was last loaded with; `ClearedRun` is a batch record reset to null. */
  datatype RunInfo =
    | Unloaded
    | CommandRun(cat: nat, task: Task)
    | BatchRun(ref: JobRef, reply: bool)
    | ClearedRun

  datatype Control = START | RUN | QUIT
  datatype Report = RAN | QUITTING

  datatype Thread = NotSpawned | AwaitingStart | Waiting | Executing | Exited

  /**
   A worker record together with its thread.  `inbox` holds what the proxy sent and the thread has
   not yet received, `outbox` the other direction; `quits` counts the QUIT messages ever sent.
   */
  datatype Slot = Slot(run: RunInfo, joinable: bool, thread: Thread,
                       inbox: seq<Control>, outbox: seq<Report>, quits: nat)

  const FRESH_SLOT: Slot := Slot(Unloaded, false, NotSpawned, [], [], 0)

  datatype TaggedSlot = TaggedSlot(slot: Slot, busy: bool, queue: seq<JobRef>)

  datatype Category = Category(reserved: nat, active: int, maxQueue: int, queued: int)

  /** `threads[i]` is the tagged thread of job i, or 0; `timer` is the timer its completion releases. */
  datatype Batch = Batch(threads: seq<int>, complete: bool, completeIn: int, outstanding: int, timer: Option<nat>)

  datatype Timer = Timer(squelch: bool, running: bool, thread: int)

  /** The proxy loop handles each kind of event in its own phase, in this order. */
  datatype Phase = ControlPhase | WorkerPhase | TimerPhase | IncomingPhase

  /**
   `capacity` is the number of worker records reserved at startup; `maxWorkers` starts equal to it
   and becomes 0 on QUIT.  The last four fields are histories no action reads.
   */
  datatype State = State(
    general: int, batchReserved: int, replyReserved: int, capacity: int, maxWorkers: int,
    workers: seq<Slot>, idle: seq<nat>, tagged: seq<TaggedSlot>,
    cats: seq<Category>, pending: seq<Pending>,
    batchJobs: seq<JobRef>, replyJobs: seq<JobRef>, batchActive: int, replyActive: int,
    batches: map<nat, Batch>, nextBatch: nat, timers: map<nat, Timer>, phase: Phase,
    accepted: seq<seq<Task>>, started: seq<seq<Task>>, submitted: map<nat, Batch>, finished: seq<JobRef>)

  /** Every index held in a table points into the table it is meant for. */
  predicate Shape(s: State) {
    && (forall i | 0 <= i < |s.idle| :: s.idle[i] < |s.workers|)
    && (forall i | 0 <= i < |s.pending| :: s.pending[i].cat < |s.cats|)
    && (forall i | 0 <= i < |s.workers| && s.workers[i].run.CommandRun? :: s.workers[i].run.cat < |s.cats|)
    && |s.accepted| == |s.cats| && |s.started| == |s.cats|
  }

  function ActiveWorkers(s: State): int {
    |s.workers| - |s.idle|
  }

  /** The dispatch test of a class with `active` running jobs and `reserved` reserved threads. */
  predicate HasRoom(s: State, active: int, reserved: int) {
    active < reserved || ActiveWorkers(s) < s.general
  }

  predicate Dispatchable(s: State, cat: nat)
    requires cat < |s.cats|
  {
    HasRoom(s, s.cats[cat].active, s.cats[cat].reserved)
  }

  // ----- handing a job to a worker thread -----

  function RunSlot(slot: Slot): Slot {
    if !slot.joinable then slot.(joinable := true, thread := Executing)
    else slot.(inbox := slot.inbox + [RUN])
  }

  /** Takes the most recently idled worker, or adds a new record; loads it and sets it going. */
  function Launch(s: State, r: RunInfo): (t: State)
    requires Shape(s)
    requires r.CommandRun? ==> r.cat < |s.cats|
    ensures Shape(t)
    ensures t == s.(workers := t.workers, idle := t.idle)
  {
    if s.idle == [] then
      s.(workers := s.workers + [RunSlot(FRESH_SLOT.(run := r))])
    else
      var w := s.idle[|s.idle| - 1];
      s.(idle := s.idle[..|s.idle| - 1], workers := s.workers[w := RunSlot(s.workers[w].(run := r))])
  }

  function StartCommand(s: State, cat: nat, task: Task): (t: State)
    requires Shape(s) && cat < |s.cats|
    ensures Shape(t)
    ensures t == s.(workers := t.workers, idle := t.idle, cats := t.cats, started := t.started)
    ensures |t.cats| == |s.cats|
  {
    var l := Launch(s, CommandRun(cat, task));
    l.(cats := l.cats[cat := l.cats[cat].(active := l.cats[cat].active + 1)],
       started := l.started[cat := l.started[cat] + [task]])
  }

  function JobQueue(s: State, reply: bool): seq<JobRef> {
    if reply then s.replyJobs else s.batchJobs
  }

  function JobActive(s: State, reply: bool): int {
    if reply then s.replyActive else s.batchActive
  }

  function JobReserved(s: State, reply: bool): int {
    if reply then s.replyReserved else s.batchReserved
  }

  function SetJobs(s: State, reply: bool, queue: seq<JobRef>, active: int): State {
    if reply then s.(replyJobs := queue, replyActive := active) else s.(batchJobs := queue, batchActive := active)
  }

  predicate JobDispatchable(s: State, reply: bool) {
    HasRoom(s, JobActive(s, reply), JobReserved(s, reply))
  }

  function StartBatchJob(s: State, reply: bool): (t: State)
    requires Shape(s) && JobQueue(s, reply) != []
    ensures Shape(t)
    ensures t == SetJobs(s, reply, JobQueue(s, reply)[1..], JobActive(s, reply) + 1).(workers := t.workers, idle := t.idle)
  {
    var q := JobQueue(s, reply);
    SetJobs(Launch(s, BatchRun(q[0], reply)), reply, q[1..], JobActive(s, reply) + 1)
  }

  // ----- accepting work -----

  function Accept(s: State, cat: nat, task: Task): (t: State)
    requires Shape(s) && cat < |s.cats|
    ensures Shape(t)
  {
    s.(accepted := s.accepted[cat := s.accepted[cat] + [task]])
  }

  /** Admission of a remote command or an injected task: start it, queue it, or drop it. */
  function Admit(s: State, cat: nat, task: Task): (t: State)
    requires Shape(s) && cat < |s.cats|
    ensures Shape(t)
  {
    var c := s.cats[cat];
    if !Dispatchable(s, cat) then
      if c.maxQueue >= 0 && c.queued >= c.maxQueue then s
      else
        var a := Accept(s, cat, task);
        a.(pending := a.pending + [Pending(cat, task)], cats := a.cats[cat := c.(queued := c.queued + 1)])
    else
      StartCommand(Accept(s, cat, task), cat, task)
  }

  function PushTagged(s: State, thread: nat, ref: JobRef): (t: State)
    requires Shape(s) && 1 <= thread <= |s.tagged|
    ensures Shape(t)
  {
    var tw := s.tagged[thread - 1];
    s.(tagged := s.tagged[thread - 1 := tw.(queue := tw.queue + [ref])])
  }

  /** Queues one job on its tagged thread, or on the batch queue when it has none. */
  function PushJob(s: State, thread: int, ref: JobRef): (t: State)
    requires Shape(s) && 0 <= thread <= |s.tagged|
    ensures Shape(t) && |t.tagged| == |s.tagged|
  {
    if thread > 0 then PushTagged(s, thread, ref) else s.(batchJobs := s.batchJobs + [ref])
  }

  function PushJobs(s: State, id: nat, threads: seq<int>, i: nat): (t: State)
    requires Shape(s) && i <= |threads|
    requires forall j | 0 <= j < |threads| :: 0 <= threads[j] <= |s.tagged|
    ensures Shape(t)
    decreases |threads| - i
  {
    if i == |threads| then s else PushJobs(PushJob(s, threads[i], JobRef(id, i)), id, threads, i + 1)
  }

  /** Takes ownership of a new batch under a fresh identity. */
  function Own(s: State, b: Batch): (t: State)
    requires Shape(s)
    ensures Shape(t)
  {
    s.(batches := s.batches[s.nextBatch := b], submitted := s.submitted[s.nextBatch := b], nextBatch := s.nextBatch + 1)
  }

  function NewBatch(threads: seq<int>, complete: bool, completeIn: int, timer: Option<nat>): Batch {
    Batch(threads, complete, completeIn, |threads|, timer)
  }

  predicate ValidThreads(s: State, threads: seq<int>) {
    threads != [] && forall j | 0 <= j < |threads| :: 0 <= threads[j] <= |s.tagged|
  }

  function SubmitBatch(s: State, threads: seq<int>, complete: bool, completeIn: int): (t: State)
    requires Shape(s) && ValidThreads(s, threads)
    ensures Shape(t)
  {
    PushJobs(Own(s, NewBatch(threads, complete, completeIn, None)), s.nextBatch, threads, 0)
  }

  function ScheduleReply(s: State): (t: State)
    requires Shape(s)
    ensures Shape(t)
  {
    var o := Own(s, NewBatch([0], false, 0, None));
    o.(replyJobs := o.replyJobs + [JobRef(s.nextBatch, 0)])
  }

  function AddTimer(s: State, id: nat, squelch: bool, thread: int): (t: State)
    requires Shape(s)
    ensures Shape(t)
  {
    s.(timers := s.timers[id := Timer(squelch, false, thread)])
  }

  /** A timer fires: skipped while squelched, run in the proxy, or queued as a one-job batch. */
  function FireTimer(s: State, id: nat): (t: State)
    requires Shape(s)
    requires id in s.timers ==> IN_PROXY <= s.timers[id].thread <= |s.tagged|
    ensures Shape(t)
  {
    if id !in s.timers then s
    else
      var tm := s.timers[id];
      if (tm.squelch && tm.running) || tm.thread == IN_PROXY then s
      else
        var m := if tm.squelch then s.(timers := s.timers[id := tm.(running := true)]) else s;
        var b := NewBatch([tm.thread], tm.squelch, if tm.squelch then IN_PROXY else 0,
                          if tm.squelch then Some(id) else None);
        PushJob(Own(m, b), tm.thread, JobRef(s.nextBatch, 0))
  }

  // ----- a worker reports back -----

  function DropBatch(s: State, id: nat): (t: State)
    requires Shape(s)
    ensures Shape(t) && t.tagged == s.tagged
  {
    s.(batches := s.batches - {id})
  }

  function Log(s: State, ref: JobRef): (t: State)
    requires Shape(s)
    ensures Shape(t)
  {
    s.(finished := s.finished + [ref])
  }

  /** What the completion function of a squelched timer does: it lets the timer fire again. */
  function ReleaseTimer(s: State, b: Batch): (t: State)
    requires Shape(s)
    ensures Shape(t)
  {
    if b.timer.Some? && b.timer.value in s.timers then
      s.(timers := s.timers[b.timer.value := s.timers[b.timer.value].(running := false)])
    else s
  }

  /** Outcome of `job_finished` for the batch `b`, whose outstanding count has just been lowered. */
  datatype BatchStatus = Running | Complete(thread: int) | Done

  function JobFinished(b: Batch): (Batch, BatchStatus) {
    var b' := b.(outstanding := b.outstanding - 1);
    (b', if b'.outstanding != 0 then Running else if b.complete then Complete(b.completeIn) else Done)
  }

  /** The new state and whether the batch was deleted; a dangling `ref` changes nothing (and never occurs). */
  function FinishBatchJob(s: State, ref: JobRef, reply: bool): (r: (State, bool))
    requires Shape(s)
    ensures Shape(r.0) && |r.0.tagged| == |s.tagged|
  {
    if ref.batch !in s.batches then (s, false)
    else
      var b := s.batches[ref.batch];
      var l := Log(s, ref);
      if ref.jobno == COMPLETION then (DropBatch(l, ref.batch), true)
      else
        var (b', status) := JobFinished(b);
        var m := l.(batches := l.batches[ref.batch := b']);
        match status
        case Running => (m, false)
        case Done => (DropBatch(m, ref.batch), true)
        case Complete(thread) =>
          if thread == IN_PROXY then
            (DropBatch(ReleaseTimer(Log(m, JobRef(ref.batch, COMPLETION)), b), ref.batch), true)
          else
            (QueueCompletion(m, thread, reply, JobRef(ref.batch, COMPLETION)), false)
  }

  function QueueCompletion(s: State, thread: int, reply: bool, ref: JobRef): (t: State)
    requires Shape(s)
    ensures Shape(t) && |t.tagged| == |s.tagged|
  {
    if 0 < thread <= |s.tagged| then PushTagged(s, thread, ref)
    else if reply then s.(replyJobs := s.replyJobs + [ref])
    else s.(batchJobs := s.batchJobs + [ref])
  }

  function SendQuit(slot: Slot): Slot {
    slot.(inbox := slot.inbox + [QUIT], quits := slot.quits + 1)
  }

  function ClearRun(slot: Slot, clear: bool): Slot {
    if clear then slot.(run := ClearedRun) else slot
  }

  function SetWorker(s: State, w: nat, slot: Slot): (t: State)
    requires Shape(s) && w < |s.workers|
    requires slot.run.CommandRun? ==> slot.run.cat < |s.cats|
    ensures Shape(t)
  {
    s.(workers := s.workers[w := slot])
  }

  /** The counters and batches after the job in worker `w`'s record has run. */
  function SettleJob(s: State, w: nat): (t: State)
    requires Shape(s) && w < |s.workers|
    ensures Shape(t) && |t.workers| == |s.workers|
  {
    match s.workers[w].run
    case BatchRun(ref, reply) =>
      var a := SetJobs(s, reply, JobQueue(s, reply), JobActive(s, reply) - 1);
      var (f, clear) := FinishBatchJob(a, ref, reply);
      SetWorker(f, w, ClearRun(f.workers[w], clear))
    case CommandRun(cat, _) =>
      s.(cats := s.cats[cat := s.cats[cat].(active := s.cats[cat].active - 1)])
    case _ => s
  }

  /** Handles the first message worker `w` has sent: RAN or QUITTING. */
  function WorkerMessage(s: State, w: nat): (t: State)
    requires Shape(s) && w < |s.workers| && s.workers[w].outbox != []
    ensures Shape(t)
  {
    var slot := s.workers[w];
    var m := SetWorker(s, w, slot.(outbox := slot.outbox[1..]));
    match slot.outbox[0]
    case RAN =>
      var f := SettleJob(m, w);
      if s.maxWorkers == 0 then SetWorker(f, w, SendQuit(f.workers[w]))
      else f.(idle := f.idle + [w])
    case QUITTING => SetWorker(m, w, m.workers[w].(joinable := false))
  }

  function SetTagged(s: State, k: nat, tw: TaggedSlot): (t: State)
    requires Shape(s) && k < |s.tagged|
    ensures Shape(t)
  {
    s.(tagged := s.tagged[k := tw])
  }

  function SettleTagged(s: State, k: nat): (t: State)
    requires Shape(s) && k < |s.tagged|
    ensures Shape(t) && |t.tagged| == |s.tagged|
  {
    var tw := s.tagged[k];
    match tw.slot.run
    case BatchRun(ref, reply) =>
      var (f, clear) := FinishBatchJob(SetTagged(s, k, tw.(busy := false)), ref, reply);
      SetTagged(f, k, f.tagged[k].(slot := ClearRun(f.tagged[k].slot, clear)))
    case _ => s
  }

  /** Handles the first message tagged worker `k` has sent. */
  function TaggedMessage(s: State, k: nat): (t: State)
    requires Shape(s) && k < |s.tagged| && s.tagged[k].slot.outbox != []
    ensures Shape(t)
  {
    var tw := s.tagged[k];
    var m := SetTagged(s, k, tw.(slot := tw.slot.(outbox := tw.slot.outbox[1..])));
    match tw.slot.outbox[0]
    case RAN =>
      var f := SettleTagged(m, k);
      if s.maxWorkers == 0 then SetTagged(f, k, f.tagged[k].(slot := SendQuit(f.tagged[k].slot))) else f
    case QUITTING => SetTagged(m, k, m.tagged[k].(slot := m.tagged[k].slot.(joinable := false)))
  }

  // ----- draining the queues -----

  function StartTagged(tw: TaggedSlot): TaggedSlot {
    if !tw.busy && tw.queue != [] then
      TaggedSlot(RunSlot(tw.slot.(run := BatchRun(tw.queue[0], false))), true, tw.queue[1..])
    else tw
  }

  function DrainTagged(s: State, k: nat): (t: State)
    requires Shape(s) && k <= |s.tagged|
    ensures Shape(t)
    decreases |s.tagged| - k
  {
    if k == |s.tagged| then s else DrainTagged(SetTagged(s, k, StartTagged(s.tagged[k])), k + 1)
  }

  function DrainJobs(s: State, reply: bool): (t: State)
    requires Shape(s)
    ensures Shape(t)
    decreases |JobQueue(s, reply)|
  {
    if JobQueue(s, reply) != [] && ActiveWorkers(s) < s.maxWorkers && JobDispatchable(s, reply) then
      DrainJobs(StartBatchJob(s, reply), reply)
    else s
  }

  /** Starts the i-th pending command and takes it off the list. */
  function StartPending(s: State, i: nat): (t: State)
    requires Shape(s) && i < |s.pending|
    ensures Shape(t) && |t.pending| == |s.pending| - 1
  {
    var p := s.pending[i];
    var l := StartCommand(s, p.cat, p.task);
    l.(pending := l.pending[..i] + l.pending[i + 1..],
       cats := l.cats[p.cat := l.cats[p.cat].(queued := l.cats[p.cat].queued - 1)])
  }

  /** The single pass over the pending commands, from position i on. */
  function DrainCommands(s: State, i: nat): (t: State)
    requires Shape(s) && i <= |s.pending|
    ensures Shape(t)
    decreases |s.pending| - i
  {
    if i < |s.pending| && ActiveWorkers(s) < s.maxWorkers then
      if Dispatchable(s, s.pending[i].cat) then DrainCommands(StartPending(s, i), i)
      else DrainCommands(s, i + 1)
    else s
  }

  function ProcessQueue(s: State): (t: State)
    requires Shape(s)
    ensures Shape(t)
  {
    if s.maxWorkers == 0 then s
    else DrainCommands(DrainJobs(DrainJobs(DrainTagged(s, 0), false), true), 0)
  }

  // ----- shutdown -----

  function QuitIdle(s: State, i: nat): (t: State)
    requires Shape(s) && i <= |s.idle|
    ensures Shape(t)
    decreases |s.idle| - i
  {
    if i == |s.idle| then s else QuitIdle(SetWorker(s, s.idle[i], SendQuit(s.workers[s.idle[i]])), i + 1)
  }

  function QuitTagged(s: State, k: nat): (t: State)
    requires Shape(s) && k <= |s.tagged|
    ensures Shape(t)
    decreases |s.tagged| - k
  {
    if k == |s.tagged| then s
    else
      var tw := s.tagged[k];
      QuitTagged(if tw.busy then s else SetTagged(s, k, tw.(slot := SendQuit(tw.slot))), k + 1)
  }

  function Quit(s: State): (t: State)
    requires Shape(s)
    ensures Shape(t)
  {
    QuitTagged(QuitIdle(s.(maxWorkers := 0), 0).(idle := []), 0)
  }

  // ----- what the threads do on their own -----

  /** Receiving a control message: the awaited one starts the thread, QUIT ends it, others are ignored. */
  function Receive(slot: Slot): Slot
    requires slot.inbox != []
  {
    var rest := slot.(inbox := slot.inbox[1..]);
    match (slot.thread, slot.inbox[0])
    case (AwaitingStart, START) => rest.(thread := Waiting)
    case (Waiting, RUN) => rest.(thread := Executing)
    case (_, QUIT) => rest.(thread := Exited, outbox := slot.outbox + [QUITTING])
    case _ => rest
  }

  /** The job in the record has run (whether or not it threw). */
  function Finish(slot: Slot): Slot {
    slot.(thread := Waiting, outbox := slot.outbox + [RAN])
  }

  predicate CanReceive(slot: Slot) {
    (slot.thread == AwaitingStart || slot.thread == Waiting) && slot.inbox != []
  }
}
