/** The invariants of the scheduler state. */
module SchedulerInvariant {
  import opened Basics
  import opened SchedulerModel
  import opened SchedulerViews
  import opened SchedulerLedger

  // ----- the message protocol between the proxy and each worker thread -----

  predicate Loaded(r: RunInfo) {
    r.CommandRun? || r.BatchRun?
  }

  predicate At(slot: Slot, thread: Thread, inbox: seq<Control>, outbox: seq<Report>) {
    slot.thread == thread && slot.inbox == inbox && slot.outbox == outbox
  }

  /** Waiting for a command with nothing in flight. */
  predicate IdleSlot(slot: Slot) {
    slot.joinable && slot.quits == 0 && At(slot, Waiting, [], [])
  }

  /** A job was loaded: RUN is in flight, or the job is executing, or RAN is in flight. */
  predicate BusySlot(slot: Slot) {
    && slot.joinable && slot.quits == 0 && Loaded(slot.run)
    && (At(slot, Waiting, [RUN], []) || At(slot, Executing, [], []) || At(slot, Waiting, [], [RAN]))
  }

  /** Told to quit once: QUIT is in flight, or QUITTING is. */
  predicate LeavingSlot(slot: Slot) {
    slot.joinable && slot.quits == 1 && (At(slot, Waiting, [QUIT], []) || At(slot, Exited, [], [QUITTING]))
  }

  /** Told to quit once, and joined. */
  predicate GoneSlot(slot: Slot) {
    !slot.joinable && slot.quits == 1 && At(slot, Exited, [], [])
  }

  predicate WorkerOk(slot: Slot, idle: bool, quitting: bool) {
    if idle then IdleSlot(slot)
    else BusySlot(slot) || (quitting && (LeavingSlot(slot) || GoneSlot(slot)))
  }

  /** Tagged threads also pass through a START handshake, which may still be in flight. */
  predicate TaggedOk(tw: TaggedSlot, quitting: bool) {
    var slot := tw.slot;
    if tw.busy then
      && slot.joinable && slot.quits == 0 && slot.run.BatchRun?
      && (At(slot, AwaitingStart, [START, RUN], []) || At(slot, Waiting, [RUN], [])
          || At(slot, Executing, [], []) || At(slot, Waiting, [], [RAN]))
    else if !quitting then
      slot.joinable && slot.quits == 0 && (At(slot, AwaitingStart, [START], []) || At(slot, Waiting, [], []))
    else
      || (slot.joinable && slot.quits == 1
          && (At(slot, AwaitingStart, [START, QUIT], []) || At(slot, Waiting, [QUIT], []) || At(slot, Exited, [], [QUITTING])))
      || GoneSlot(slot)
  }

  predicate ProtocolOk(s: State) {
    && NoDup(s.idle)
    && (s.maxWorkers == 0 ==> s.idle == [])
    && (forall i: nat | i < |s.workers| :: WorkerOk(s.workers[i], i in s.idle, s.maxWorkers == 0))
    && (forall k: nat | k < |s.tagged| :: TaggedOk(s.tagged[k], s.maxWorkers == 0))
  }

  // ----- counters and capacity -----

  /** Each class counter is the number of workers holding a job of that class. */
  ghost predicate CountersOk(s: State) {
    && s.batchActive == Count(Held(s), BatchClass)
    && s.replyActive == Count(Held(s), ReplyClass)
    && (forall c: nat | c < |s.cats| :: s.cats[c].active == Count(Held(s), CatClass(c)))
    && (s.maxWorkers != 0 ==> ActiveWorkers(s) == SumActive(Loads(s)))
  }

  /** What all classes use beyond their reservations fits into the general workers. */
  predicate CapacityOk(s: State) {
    && s.general > 0 && s.batchReserved >= 0 && s.replyReserved >= 0
    && SumExcess(Loads(s)) <= s.general
    && s.capacity == s.general + SumReserved(Loads(s))
    && |s.workers| <= s.capacity
    && (s.maxWorkers == 0 || s.maxWorkers == s.capacity)
  }

  // ----- per-category order -----

  /** The tasks of one category among the pending commands, in order. */
  function TasksOf(q: seq<Pending>, c: nat): seq<Task> {
    if q == [] then []
    else if q[|q| - 1].cat == c then TasksOf(q[..|q| - 1], c) + [q[|q| - 1].task]
    else TasksOf(q[..|q| - 1], c)
  }

  predicate FifoAt(s: State, c: nat)
    requires Shape(s) && c < |s.cats|
  {
    && s.accepted[c] == s.started[c] + TasksOf(s.pending, c)
    && s.cats[c].queued == |TasksOf(s.pending, c)|
    && (s.cats[c].maxQueue >= 0 ==> s.cats[c].queued <= s.cats[c].maxQueue)
  }

  /** Commands of a category have started in the order they were accepted; the rest are still queued. */
  predicate FifoOk(s: State)
    requires Shape(s)
  {
    forall c: nat | c < |s.cats| :: FifoAt(s, c)
  }

  /** No pending command could be started right now. */
  predicate Settled(s: State)
    requires Shape(s)
  {
    forall i | 0 <= i < |s.pending| :: !Dispatchable(s, s.pending[i].cat)
  }

  predicate SettledOk(s: State)
    requires Shape(s)
  {
    s.maxWorkers != 0 && (s.phase == ControlPhase || s.phase == IncomingPhase) ==> Settled(s)
  }

  // ----- batches and timers -----

  function LedgerOf(s: State): Ledger {
    Ledger(Refs(s), s.batches, s.submitted, s.finished, s.nextBatch)
  }

  predicate ThreadsOk(b: Batch, tagged: nat) {
    && (forall j | 0 <= j < |b.threads| :: 0 <= b.threads[j] <= tagged)
    && IN_PROXY <= b.completeIn <= tagged
  }

  /** A batch that belongs to a timer is its only job, and its completion runs in the proxy. */
  predicate TimerBatchOk(b: Batch, timers: map<nat, Timer>) {
    b.timer.Some? ==>
      && b.timer.value in timers && timers[b.timer.value].squelch && timers[b.timer.value].running
      && |b.threads| == 1 && b.complete && b.completeIn == IN_PROXY
  }

  ghost predicate HasBatch(batches: map<nat, Batch>, timer: nat) {
    exists b :: b in batches && batches[b].timer == Some(timer)
  }

  /** A squelched timer is marked running exactly when one live batch belongs to it. */
  ghost predicate TimersOk(timers: map<nat, Timer>, batches: map<nat, Batch>, tagged: nat) {
    && (forall b | b in batches :: ThreadsOk(batches[b], tagged) && TimerBatchOk(batches[b], timers))
    && (forall b, b' | b in batches && b' in batches && batches[b].timer.Some? && batches[b].timer == batches[b'].timer ::
          b == b')
    && (forall t | t in timers :: IN_PROXY <= timers[t].thread <= tagged)
    && (forall t | t in timers && timers[t].running :: HasBatch(batches, t))
  }

  /** What holds at every point of the proxy loop, also inside the drain. */
  ghost predicate Core(s: State): (ok: bool)
    ensures ok ==> Shape(s)
  {
    && Shape(s)
    && ProtocolOk(s)
    && CountersOk(s)
    && CapacityOk(s)
    && FifoOk(s)
    && LedgerOk(LedgerOf(s))
    && TimersOk(s.timers, s.batches, |s.tagged|)
  }

  ghost predicate Inv(s: State): (ok: bool)
    ensures ok ==> Shape(s)
  {
    Core(s) && SettledOk(s)
  }

  lemma KnowsProtocol(s: State)
    requires Core(s)
    ensures ProtocolOk(s)
  {
  }
}
