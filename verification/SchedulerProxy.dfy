/**
 The proxy's scheduler as it runs: fields updated in place and loops over the queues.  Every method
 is proved to have exactly the effect of the state function of the same action, so what
 SchedulerTheorems and SchedulerShutdown prove of runs holds of these methods.
 */
module SchedulerProxy {
  import opened Basics
  import opened SchedulerModel
  import opened SchedulerRuns

  /** A batch of jobs: put together by its owner, then counted down by the proxy as jobs return. */
  class JobBatch {
    var threads: seq<int>
    var complete: bool
    var completeIn: int
    var outstanding: int
    var timer: Option<nat>

    ghost function View(): Batch
      reads this
    {
      Batch(threads, complete, completeIn, outstanding, timer)
    }

    /** Nothing has finished: every job is outstanding, and none is for the proxy thread. */
    ghost predicate Building()
      reads this
    {
      outstanding == |threads| && forall j | 0 <= j < |threads| :: threads[j] >= 0
    }

    constructor ()
      ensures Building() && View() == NewBatch([], false, 0, None)
    {
      threads, complete, completeIn, outstanding, timer := [], false, 0, 0, None;
    }

    constructor Of(b: Batch)
      ensures View() == b
    {
      threads, complete, completeIn, outstanding, timer := b.threads, b.complete, b.completeIn, b.outstanding, b.timer;
    }

    /** A job for the proxy thread itself is refused; any other becomes the last job of a fresh batch. */
    method AddJob(thread: int) returns (ok: bool)
      requires Building() && thread >= IN_PROXY
      modifies this
      ensures Building() && ok == (thread != IN_PROXY)
      ensures View() == NewBatch(old(threads) + if ok then [thread] else [], old(complete), old(completeIn), old(timer))
    {
      ok := thread != IN_PROXY;
      if ok {
        threads := threads + [thread];
        outstanding := outstanding + 1;
      }
    }

    /** The completion function can be set once. */
    method SetCompletion(thread: int) returns (ok: bool)
      requires Building()
      modifies this
      ensures Building() && complete && ok == !old(complete)
      ensures View() == NewBatch(old(threads), true, if ok then thread else old(completeIn), old(timer))
    {
      ok := !complete;
      if ok {
        complete, completeIn := true, thread;
      }
    }

    method Finished() returns (status: BatchStatus)
      modifies this
      ensures (View(), status) == JobFinished(old(View()))
    {
      outstanding := outstanding - 1;
      if outstanding != 0 {
        return Running;
      }
      if complete {
        return Complete(completeIn);
      }
      return Done;
    }
  }

  /** The batch after `n` of its jobs have returned. */
  function CountedDown(b: Batch, n: nat): Batch {
    if n == 0 then b else JobFinished(CountedDown(b, n - 1)).0
  }

  /** A submitted batch is over at the return of its last job, not before, and then completes if it has a completion. */
  lemma {:induction false} CountsDown(b: Batch, n: nat)
    requires b.outstanding == |b.threads| && n <= |b.threads|
    ensures CountedDown(b, n) == b.(outstanding := |b.threads| - n)
    ensures n < |b.threads| ==>
              JobFinished(CountedDown(b, n)).1 ==
              if n + 1 < |b.threads| then Running else if b.complete then Complete(b.completeIn) else Done
  {
    if n > 0 { CountsDown(b, n - 1); }
  }

  class Proxy {
    var general: int
    var batchReserved: int
    var replyReserved: int
    var capacity: int
    var maxWorkers: int
    var workers: seq<Slot>
    var idle: seq<nat>
    var tagged: seq<TaggedSlot>
    var cats: seq<Category>
    var pending: seq<Pending>
    var batchJobs: seq<JobRef>
    var replyJobs: seq<JobRef>
    var batchActive: int
    var replyActive: int
    var batches: map<nat, Batch>
    var nextBatch: nat
    var timers: map<nat, Timer>
    ghost var phase: Phase
    ghost var accepted: seq<seq<Task>>
    ghost var started: seq<seq<Task>>
    ghost var submitted: map<nat, Batch>
    ghost var finished: seq<JobRef>

    ghost function View(): State
      reads this
    {
      State(general, batchReserved, replyReserved, capacity, maxWorkers, workers, idle, tagged, cats, pending,
            batchJobs, replyJobs, batchActive, replyActive, batches, nextBatch, timers, phase,
            accepted, started, submitted, finished)
    }

    constructor (general: int, batchReserved: int, replyReserved: int, configs: seq<CategoryConfig>, tagged: nat)
      requires general > 0
      ensures View() == Startup(general, batchReserved, replyReserved, configs, tagged)
    {
      var b := if batchReserved < 0 then (general + 1) / 2 else batchReserved;
      var r := if replyReserved < 0 then (general + 7) / 8 else replyReserved;
      var most := general + b + r;
      var table := [];
      for i := 0 to |configs|
        invariant most == general + b + r + Total(configs[..i])
        invariant |table| == i
        invariant forall j | 0 <= j < i :: table[j] == Category(configs[j].reserved, 0, configs[j].maxQueue, 0)
      {
        assert configs[..i + 1][..i] == configs[..i];
        most := most + configs[i].reserved;
        table := table + [Category(configs[i].reserved, 0, configs[i].maxQueue, 0)];
      }
      assert configs[..|configs|] == configs;
      this.general, this.batchReserved, this.replyReserved := general, b, r;
      this.capacity, this.maxWorkers := most, most;
      workers, idle, this.tagged := [], [], seq(tagged, _ => STARTING);
      cats, pending := table, [];
      batchJobs, replyJobs, batchActive, replyActive := [], [], 0, 0;
      batches, nextBatch, timers := map[], 0, map[];
      phase := ControlPhase;
      accepted, started := seq(|configs|, _ => []), seq(|configs|, _ => []);
      submitted, finished := map[], [];
      new;
      var s := Startup(general, batchReserved, replyReserved, configs, tagged);
      assert cats == s.cats;
      assert this.tagged == s.tagged;
      assert accepted == s.accepted && started == s.started;
    }

    /** Picks the most recently idled worker, or appends a record for a new one. */
    method GetIdleWorker() returns (w: nat)
      requires Shape(View())
      modifies this`workers, this`idle
      ensures w < |workers| && Shape(View())
      ensures old(idle) == [] ==> idle == [] && workers == old(workers) + [FRESH_SLOT] && w == |old(workers)|
      ensures old(idle) != [] ==> workers == old(workers) && idle + [w] == old(idle)
    {
      if idle == [] {
        w := |workers|;
        workers := workers + [FRESH_SLOT];
      } else {
        w := idle[|idle| - 1];
        idle := idle[..|idle| - 1];
      }
    }

    /** Spawns the thread of a worker that has none yet; otherwise tells it to run. */
    method RunWorker(w: nat)
      requires w < |workers|
      modifies this`workers
      ensures workers == old(workers)[w := RunSlot(old(workers)[w])]
    {
      if !workers[w].joinable {
        workers := workers[w := workers[w].(joinable := true, thread := Executing)];
      } else {
        workers := workers[w := workers[w].(inbox := workers[w].inbox + [RUN])];
      }
    }

    method LaunchJob(r: RunInfo)
      requires Shape(View()) && (r.CommandRun? ==> r.cat < |cats|)
      modifies this`workers, this`idle
      ensures View() == Launch(old(View()), r)
    {
      var w := GetIdleWorker();
      workers := workers[w := workers[w].(run := r)];
      RunWorker(w);
      if old(idle) == [] {
        assert workers == old(workers) + [RunSlot(FRESH_SLOT.(run := r))];
      } else {
        assert w == old(idle)[|old(idle)| - 1] && idle == old(idle)[..|old(idle)| - 1];
        assert workers == old(workers)[w := RunSlot(old(workers)[w].(run := r))];
      }
    }

    method StartTask(cat: nat, task: Task)
      requires Shape(View()) && cat < |cats|
      modifies this`workers, this`idle, this`cats, this`started
      ensures View() == StartCommand(old(View()), cat, task)
    {
      LaunchJob(CommandRun(cat, task));
      cats := cats[cat := cats[cat].(active := cats[cat].active + 1)];
      started := started[cat := started[cat] + [task]];
    }

    /** A remote command or an injected task arrives. */
    method AdmitTask(cat: nat, task: Task)
      requires Shape(View()) && cat < |cats|
      modifies this
      ensures View() == Admit(old(View()), cat, task)
    {
      hide StartCommand;
      var c := cats[cat];
      if c.active >= c.reserved && |workers| - |idle| >= general {
        if c.maxQueue >= 0 && c.queued >= c.maxQueue {
          return;
        }
        accepted := accepted[cat := accepted[cat] + [task]];
        pending := pending + [Pending(cat, task)];
        cats := cats[cat := c.(queued := c.queued + 1)];
        return;
      }
      accepted := accepted[cat := accepted[cat] + [task]];
      StartTask(cat, task);
    }

    method PopJob(reply: bool)
      requires JobQueue(View(), reply) != []
      modifies this`batchJobs, this`replyJobs, this`batchActive, this`replyActive
      ensures View() == SetJobs(old(View()), reply, JobQueue(old(View()), reply)[1..], JobActive(old(View()), reply) + 1)
    {
      if reply {
        replyJobs, replyActive := replyJobs[1..], replyActive + 1;
      } else {
        batchJobs, batchActive := batchJobs[1..], batchActive + 1;
      }
    }

    method StartNextJob(reply: bool)
      requires Shape(View()) && JobQueue(View(), reply) != []
      modifies this`workers, this`idle, this`batchJobs, this`replyJobs, this`batchActive, this`replyActive
      ensures View() == StartBatchJob(old(View()), reply)
    {
      hide Launch, Shape;
      LaunchJob(BatchRun(if reply then replyJobs[0] else batchJobs[0], reply));
      PopJob(reply);
    }

    method RunBatchJobs(reply: bool)
      requires Shape(View())
      modifies this`workers, this`idle, this`batchJobs, this`replyJobs, this`batchActive, this`replyActive
      ensures View() == DrainJobs(old(View()), reply)
    {
      hide Shape, StartBatchJob;
      while (if reply then replyJobs else batchJobs) != [] && |workers| - |idle| < maxWorkers
            && ((if reply then replyActive < replyReserved else batchActive < batchReserved) || |workers| - |idle| < general)
        invariant Shape(View())
        invariant DrainJobs(View(), reply) == DrainJobs(old(View()), reply)
        decreases if reply then |replyJobs| else |batchJobs|
      {
        StartNextJob(reply);
      }
    }

    method RunTagged()
      requires Shape(View())
      modifies this`tagged
      ensures View() == DrainTagged(old(View()), 0)
    {
      ghost var s := View();
      for k := 0 to |tagged|
        invariant Shape(View()) && |tagged| == |s.tagged|
        invariant DrainTagged(View(), k) == DrainTagged(s, 0)
      {
        ghost var before := View();
        var tw := tagged[k];
        if !tw.busy && tw.queue != [] {
          tagged := tagged[k := TaggedSlot(RunSlot(tw.slot.(run := BatchRun(tw.queue[0], false))), true, tw.queue[1..])];
        }
        assert tagged == before.tagged[k := StartTagged(before.tagged[k])];
        assert View() == SetTagged(before, k, StartTagged(before.tagged[k]));
      }
    }

    method StartPendingTask(i: nat)
      requires Shape(View()) && i < |pending|
      modifies this`workers, this`idle, this`cats, this`started, this`pending
      ensures View() == StartPending(old(View()), i)
    {
      var p := pending[i];
      StartTask(p.cat, p.task);
      cats := cats[p.cat := cats[p.cat].(queued := cats[p.cat].queued - 1)];
      pending := pending[..i] + pending[i + 1..];
    }

    /** The single pass over the pending commands. */
    method RunPending()
      requires Shape(View())
      modifies this`workers, this`idle, this`cats, this`started, this`pending
      ensures View() == DrainCommands(old(View()), 0)
    {
      hide StartPending;
      var i := 0;
      while i < |pending| && |workers| - |idle| < maxWorkers
        invariant 0 <= i <= |pending| && Shape(View())
        invariant DrainCommands(View(), i) == DrainCommands(old(View()), 0)
        decreases |pending| - i
      {
        var c := cats[pending[i].cat];
        if c.active < c.reserved || |workers| - |idle| < general {
          StartPendingTask(i);
        } else {
          i := i + 1;
        }
      }
    }

    method DrainQueues()
      requires Shape(View())
      modifies this
      ensures View() == ProcessQueue(old(View()))
    {
      if maxWorkers == 0 {
        return;
      }
      RunTagged();
      RunBatchJobs(false);
      RunBatchJobs(true);
      RunPending();
    }

    method QueueJob(thread: int, ref: JobRef)
      requires Shape(View()) && 0 <= thread <= |tagged|
      modifies this`tagged, this`batchJobs
      ensures View() == PushJob(old(View()), thread, ref)
    {
      if thread > 0 {
        tagged := tagged[thread - 1 := tagged[thread - 1].(queue := tagged[thread - 1].queue + [ref])];
      } else {
        batchJobs := batchJobs + [ref];
      }
    }

    method TakeBatch(b: Batch) returns (id: nat)
      requires Shape(View())
      modifies this`batches, this`submitted, this`nextBatch
      ensures id == old(nextBatch) && View() == Own(old(View()), b)
    {
      id := nextBatch;
      batches := batches[id := b];
      submitted := submitted[id := b];
      nextBatch := id + 1;
    }

    /** The proxy takes over a batch that was put together; one without jobs is refused. */
    method SubmitJobs(batch: JobBatch) returns (ok: bool)
      requires Shape(View()) && batch.Building() && batch.timer == None
      requires forall j | 0 <= j < |batch.threads| :: batch.threads[j] <= |tagged|
      modifies this
      ensures ok <==> batch.threads != []
      ensures View() == if ok then SubmitBatch(old(View()), batch.threads, batch.complete, batch.completeIn) else old(View())
    {
      var threads := batch.threads;
      ok := threads != [];
      if !ok {
        return;
      }
      var id := TakeBatch(Batch(threads, batch.complete, batch.completeIn, batch.outstanding, batch.timer));
      ghost var s := View();
      for i := 0 to |threads|
        invariant Shape(View()) && |tagged| == |s.tagged|
        invariant PushJobs(View(), id, threads, i) == PushJobs(s, id, threads, 0)
      {
        QueueJob(threads[i], JobRef(id, i));
      }
    }

    /** A batch assembled from its parts is submitted. */
    method SubmitWhole(threads: seq<int>, complete: bool, completeIn: int)
      requires Shape(View()) && ValidThreads(View(), threads)
      modifies this
      ensures View() == SubmitBatch(old(View()), threads, complete, completeIn)
    {
      hide Shape, SubmitBatch;
      var batch := new JobBatch.Of(NewBatch(threads, complete, completeIn, None));
      var _ := SubmitJobs(batch);
    }

    method ScheduleReplyJob()
      requires Shape(View())
      modifies this
      ensures View() == ScheduleReply(old(View()))
    {
      var id := TakeBatch(NewBatch([0], false, 0, None));
      replyJobs := replyJobs + [JobRef(id, 0)];
    }

    method QueueTimerJob(id: nat)
      requires Shape(View()) && (id in timers ==> IN_PROXY <= timers[id].thread <= |tagged|)
      modifies this
      ensures View() == FireTimer(old(View()), id)
    {
      if id !in timers {
        return;
      }
      var tm := timers[id];
      if tm.squelch && tm.running {
        return;
      }
      if tm.thread == IN_PROXY {
        return;
      }
      var b := NewBatch([tm.thread], tm.squelch, if tm.squelch then IN_PROXY else 0, if tm.squelch then Some(id) else None);
      if tm.squelch {
        timers := timers[id := tm.(running := true)];
      }
      var bid := TakeBatch(b);
      QueueJob(tm.thread, JobRef(bid, 0));
    }

    method QueueCompletionJob(thread: int, reply: bool, ref: JobRef)
      requires Shape(View())
      modifies this`tagged, this`batchJobs, this`replyJobs
      ensures View() == QueueCompletion(old(View()), thread, reply, ref)
    {
      if 0 < thread <= |tagged| {
        tagged := tagged[thread - 1 := tagged[thread - 1].(queue := tagged[thread - 1].queue + [ref])];
      } else if reply {
        replyJobs := replyJobs + [ref];
      } else {
        batchJobs := batchJobs + [ref];
      }
    }

    /** The part of an in-proxy completion function that the scheduler sees: a timer is released. */
    method RunCompletion(b: Batch)
      requires Shape(View())
      modifies this`timers
      ensures View() == ReleaseTimer(old(View()), b)
    {
      if b.timer.Some? && b.timer.value in timers {
        timers := timers[b.timer.value := timers[b.timer.value].(running := false)];
      }
    }

    /** A job of a batch has returned; says whether the batch was deleted. */
    method FinishJob(ref: JobRef, reply: bool) returns (clear: bool)
      requires Shape(View())
      modifies this`batches, this`finished, this`timers, this`tagged, this`batchJobs, this`replyJobs
      ensures (View(), clear) == FinishBatchJob(old(View()), ref, reply)
    {
      hide QueueCompletion, ReleaseTimer;
      if ref.batch !in batches {
        return false;
      }
      var b := batches[ref.batch];
      finished := finished + [ref];
      if ref.jobno == COMPLETION {
        batches := batches - {ref.batch};
        return true;
      }
      var batch := new JobBatch.Of(b);
      var status := batch.Finished();
      batches := batches[ref.batch := Batch(batch.threads, batch.complete, batch.completeIn, batch.outstanding, batch.timer)];
      clear := false;
      match status
      case Running =>
      case Done =>
        batches := batches - {ref.batch};
        clear := true;
      case Complete(thread) =>
        if thread == IN_PROXY {
          finished := finished + [JobRef(ref.batch, COMPLETION)];
          RunCompletion(b);
          batches := batches - {ref.batch};
          clear := true;
        } else {
          QueueCompletionJob(thread, reply, JobRef(ref.batch, COMPLETION));
        }
    }

    method HandleWorkerMessage(w: nat)
      requires Shape(View()) && w < |workers| && workers[w].outbox != []
      modifies this
      ensures View() == WorkerMessage(old(View()), w)
    {
      var message := workers[w].outbox[0];
      workers := workers[w := workers[w].(outbox := workers[w].outbox[1..])];
      if message == QUITTING {
        workers := workers[w := workers[w].(joinable := false)];
        return;
      }
      ghost var m := View();
      SettleWorker(w);
      assert View() == SettleJob(m, w);
      if maxWorkers == 0 {
        workers := workers[w := SendQuit(workers[w])];
      } else {
        idle := idle + [w];
      }
    }

    method LowerActive(reply: bool)
      modifies this`batchActive, this`replyActive
      ensures View() == SetJobs(old(View()), reply, JobQueue(old(View()), reply), JobActive(old(View()), reply) - 1)
    {
      if reply {
        replyActive := replyActive - 1;
      } else {
        batchActive := batchActive - 1;
      }
    }

    method ClearRecord(w: nat, clear: bool)
      requires Shape(View()) && w < |workers|
      modifies this`workers
      ensures View() == SetWorker(old(View()), w, ClearRun(old(workers)[w], clear))
    {
      if clear {
        workers := workers[w := workers[w].(run := ClearedRun)];
      } else {
        assert workers == workers[w := workers[w]];
      }
    }

    method SettleWorker(w: nat)
      requires Shape(View()) && w < |workers|
      modifies this
      ensures View() == SettleJob(old(View()), w)
      ensures maxWorkers == old(maxWorkers)
    {
      hide FinishBatchJob, ClearRun;
      match workers[w].run
      case BatchRun(ref, reply) =>
        LowerActive(reply);
        var clear := FinishJob(ref, reply);
        ClearRecord(w, clear);
      case CommandRun(cat, _) =>
        cats := cats[cat := cats[cat].(active := cats[cat].active - 1)];
      case _ =>
    }

    method HandleTaggedMessage(k: nat)
      requires Shape(View()) && k < |tagged| && tagged[k].slot.outbox != []
      modifies this
      ensures View() == TaggedMessage(old(View()), k)
    {
      var message := tagged[k].slot.outbox[0];
      tagged := tagged[k := tagged[k].(slot := tagged[k].slot.(outbox := tagged[k].slot.outbox[1..]))];
      if message == QUITTING {
        tagged := tagged[k := tagged[k].(slot := tagged[k].slot.(joinable := false))];
        return;
      }
      ghost var m := View();
      SettleTaggedWorker(k);
      assert View() == SettleTagged(m, k);
      if maxWorkers == 0 {
        tagged := tagged[k := tagged[k].(slot := SendQuit(tagged[k].slot))];
      }
    }

    method SettleTaggedWorker(k: nat)
      requires Shape(View()) && k < |tagged|
      modifies this
      ensures View() == SettleTagged(old(View()), k)
      ensures maxWorkers == old(maxWorkers)
    {
      hide FinishBatchJob;
      match tagged[k].slot.run
      case BatchRun(ref, reply) =>
        tagged := tagged[k := tagged[k].(busy := false)];
        var clear := FinishJob(ref, reply);
        if clear {
          tagged := tagged[k := tagged[k].(slot := tagged[k].slot.(run := ClearedRun))];
        } else {
          assert tagged == tagged[k := tagged[k].(slot := tagged[k].slot)];
        }
      case _ =>
    }

    method QuitIdleWorkers()
      requires Shape(View())
      modifies this`workers
      ensures View() == QuitIdle(old(View()), 0)
    {
      for i := 0 to |idle|
        invariant Shape(View()) && |workers| == |old(workers)|
        invariant QuitIdle(View(), i) == QuitIdle(old(View()), 0)
      {
        workers := workers[idle[i] := SendQuit(workers[idle[i]])];
      }
    }

    method QuitTaggedWorkers()
      requires Shape(View())
      modifies this`tagged
      ensures View() == QuitTagged(old(View()), 0)
    {
      for k := 0 to |tagged|
        invariant Shape(View()) && |tagged| == |old(tagged)|
        invariant QuitTagged(View(), k) == QuitTagged(old(View()), 0)
      {
        if !tagged[k].busy {
          tagged := tagged[k := tagged[k].(slot := SendQuit(tagged[k].slot))];
        }
      }
    }

    /** QUIT: idle workers and tagged workers that are not busy are told to quit at once. */
    method QuitWorkers()
      requires Shape(View())
      modifies this
      ensures View() == Quit(old(View()))
    {
      maxWorkers := 0;
      QuitIdleWorkers();
      idle := [];
      QuitTaggedWorkers();
    }

    method StartTimer(id: nat, squelch: bool, thread: int)
      requires Shape(View())
      modifies this`timers
      ensures View() == AddTimer(old(View()), id, squelch, thread)
    {
      timers := timers[id := Timer(squelch, false, thread)];
    }

    /** One step of the thread of a worker: it takes a message, or the job it executes returns. */
    method StepThread(e: Event)
      requires Shape(View()) && Enabled(View(), e)
      requires e.WorkerReceives? || e.WorkerFinishes? || e.TaggedReceives? || e.TaggedFinishes?
      modifies this`workers, this`tagged
      ensures View() == Step(old(View()), e)
    {
      match e
      case WorkerReceives(w) => workers := workers[w := Receive(workers[w])];
      case WorkerFinishes(w) => workers := workers[w := Finish(workers[w])];
      case TaggedReceives(k) => tagged := tagged[k := tagged[k].(slot := Receive(tagged[k].slot))];
      case TaggedFinishes(k) => tagged := tagged[k := tagged[k].(slot := Finish(tagged[k].slot))];
    }

    /** Handles one message, timer or thread step. */
    method Handle(e: Event)
      requires Shape(View()) && Enabled(View(), e) && !e.NextPhase?
      modifies this
      ensures View() == Step(old(View()), e)
    {
      hide Shape, Admit, SubmitBatch, ScheduleReply, AddTimer, Quit, WorkerMessage, TaggedMessage, FireTimer;
      match e
      case Inject(cat, task) => AdmitTask(cat, task);
      case Submit(threads, complete, completeIn) =>
        SubmitWhole(threads, complete, completeIn);
      case ReplyJob => ScheduleReplyJob();
      case NewTimer(id, squelch, thread) => StartTimer(id, squelch, thread);
      case QuitAll => QuitWorkers();
      case FromWorker(w) => HandleWorkerMessage(w);
      case FromTagged(k) => HandleTaggedMessage(k);
      case Fire(id) => QueueTimerJob(id);
      case Command(cat, task) => AdmitTask(cat, task);
      case WorkerReceives(_) => StepThread(e);
      case WorkerFinishes(_) => StepThread(e);
      case TaggedReceives(_) => StepThread(e);
      case TaggedFinishes(_) => StepThread(e);
    }
  }
}
