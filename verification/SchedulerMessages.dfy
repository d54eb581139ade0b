/** Messages from worker threads, the threads' own steps, and QUIT: each keeps every invariant. */
module SchedulerMessages {
  import opened Basics
  import opened SchedulerModel
  import opened SchedulerViews
  import opened SchedulerLedger
  import opened SchedulerInvariant
  import opened SchedulerStarts
  import opened SchedulerQueues
  import opened SchedulerSubmits

  // ----- what finishing a batch job does to the batches -----

  /** The job that finishes is the last one and leaves a completion to be queued. */
  predicate LeavesCompletion(b: Batch, ref: JobRef) {
    ref.jobno != COMPLETION && b.outstanding == 1 && b.complete && b.completeIn != IN_PROXY
  }

  function CompletionOf(ref: JobRef): JobRef {
    JobRef(ref.batch, COMPLETION)
  }

  lemma QueueCompletionRefs(s: State, thread: int, reply: bool, ref: JobRef)
    requires Shape(s)
    ensures Refs(QueueCompletion(s, thread, reply, ref)) == Refs(s) + multiset{ref}
    ensures SameThreads(s, QueueCompletion(s, thread, reply, ref))
    ensures var t := QueueCompletion(s, thread, reply, ref);
            t == s.(batchJobs := t.batchJobs, replyJobs := t.replyJobs, tagged := t.tagged)
  {
    hide Refs;
    if 0 < thread <= |s.tagged| {
      PushTaggedRefs(s, thread, ref);
    } else {
      PushQueueRefs(s, reply, ref);
    }
  }

  lemma TablesBeside(s: State, t: State)
    requires t == s.(batches := t.batches, timers := t.timers, finished := t.finished)
    ensures Refs(t) == Refs(s) && SameThreads(s, t)
  {
    assert Held(t) == Held(s);
  }

  lemma FinishRefs(s: State, ref: JobRef, reply: bool)
    requires Shape(s) && ref.batch in s.batches
    ensures var f := FinishBatchJob(s, ref, reply).0;
            && SameThreads(s, f)
            && Refs(f) == Refs(s) + (if LeavesCompletion(s.batches[ref.batch], ref) then multiset{CompletionOf(ref)} else multiset{})
  {
    hide Refs, QueueCompletion;
    var f := FinishBatchJob(s, ref, reply).0;
    var b := s.batches[ref.batch];
    if LeavesCompletion(b, ref) {
      var m := Log(s, ref).(batches := s.batches[ref.batch := JobFinished(b).0]);
      TablesBeside(s, m);
      QueueCompletionRefs(m, b.completeIn, reply, CompletionOf(ref));
    } else {
      TablesBeside(s, f);
    }
  }

  /** What finishing a job changes besides the queues. */
  datatype Tables = Tables(batches: map<nat, Batch>, finished: seq<JobRef>, timers: map<nat, Timer>)

  function TablesOf(s: State): Tables {
    Tables(s.batches, s.finished, s.timers)
  }

  function Released(timers: map<nat, Timer>, b: Batch): map<nat, Timer> {
    if b.timer.Some? && b.timer.value in timers then timers[b.timer.value := timers[b.timer.value].(running := false)]
    else timers
  }

  function TablesAfter(tb: Tables, ref: JobRef): Tables
    requires ref.batch in tb.batches
  {
    var id := ref.batch;
    var b := tb.batches[id];
    if ref.jobno == COMPLETION then
      Tables(tb.batches - {id}, tb.finished + [ref], tb.timers)
    else if b.outstanding != 1 || (b.complete && b.completeIn != IN_PROXY) then
      Tables(tb.batches[id := b.(outstanding := b.outstanding - 1)], tb.finished + [ref], tb.timers)
    else if b.complete then
      Tables(tb.batches - {id}, tb.finished + [ref, CompletionOf(ref)], Released(tb.timers, b))
    else
      Tables(tb.batches - {id}, tb.finished + [ref], tb.timers)
  }

  lemma FinishTables(s: State, ref: JobRef, reply: bool)
    requires Shape(s) && ref.batch in s.batches
    ensures TablesOf(FinishBatchJob(s, ref, reply).0) == TablesAfter(TablesOf(s), ref)
    ensures FinishBatchJob(s, ref, reply).0.submitted == s.submitted
    ensures FinishBatchJob(s, ref, reply).0.nextBatch == s.nextBatch
  {
    var b := s.batches[ref.batch];
    assert s.batches[ref.batch := JobFinished(b).0] - {ref.batch} == s.batches - {ref.batch};
    assert s.finished + [ref] + [CompletionOf(ref)] == s.finished + [ref, CompletionOf(ref)];
    if LeavesCompletion(b, ref) {
      hide QueueCompletion;
      var m := Log(s, ref).(batches := s.batches[ref.batch := JobFinished(b).0]);
      QueueCompletionRefs(m, b.completeIn, reply, CompletionOf(ref));
    }
  }

  /** References `after` are those `before` without `ref`, and with the completion if there is one to queue. */
  ghost predicate RefsAfter(before: multiset<JobRef>, after: multiset<JobRef>, b: Batch, ref: JobRef) {
    forall x: JobRef :: after[x] ==
      if x == ref then 0 else before[x] + One(LeavesCompletion(b, ref) && x == CompletionOf(ref))
  }

  function LedgerAfter(l: Ledger, tb: Tables, refs: multiset<JobRef>): Ledger {
    Ledger(refs, tb.batches, l.submitted, tb.finished, l.next)
  }

  lemma FinishKeepsLedger(l: Ledger, timers: map<nat, Timer>, ref: JobRef, refs: multiset<JobRef>)
    requires LedgerOk(l) && ref in l.refs && RefsAfter(l.refs, refs, l.batches[ref.batch], ref)
    ensures LedgerOk(LedgerAfter(l, TablesAfter(Tables(l.batches, l.finished, timers), ref), refs))
  {
    RefIsLive(l, ref);
    hide LedgerOk;
    var m := LedgerAfter(l, TablesAfter(Tables(l.batches, l.finished, timers), ref), refs);
    var b := l.batches[ref.batch];
    if ref.jobno == COMPLETION {
      CompletionKeepsLedger(l, m, ref);
    } else {
      OpenIsCounted(l, ref);
      if b.outstanding > 1 {
        JobKeepsLedger(l, m, ref, false);
      } else if !b.complete {
        LastJobKeepsLedger(l, m, ref);
      } else if b.completeIn == IN_PROXY {
        InProxyKeepsLedger(l, m, ref);
      } else {
        JobKeepsLedger(l, m, ref, true);
      }
    }
  }

  lemma RefIsLive(l: Ledger, ref: JobRef)
    requires LedgerOk(l) && ref in l.refs
    ensures ref.batch in l.batches
  {
  }

  lemma OpenIsCounted(l: Ledger, ref: JobRef)
    requires LedgerOk(l) && ref in l.refs && ref.jobno != COMPLETION
    ensures l.batches[ref.batch].outstanding >= 1
  {
    var b := l.batches[ref.batch];
    assert BatchOk(l.refs, ref.batch, b, l.submitted);
    assert ref.jobno in OpenJobs(l.refs, ref.batch, |b.threads|);
  }

  // ----- timers -----

  lemma DropKeepsTimers(timers: map<nat, Timer>, batches: map<nat, Batch>, tagged: nat, id: nat)
    requires TimersOk(timers, batches, tagged) && id in batches && batches[id].timer.None?
    ensures TimersOk(timers, batches - {id}, tagged)
  {
    forall t | t in timers && timers[t].running
      ensures HasBatch(batches - {id}, t)
    {
      var x :| x in batches && batches[x].timer == Some(t);
      assert x in batches - {id} && (batches - {id})[x].timer == Some(t);
    }
  }

  lemma ReleaseKeepsTimers(timers: map<nat, Timer>, batches: map<nat, Batch>, tagged: nat, id: nat, t: nat)
    requires TimersOk(timers, batches, tagged) && id in batches && batches[id].timer == Some(t)
    requires t in timers
    ensures TimersOk(timers[t := timers[t].(running := false)], batches - {id}, tagged)
  {
    var timers' := timers[t := timers[t].(running := false)];
    var batches' := batches - {id};
    forall u | u in timers' && timers'[u].running
      ensures HasBatch(batches', u)
    {
      var x :| x in batches && batches[x].timer == Some(u);
      assert x in batches' && batches'[x].timer == Some(u);
    }
    forall x | x in batches'
      ensures ThreadsOk(batches'[x], tagged) && TimerBatchOk(batches'[x], timers')
    {
      assert TimerBatchOk(batches[x], timers);
    }
  }

  lemma CountKeepsTimers(timers: map<nat, Timer>, batches: map<nat, Batch>, tagged: nat, id: nat, n: int)
    requires TimersOk(timers, batches, tagged) && id in batches
    ensures TimersOk(timers, batches[id := batches[id].(outstanding := n)], tagged)
  {
    var batches' := batches[id := batches[id].(outstanding := n)];
    forall t | t in timers && timers[t].running
      ensures HasBatch(batches', t)
    {
      var x :| x in batches && batches[x].timer == Some(t);
      assert x in batches' && batches'[x].timer == Some(t);
    }
  }

  /** A timer's batch is dropped only by its in-proxy completion, which also releases the timer. */
  lemma FinishKeepsTimers(tb: Tables, tagged: nat, ref: JobRef)
    requires TimersOk(tb.timers, tb.batches, tagged) && ref.batch in tb.batches
    requires RefOk(tb.batches[ref.batch], ref.jobno)
    ensures TimersOk(TablesAfter(tb, ref).timers, TablesAfter(tb, ref).batches, tagged)
  {
    var id := ref.batch;
    var b := tb.batches[id];
    assert TimerBatchOk(b, tb.timers);
    hide TimersOk;
    if b.timer.None? {
      DropKeepsTimers(tb.timers, tb.batches, tagged, id);
    } else {
      ReleaseKeepsTimers(tb.timers, tb.batches, tagged, id, b.timer.value);
    }
    CountKeepsTimers(tb.timers, tb.batches, tagged, id, b.outstanding - 1);
  }

  // ----- counters -----

  function LessLoad(q: seq<Load>, i: nat): seq<Load>
    requires i < |q|
  {
    q[i := q[i].(active := q[i].active - 1)]
  }

  /** Worker `w` of `s` gave up its job. */
  ghost predicate HandedIn(s: State, t: State, w: nat) {
    && w < |s.workers| && |t.workers| == |s.workers|
    && Loaded(Held(s)[w]) && Held(t) == Held(s)[w := Unloaded]
  }

  function ClassIndex(r: RunInfo): nat
    requires Loaded(r)
  {
    match r
    case BatchRun(_, reply) => if reply then 1 else 0
    case CommandRun(cat, _) => cat + 2
  }

  lemma LessLoadSums(q: seq<Load>, i: nat)
    requires i < |q|
    ensures SumActive(LessLoad(q, i)) == SumActive(q) - 1
    ensures SumReserved(LessLoad(q, i)) == SumReserved(q)
    ensures SumExcess(LessLoad(q, i)) <= SumExcess(q)
  {
    SumUpdate(q, i, q[i].(active := q[i].active - 1));
  }

  lemma CountedDown(s: State, t: State, w: nat)
    requires CountersOk(s) && CapacityOk(s) && HandedIn(s, t, w) && |t.cats| == |s.cats|
    requires ClassIndex(Held(s)[w]) < |Loads(s)|
    requires Loads(t) == LessLoad(Loads(s), ClassIndex(Held(s)[w]))
    requires t.general == s.general && t.capacity == s.capacity && t.maxWorkers == s.maxWorkers
    requires t.maxWorkers != 0 ==> |t.idle| == |s.idle| + 1
    ensures CountersOk(t) && CapacityOk(t)
  {
    hide SumActive, SumReserved, SumExcess, Count, HeldRefs;
    var r := Held(s)[w];
    LessLoadSums(Loads(s), ClassIndex(r));
    CountUpdate(Held(s), w, Unloaded, BatchClass);
    CountUpdate(Held(s), w, Unloaded, ReplyClass);
    assert Loads(t)[0] == Load(t.batchActive, t.batchReserved);
    assert Loads(t)[1] == Load(t.replyActive, t.replyReserved);
    forall c: nat | c < |t.cats|
      ensures t.cats[c].active == Count(Held(t), CatClass(c))
    {
      CountUpdate(Held(s), w, Unloaded, CatClass(c));
      assert Loads(t)[c + 2] == Load(t.cats[c].active, t.cats[c].reserved);
      assert Loads(s)[c + 2] == Load(s.cats[c].active, s.cats[c].reserved);
    }
  }

  // ----- RAN from an ordinary worker -----

  /** What RAN finds: the worker is busy, its job is loaded and RAN is its only message. */
  lemma RanFindsBusy(s: State, w: nat)
    requires Shape(s) && ProtocolOk(s) && w < |s.workers|
    requires s.workers[w].outbox != [] && s.workers[w].outbox[0] == RAN
    ensures BusySlot(s.workers[w]) && At(s.workers[w], Waiting, [], [RAN]) && w !in s.idle
    ensures Held(s)[w] == s.workers[w].run && Loaded(s.workers[w].run)
  {
    assert WorkerOk(s.workers[w], w in s.idle, s.maxWorkers == 0);
  }

  /** Nothing but worker w's record, the idle list and the quit message differ around `f`. */
  predicate Returned(f: State, t: State, w: nat)
    requires w < |f.workers|
  {
    if f.maxWorkers == 0 then t == f.(workers := f.workers[w := SendQuit(f.workers[w])])
    else t == f.(idle := f.idle + [w])
  }

  lemma RanIs(s: State, w: nat)
    requires Shape(s) && ProtocolOk(s) && w < |s.workers|
    requires s.workers[w].outbox != [] && s.workers[w].outbox[0] == RAN
    ensures var m := SetWorker(s, w, s.workers[w].(outbox := []));
            && Shape(m) && Returned(SettleJob(m, w), WorkerMessage(s, w), w)
            && SettleJob(m, w).maxWorkers == s.maxWorkers
  {
    hide FinishBatchJob;
    RanFindsBusy(s, w);
    var m := SetWorker(s, w, s.workers[w].(outbox := []));
    assert s.workers[w].outbox[1..] == [];
    SettleFrame(m, w);
  }

  /** Settling a job leaves every thread, channel and limit alone. */
  lemma SettleFrame(s: State, w: nat)
    requires Shape(s) && w < |s.workers|
    ensures var f := SettleJob(s, w);
            && f.maxWorkers == s.maxWorkers && f.general == s.general && f.capacity == s.capacity && f.phase == s.phase
            && f.idle == s.idle && |f.workers| == |s.workers| && |f.tagged| == |s.tagged| && |f.cats| == |s.cats|
            && f.pending == s.pending && f.accepted == s.accepted && f.started == s.started
            && (forall i: nat | i < |s.workers| && i != w :: f.workers[i] == s.workers[i])
            && f.workers[w] == s.workers[w].(run := f.workers[w].run)
            && (forall k: nat | k < |s.tagged| :: f.tagged[k].slot == s.tagged[k].slot && f.tagged[k].busy == s.tagged[k].busy)
            && (forall c: nat | c < |s.cats| :: f.cats[c] == s.cats[c].(active := f.cats[c].active))
  {
    hide FinishBatchJob;
    if s.workers[w].run.BatchRun? {
      var run := s.workers[w].run;
      var a := SetJobs(s, run.reply, JobQueue(s, run.reply), JobActive(s, run.reply) - 1);
      FinishFrame(a, run.ref, run.reply);
    }
  }

  lemma FinishFrame(s: State, ref: JobRef, reply: bool)
    requires Shape(s)
    ensures SameThreads(s, FinishBatchJob(s, ref, reply).0)
  {
    if ref.batch in s.batches {
      hide FinishBatchJob;
      FinishRefs(s, ref, reply);
    }
  }

  lemma RanKeepsProtocol(s: State, w: nat)
    requires Shape(s) && ProtocolOk(s) && w < |s.workers|
    requires s.workers[w].outbox != [] && s.workers[w].outbox[0] == RAN
    ensures ProtocolOk(WorkerMessage(s, w))
  {
    hide SettleJob, WorkerMessage;
    var m := SetWorker(s, w, s.workers[w].(outbox := []));
    var t := WorkerMessage(s, w);
    RanFindsBusy(s, w);
    RanIs(s, w);
    SettleFrame(m, w);
    var q := s.maxWorkers == 0;
    forall i: nat | i < |t.workers|
      ensures WorkerOk(t.workers[i], i in t.idle, q)
    {
      assert WorkerOk(s.workers[i], i in s.idle, q);
    }
    forall k: nat | k < |t.tagged|
      ensures TaggedOk(t.tagged[k], q)
    {
      assert TaggedOk(s.tagged[k], q);
    }
  }

  lemma RanHeld(s: State, w: nat)
    requires Shape(s) && ProtocolOk(s) && w < |s.workers|
    requires s.workers[w].outbox != [] && s.workers[w].outbox[0] == RAN
    ensures HandedIn(s, WorkerMessage(s, w), w)
  {
    hide SettleJob, WorkerMessage;
    var m := SetWorker(s, w, s.workers[w].(outbox := []));
    var t := WorkerMessage(s, w);
    RanFindsBusy(s, w);
    RanIs(s, w);
    SettleFrame(m, w);
    assert Held(t) == Held(s)[w := Unloaded] by {
      forall i: nat | i < |t.workers|
        ensures HeldBy(t, i) == if i == w then Unloaded else HeldBy(s, i)
      {
      }
    }
  }

  lemma RanLoads(s: State, w: nat)
    requires Shape(s) && ProtocolOk(s) && w < |s.workers|
    requires s.workers[w].outbox != [] && s.workers[w].outbox[0] == RAN
    ensures var r := s.workers[w].run;
            && Loaded(r) && ClassIndex(r) < |Loads(s)|
            && Loads(WorkerMessage(s, w)) == LessLoad(Loads(s), ClassIndex(r))
  {
    hide SettleJob, WorkerMessage;
    var m := SetWorker(s, w, s.workers[w].(outbox := []));
    var t := WorkerMessage(s, w);
    RanFindsBusy(s, w);
    RanIs(s, w);
    SettleFrame(m, w);
    SettleLoads(m, w);
    SameLoads(m, s);
    SameLoads(SettleJob(m, w), t);
  }

  lemma SettleLoads(s: State, w: nat)
    requires Shape(s) && w < |s.workers| && Loaded(s.workers[w].run)
    ensures ClassIndex(s.workers[w].run) < |Loads(s)|
    ensures Loads(SettleJob(s, w)) == LessLoad(Loads(s), ClassIndex(s.workers[w].run))
  {
    hide FinishBatchJob;
    var f := SettleJob(s, w);
    var i := ClassIndex(s.workers[w].run);
    if s.workers[w].run.BatchRun? {
      var run := s.workers[w].run;
      var a := SetJobs(s, run.reply, JobQueue(s, run.reply), JobActive(s, run.reply) - 1);
      FinishFrame(a, run.ref, run.reply);
    }
    forall j | 0 <= j < |Loads(s)|
      ensures Loads(f)[j] == LessLoad(Loads(s), i)[j]
    {
      if j >= 2 {
        assert Loads(f)[(j - 2) + 2] == Load(f.cats[j - 2].active, f.cats[j - 2].reserved);
        assert Loads(s)[(j - 2) + 2] == Load(s.cats[j - 2].active, s.cats[j - 2].reserved);
      }
    }
  }

  lemma RanKeepsCounters(s: State, w: nat)
    requires Shape(s) && ProtocolOk(s) && CountersOk(s) && CapacityOk(s) && w < |s.workers|
    requires s.workers[w].outbox != [] && s.workers[w].outbox[0] == RAN
    ensures CountersOk(WorkerMessage(s, w)) && CapacityOk(WorkerMessage(s, w))
  {
    hide SettleJob, WorkerMessage, CountersOk, CapacityOk, HandedIn;
    var m := SetWorker(s, w, s.workers[w].(outbox := []));
    RanFindsBusy(s, w);
    RanIs(s, w);
    SettleFrame(m, w);
    RanHeld(s, w);
    RanLoads(s, w);
    CountedDown(s, WorkerMessage(s, w), w);
  }

  lemma RanKeepsFifo(s: State, w: nat)
    requires Shape(s) && ProtocolOk(s) && FifoOk(s) && w < |s.workers|
    requires s.workers[w].outbox != [] && s.workers[w].outbox[0] == RAN
    ensures FifoOk(WorkerMessage(s, w))
  {
    hide SettleJob, WorkerMessage, TasksOf;
    var m := SetWorker(s, w, s.workers[w].(outbox := []));
    var t := WorkerMessage(s, w);
    RanIs(s, w);
    SettleFrame(m, w);
    forall c: nat | c < |t.cats|
      ensures FifoAt(t, c)
    {
      assert FifoAt(s, c);
      assert t.cats[c] == s.cats[c].(active := t.cats[c].active);
    }
  }

  /** The state in which `FinishBatchJob` is called for worker w's RAN. */
  function BeforeFinish(s: State, w: nat): (a: State)
    requires Shape(s) && w < |s.workers| && s.workers[w].run.BatchRun?
    ensures Shape(a)
  {
    var reply := s.workers[w].run.reply;
    SetJobs(SetWorker(s, w, s.workers[w].(outbox := [])), reply, JobQueue(s, reply), JobActive(s, reply) - 1)
  }

  lemma RanOutput(s: State, w: nat)
    requires Shape(s) && ProtocolOk(s) && w < |s.workers|
    requires s.workers[w].outbox != [] && s.workers[w].outbox[0] == RAN && s.workers[w].run.BatchRun?
    ensures var t := WorkerMessage(s, w);
            t == FinishBatchJob(BeforeFinish(s, w), s.workers[w].run.ref, s.workers[w].run.reply).0
                 .(workers := t.workers, idle := t.idle)
  {
    hide FinishBatchJob, ProtocolOk;
    RanIs(s, w);
  }

  /** The queues after RAN are those after `FinishBatchJob`; the worker still counts as holding its job there. */
  lemma RanFinish(s: State, w: nat) returns (f: State)
    requires Shape(s) && ProtocolOk(s) && w < |s.workers|
    requires s.workers[w].outbox != [] && s.workers[w].outbox[0] == RAN && s.workers[w].run.BatchRun?
    requires s.workers[w].run.ref.batch in s.batches
    ensures var run := s.workers[w].run;
            var t := WorkerMessage(s, w);
            && f.batchJobs == t.batchJobs && f.replyJobs == t.replyJobs && f.tagged == t.tagged && |t.tagged| == |s.tagged|
            && f.submitted == s.submitted && f.nextBatch == s.nextBatch
            && t.submitted == s.submitted && t.nextBatch == s.nextBatch
            && Held(f) == Held(s) && TablesOf(t) == TablesAfter(TablesOf(s), run.ref)
            && Refs(f) == Refs(s)
                 + (if LeavesCompletion(s.batches[run.ref.batch], run.ref) then multiset{CompletionOf(run.ref)} else multiset{})
  {
    hide FinishBatchJob, Refs, ProtocolOk, TablesAfter, WorkerMessage;
    var run := s.workers[w].run;
    var a := BeforeFinish(s, w);
    RanOutput(s, w);
    f := FinishBatchJob(a, run.ref, run.reply).0;
    FinishRefs(a, run.ref, run.reply);
    FinishTables(a, run.ref, run.reply);
    FrameThreads(a, f);
    SameHeld(s, a);
    assert Refs(a) == Refs(s) by { RefsParts(s, a); }
  }

  lemma SameHeld(s: State, t: State)
    requires t.idle == s.idle && |t.workers| == |s.workers|
    requires forall i: nat | i < |s.workers| :: t.workers[i].run == s.workers[i].run && t.workers[i].quits == s.workers[i].quits
    ensures Held(t) == Held(s)
  {
  }

  lemma RefsParts(s: State, t: State)
    requires t.batchJobs == s.batchJobs && t.replyJobs == s.replyJobs && t.tagged == s.tagged && Held(t) == Held(s)
    ensures Refs(t) == Refs(s)
  {
  }

  lemma TakeHeld(refs: multiset<JobRef>, rest: multiset<JobRef>, held: multiset<JobRef>, held': multiset<JobRef>,
                 b: Batch, ref: JobRef, refs': multiset<JobRef>)
    requires refs[ref] == 1
    requires held' + multiset{ref} == held
    requires rest + held == refs + (if LeavesCompletion(b, ref) then multiset{CompletionOf(ref)} else multiset{})
    requires refs' == rest + held'
    ensures RefsAfter(refs, refs', b, ref)
  {
    forall x: JobRef
      ensures refs'[x] == if x == ref then 0 else refs[x] + One(LeavesCompletion(b, ref) && x == CompletionOf(ref))
    {
      assert (held' + multiset{ref})[x] == held[x];
      assert (rest + held)[x] == refs[x] + One(LeavesCompletion(b, ref) && x == CompletionOf(ref));
    }
  }

  /** For a batch job, the references change as the batch bookkeeping expects. */
  lemma RanRefs(s: State, w: nat)
    requires Shape(s) && ProtocolOk(s) && LedgerOk(LedgerOf(s)) && w < |s.workers|
    requires s.workers[w].outbox != [] && s.workers[w].outbox[0] == RAN && s.workers[w].run.BatchRun?
    ensures var ref := s.workers[w].run.ref;
            var t := WorkerMessage(s, w);
            && ref in Refs(s) && ref.batch in s.batches && |t.tagged| == |s.tagged|
            && TablesOf(t) == TablesAfter(TablesOf(s), ref)
            && t.submitted == s.submitted && t.nextBatch == s.nextBatch
            && RefsAfter(Refs(s), Refs(t), s.batches[ref.batch], ref)
  {
    hide SettleJob, WorkerMessage, FinishBatchJob, HeldRefs, TaggedRefs, ProtocolOk, TablesAfter, RefsAfter;
    var run := s.workers[w].run;
    var t := WorkerMessage(s, w);
    RanFindsBusy(s, w);
    HeldRefsContains(Held(s), w);
    var l := LedgerOf(s);
    assert run.ref in l.refs;
    assert l.refs[run.ref] == 1 && run.ref.batch in s.batches;
    hide LedgerOk;
    RanHeld(s, w);
    HeldRefsUpdate(Held(s), w, Unloaded);
    var f := RanFinish(s, w);
    var rest := multiset(t.batchJobs) + multiset(t.replyJobs) + TaggedRefs(t.tagged);
    TakeHeld(Refs(s), rest, HeldRefs(Held(s)), HeldRefs(Held(t)), s.batches[run.ref.batch], run.ref, Refs(t));
  }

  lemma RanKeepsBatches(s: State, w: nat)
    requires Core(s) && w < |s.workers|
    requires s.workers[w].outbox != [] && s.workers[w].outbox[0] == RAN
    ensures var t := WorkerMessage(s, w);
            LedgerOk(LedgerOf(t)) && TimersOk(t.timers, t.batches, |t.tagged|)
  {
    var t := WorkerMessage(s, w);
    RanFindsBusy(s, w);
    if s.workers[w].run.BatchRun? {
      var ref := s.workers[w].run.ref;
      RanRefs(s, w);
      hide WorkerMessage;
      FinishKeepsBatches(s, t, ref);
    } else {
      RanCommandTables(s, w);
    }
  }

  /** Both kinds of worker return a batch job to the same bookkeeping. */
  lemma FinishKeepsBatches(s: State, t: State, ref: JobRef)
    requires LedgerOk(LedgerOf(s)) && TimersOk(s.timers, s.batches, |s.tagged|)
    requires ref in Refs(s) && ref.batch in s.batches && |t.tagged| == |s.tagged|
    requires TablesOf(t) == TablesAfter(TablesOf(s), ref)
    requires t.submitted == s.submitted && t.nextBatch == s.nextBatch
    requires RefsAfter(Refs(s), Refs(t), s.batches[ref.batch], ref)
    ensures LedgerOk(LedgerOf(t)) && TimersOk(t.timers, t.batches, |t.tagged|)
  {
    hide Refs, TablesAfter, RefsAfter, TimersOk;
    var l := LedgerOf(s);
    assert l.refs[ref] == 1;
    FinishKeepsLedger(l, s.timers, ref, Refs(t));
    FinishKeepsTimers(TablesOf(s), |s.tagged|, ref);
  }

  lemma RanCommandTables(s: State, w: nat)
    requires Shape(s) && ProtocolOk(s) && w < |s.workers|
    requires s.workers[w].outbox != [] && s.workers[w].outbox[0] == RAN && s.workers[w].run.CommandRun?
    ensures LedgerOf(WorkerMessage(s, w)) == LedgerOf(s)
    ensures var t := WorkerMessage(s, w); t.timers == s.timers && t.tagged == s.tagged
  {
    hide HeldRefs, TaggedRefs, ProtocolOk, FinishBatchJob;
    RanHeld(s, w);
    RanFindsBusy(s, w);
    var t := WorkerMessage(s, w);
    assert t.batchJobs == s.batchJobs && t.replyJobs == s.replyJobs && t.tagged == s.tagged && TablesOf(t) == TablesOf(s);
    assert t.submitted == s.submitted && t.nextBatch == s.nextBatch && t.timers == s.timers;
    hide WorkerMessage;
    HeldRefsUpdate(Held(s), w, Unloaded);
    CancelRight(HeldRefs(Held(t)), HeldRefs(Held(s)), multiset{});
  }

  lemma RanKeepsCore(s: State, w: nat)
    requires Core(s) && w < |s.workers|
    requires s.workers[w].outbox != [] && s.workers[w].outbox[0] == RAN
    ensures Core(WorkerMessage(s, w))
  {
    hide WorkerMessage, LedgerOk, TimersOk, CountersOk, CapacityOk, FifoOk, ProtocolOk, LedgerOf;
    RanKeepsProtocol(s, w);
    RanKeepsCounters(s, w);
    RanKeepsFifo(s, w);
    RanKeepsBatches(s, w);
  }

  // ----- RAN from a tagged worker -----

  lemma TaggedRanFindsBusy(s: State, k: nat)
    requires Shape(s) && ProtocolOk(s) && k < |s.tagged|
    requires s.tagged[k].slot.outbox != [] && s.tagged[k].slot.outbox[0] == RAN
    ensures s.tagged[k].busy && s.tagged[k].slot.run.BatchRun? && s.tagged[k].slot.quits == 0 && s.tagged[k].slot.joinable
    ensures At(s.tagged[k].slot, Waiting, [], [RAN])
  {
    assert TaggedOk(s.tagged[k], s.maxWorkers == 0);
  }

  /** The state in which `FinishBatchJob` is called for tagged worker k's RAN: k is no longer busy. */
  function BeforeTaggedFinish(s: State, k: nat): (a: State)
    requires Shape(s) && k < |s.tagged|
    ensures Shape(a) && |a.tagged| == |s.tagged|
  {
    SetTagged(s, k, TaggedSlot(s.tagged[k].slot.(outbox := []), false, s.tagged[k].queue))
  }

  lemma TaggedRanOutput(s: State, k: nat)
    requires Shape(s) && ProtocolOk(s) && k < |s.tagged|
    requires s.tagged[k].slot.outbox != [] && s.tagged[k].slot.outbox[0] == RAN
    ensures var run := s.tagged[k].slot.run;
            var (f, clear) := FinishBatchJob(BeforeTaggedFinish(s, k), run.ref, run.reply);
            var slot := ClearRun(f.tagged[k].slot, clear);
            TaggedMessage(s, k) ==
              f.(tagged := f.tagged[k := f.tagged[k].(slot := if s.maxWorkers == 0 then SendQuit(slot) else slot)])
  {
    hide FinishBatchJob, ProtocolOk;
    TaggedRanFindsBusy(s, k);
    assert s.tagged[k].slot.outbox[1..] == [];
    var run := s.tagged[k].slot.run;
    var m := SetTagged(s, k, s.tagged[k].(slot := s.tagged[k].slot.(outbox := [])));
    assert SetTagged(m, k, m.tagged[k].(busy := false)) == BeforeTaggedFinish(s, k) by {
      assert SetTagged(m, k, m.tagged[k].(busy := false)).tagged == BeforeTaggedFinish(s, k).tagged;
    }
    FinishFrame(BeforeTaggedFinish(s, k), run.ref, run.reply);
  }

  /** A tagged worker's RAN leaves ordinary workers, counters, limits and pending commands alone. */
  predicate OnlyTagged(s: State, t: State, k: nat) {
    && t == s.(batchJobs := t.batchJobs, replyJobs := t.replyJobs, tagged := t.tagged, batches := t.batches,
               submitted := t.submitted, nextBatch := t.nextBatch, timers := t.timers, finished := t.finished)
    && |t.tagged| == |s.tagged|
    && forall j: nat | j < |s.tagged| && j != k :: t.tagged[j].slot == s.tagged[j].slot && t.tagged[j].busy == s.tagged[j].busy
  }

  lemma TaggedRanFrame(s: State, k: nat)
    requires Shape(s) && ProtocolOk(s) && k < |s.tagged|
    requires s.tagged[k].slot.outbox != [] && s.tagged[k].slot.outbox[0] == RAN
    ensures var t := TaggedMessage(s, k);
            && OnlyTagged(s, t, k) && !t.tagged[k].busy
            && (var slot := s.tagged[k].slot.(outbox := [], run := t.tagged[k].slot.run);
                t.tagged[k].slot == if s.maxWorkers == 0 then SendQuit(slot) else slot)
  {
    hide FinishBatchJob, ProtocolOk, TaggedMessage;
    TaggedRanFindsBusy(s, k);
    TaggedRanOutput(s, k);
    FinishFrame(BeforeTaggedFinish(s, k), s.tagged[k].slot.run.ref, s.tagged[k].slot.run.reply);
  }

  lemma FrameOnlyTagged(s: State, t: State, k: nat)
    requires Shape(s) && OnlyTagged(s, t, k) && k < |s.tagged|
    requires ProtocolOk(s) && TaggedOk(t.tagged[k], s.maxWorkers == 0)
    ensures Shape(t) && Held(t) == Held(s) && ProtocolOk(t)
    ensures CountersOk(s) ==> CountersOk(t)
    ensures CapacityOk(s) ==> CapacityOk(t)
    ensures FifoOk(s) ==> FifoOk(t)
    ensures SettledOk(s) ==> SettledOk(t)
  {
    assert Held(t) == Held(s);
    assert Loads(t) == Loads(s);
    forall j: nat | j < |t.tagged|
      ensures TaggedOk(t.tagged[j], t.maxWorkers == 0)
    {
      assert TaggedOk(s.tagged[j], s.maxWorkers == 0);
    }
    if FifoOk(s) {
      forall c: nat | c < |t.cats|
        ensures FifoAt(t, c)
      {
        assert FifoAt(s, c);
      }
    }
  }

  lemma TaggedRelease(s: State, k: nat)
    requires Shape(s) && ProtocolOk(s) && k < |s.tagged|
    requires s.tagged[k].slot.outbox != [] && s.tagged[k].slot.outbox[0] == RAN
    ensures Refs(s) == Refs(BeforeTaggedFinish(s, k)) + multiset{s.tagged[k].slot.run.ref}
  {
    hide TaggedRefs, HeldRefs, ProtocolOk;
    TaggedRanFindsBusy(s, k);
    var a := BeforeTaggedFinish(s, k);
    TaggedUpdate(s.tagged, k, a.tagged[k]);
    AddRight(TaggedRefs(s.tagged), TaggedRefs(a.tagged), TaggedRefsOf(a.tagged[k]), multiset{s.tagged[k].slot.run.ref});
    SameHeld(s, a);
    AddThird(multiset(s.batchJobs) + multiset(s.replyJobs), TaggedRefs(a.tagged), HeldRefs(Held(s)),
             multiset{s.tagged[k].slot.run.ref});
  }

  /** The queues and busy flags decide the references of the tagged workers that are not busy. */
  lemma TaggedClear(s: State, k: nat, slot: Slot)
    requires k < |s.tagged| && !s.tagged[k].busy
    ensures Refs(s.(tagged := s.tagged[k := s.tagged[k].(slot := slot)])) == Refs(s)
  {
    hide TaggedRefs, HeldRefs;
    var t := s.(tagged := s.tagged[k := s.tagged[k].(slot := slot)]);
    TaggedUpdate(s.tagged, k, t.tagged[k]);
    CancelRight(TaggedRefs(t.tagged), TaggedRefs(s.tagged), TaggedRefsOf(s.tagged[k]));
    SameHeld(s, t);
  }

  lemma TakeBefore(refs: multiset<JobRef>, a: multiset<JobRef>, b: Batch, ref: JobRef, refs': multiset<JobRef>)
    requires refs[ref] == 1 && refs == a + multiset{ref}
    requires refs' == a + (if LeavesCompletion(b, ref) then multiset{CompletionOf(ref)} else multiset{})
    ensures RefsAfter(refs, refs', b, ref)
  {
    forall x: JobRef
      ensures refs'[x] == if x == ref then 0 else refs[x] + One(LeavesCompletion(b, ref) && x == CompletionOf(ref))
    {
      assert (a + multiset{ref})[x] == refs[x];
    }
  }

  lemma TaggedRanRefs(s: State, k: nat)
    requires Shape(s) && ProtocolOk(s) && LedgerOk(LedgerOf(s)) && k < |s.tagged|
    requires s.tagged[k].slot.outbox != [] && s.tagged[k].slot.outbox[0] == RAN
    ensures var ref := s.tagged[k].slot.run.ref;
            var t := TaggedMessage(s, k);
            && ref in Refs(s) && ref.batch in s.batches && |t.tagged| == |s.tagged|
            && TablesOf(t) == TablesAfter(TablesOf(s), ref)
            && t.submitted == s.submitted && t.nextBatch == s.nextBatch
            && RefsAfter(Refs(s), Refs(t), s.batches[ref.batch], ref)
  {
    hide TaggedMessage, FinishBatchJob, Refs, ProtocolOk, TablesAfter, RefsAfter;
    var run := s.tagged[k].slot.run;
    var t := TaggedMessage(s, k);
    var a := BeforeTaggedFinish(s, k);
    TaggedRanFindsBusy(s, k);
    TaggedRelease(s, k);
    var l := LedgerOf(s);
    assert run.ref in l.refs;
    assert l.refs[run.ref] == 1 && run.ref.batch in s.batches;
    hide LedgerOk;
    TaggedRanOutput(s, k);
    var f := FinishBatchJob(a, run.ref, run.reply).0;
    FinishRefs(a, run.ref, run.reply);
    FinishTables(a, run.ref, run.reply);
    assert !f.tagged[k].busy;
    TaggedClear(f, k, t.tagged[k].slot);
    assert t == f.(tagged := f.tagged[k := f.tagged[k].(slot := t.tagged[k].slot)]);
    TakeBefore(Refs(s), Refs(a), s.batches[run.ref.batch], run.ref, Refs(t));
  }

  lemma TaggedRanKeepsCore(s: State, k: nat)
    requires Core(s) && k < |s.tagged|
    requires s.tagged[k].slot.outbox != [] && s.tagged[k].slot.outbox[0] == RAN
    ensures Core(TaggedMessage(s, k))
  {
    hide TaggedMessage, LedgerOk, TimersOk, CountersOk, CapacityOk, FifoOk, ProtocolOk, TablesAfter, RefsAfter, Refs;
    var t := TaggedMessage(s, k);
    TaggedRanFindsBusy(s, k);
    TaggedRanFrame(s, k);
    FrameOnlyTagged(s, t, k);
    TaggedRanRefs(s, k);
    FinishKeepsBatches(s, t, s.tagged[k].slot.run.ref);
  }

  // ----- QUITTING, and the threads' own steps -----

  /** Worker w's thread or channels moved on; its record and quit count did not. */
  lemma WorkerSlotKeeps(s: State, w: nat, slot: Slot)
    requires Core(s) && w < |s.workers|
    requires slot.run == s.workers[w].run && slot.quits == s.workers[w].quits
    requires WorkerOk(slot, w in s.idle, s.maxWorkers == 0)
    ensures Core(SetWorker(s, w, slot))
    ensures SettledOk(s) ==> SettledOk(SetWorker(s, w, slot))
  {
    hide LedgerOk, TimersOk, Refs;
    var t := SetWorker(s, w, slot);
    SameHeld(s, t);
    RefsParts(s, t);
    assert Loads(t) == Loads(s);
    forall i: nat | i < |t.workers|
      ensures WorkerOk(t.workers[i], i in t.idle, t.maxWorkers == 0)
    {
      assert WorkerOk(s.workers[i], i in s.idle, s.maxWorkers == 0);
    }
    forall c: nat | c < |t.cats|
      ensures FifoAt(t, c)
    {
      assert FifoAt(s, c);
    }
  }

  lemma TaggedSlotKeeps(s: State, k: nat, slot: Slot)
    requires Core(s) && k < |s.tagged|
    requires slot.run == s.tagged[k].slot.run
    requires TaggedOk(s.tagged[k].(slot := slot), s.maxWorkers == 0)
    ensures Core(SetTagged(s, k, s.tagged[k].(slot := slot)))
    ensures SettledOk(s) ==> SettledOk(SetTagged(s, k, s.tagged[k].(slot := slot)))
  {
    hide LedgerOk, TimersOk, TaggedRefs, HeldRefs, CountersOk, CapacityOk, FifoOk, ProtocolOk, SettledOk;
    var t := SetTagged(s, k, s.tagged[k].(slot := slot));
    FrameOnlyTagged(s, t, k);
    TaggedUpdate(s.tagged, k, t.tagged[k]);
    CancelRight(TaggedRefs(t.tagged), TaggedRefs(s.tagged), TaggedRefsOf(s.tagged[k]));
  }

  /** Receiving keeps the protocol, and RUN and START always reach a thread that awaits them. */
  lemma ReceiveKeeps(slot: Slot, quitting: bool)
    requires WorkerOk(slot, false, quitting) && CanReceive(slot)
    ensures WorkerOk(Receive(slot), false, quitting)
    ensures slot.inbox[0] == RUN ==> slot.thread == Waiting && Receive(slot).thread == Executing
    ensures slot.inbox[0] != START
  {
    assert slot.inbox[1..] == [];
  }

  lemma TaggedReceiveKeeps(tw: TaggedSlot, quitting: bool)
    requires TaggedOk(tw, quitting) && CanReceive(tw.slot)
    ensures TaggedOk(tw.(slot := Receive(tw.slot)), quitting)
    ensures tw.slot.inbox[0] == RUN ==> tw.slot.thread == Waiting && Receive(tw.slot).thread == Executing
    ensures tw.slot.inbox[0] == START ==> tw.slot.thread == AwaitingStart && Receive(tw.slot).thread == Waiting
  {
    assert [START, RUN][1..] == [RUN] && [START, QUIT][1..] == [QUIT];
    assert |tw.slot.inbox| == 1 ==> tw.slot.inbox[1..] == [];
  }

  lemma WorkerReceiveKeepsCore(s: State, w: nat)
    requires Core(s) && w < |s.workers| && CanReceive(s.workers[w])
    ensures Core(SetWorker(s, w, Receive(s.workers[w])))
    ensures SettledOk(s) ==> SettledOk(SetWorker(s, w, Receive(s.workers[w])))
  {
    assert WorkerOk(s.workers[w], w in s.idle, s.maxWorkers == 0);
    ReceiveKeeps(s.workers[w], s.maxWorkers == 0);
    WorkerSlotKeeps(s, w, Receive(s.workers[w]));
  }

  lemma WorkerFinishKeepsCore(s: State, w: nat)
    requires Core(s) && w < |s.workers| && s.workers[w].thread == Executing
    ensures Core(SetWorker(s, w, Finish(s.workers[w])))
    ensures SettledOk(s) ==> SettledOk(SetWorker(s, w, Finish(s.workers[w])))
  {
    assert WorkerOk(s.workers[w], w in s.idle, s.maxWorkers == 0);
    WorkerSlotKeeps(s, w, Finish(s.workers[w]));
  }

  lemma TaggedReceiveKeepsCore(s: State, k: nat)
    requires Core(s) && k < |s.tagged| && CanReceive(s.tagged[k].slot)
    ensures Core(SetTagged(s, k, s.tagged[k].(slot := Receive(s.tagged[k].slot))))
    ensures SettledOk(s) ==> SettledOk(SetTagged(s, k, s.tagged[k].(slot := Receive(s.tagged[k].slot))))
  {
    assert TaggedOk(s.tagged[k], s.maxWorkers == 0);
    TaggedReceiveKeeps(s.tagged[k], s.maxWorkers == 0);
    TaggedSlotKeeps(s, k, Receive(s.tagged[k].slot));
  }

  lemma TaggedFinishKeepsCore(s: State, k: nat)
    requires Core(s) && k < |s.tagged| && s.tagged[k].slot.thread == Executing
    ensures Core(SetTagged(s, k, s.tagged[k].(slot := Finish(s.tagged[k].slot))))
    ensures SettledOk(s) ==> SettledOk(SetTagged(s, k, s.tagged[k].(slot := Finish(s.tagged[k].slot))))
  {
    assert TaggedOk(s.tagged[k], s.maxWorkers == 0);
    TaggedSlotKeeps(s, k, Finish(s.tagged[k].slot));
  }

  lemma WorkerMessageKeepsCore(s: State, w: nat)
    requires Core(s) && w < |s.workers| && s.workers[w].outbox != []
    ensures Core(WorkerMessage(s, w))
  {
    if s.workers[w].outbox[0] == RAN {
      RanKeepsCore(s, w);
    } else {
      assert WorkerOk(s.workers[w], w in s.idle, s.maxWorkers == 0);
      assert s.workers[w].outbox[1..] == [];
      var slot := s.workers[w].(outbox := [], joinable := false);
      WorkerSlotKeeps(s, w, slot);
      QuittingIs(s, w);
    }
  }

  lemma QuittingIs(s: State, w: nat)
    requires Shape(s) && w < |s.workers| && s.workers[w].outbox == [QUITTING]
    ensures WorkerMessage(s, w) == SetWorker(s, w, s.workers[w].(outbox := [], joinable := false))
  {
    assert s.workers[w].outbox[1..] == [];
    assert WorkerMessage(s, w).workers == SetWorker(s, w, s.workers[w].(outbox := [], joinable := false)).workers;
  }

  lemma TaggedMessageKeepsCore(s: State, k: nat)
    requires Core(s) && k < |s.tagged| && s.tagged[k].slot.outbox != []
    ensures Core(TaggedMessage(s, k))
  {
    if s.tagged[k].slot.outbox[0] == RAN {
      TaggedRanKeepsCore(s, k);
    } else {
      assert TaggedOk(s.tagged[k], s.maxWorkers == 0);
      assert s.tagged[k].slot.outbox == [QUITTING];
      TaggedSlotKeeps(s, k, s.tagged[k].slot.(outbox := [], joinable := false));
      TaggedQuittingIs(s, k);
    }
  }

  lemma TaggedQuittingIs(s: State, k: nat)
    requires Shape(s) && k < |s.tagged| && s.tagged[k].slot.outbox == [QUITTING]
    ensures TaggedMessage(s, k) == SetTagged(s, k, s.tagged[k].(slot := s.tagged[k].slot.(outbox := [], joinable := false)))
  {
    assert s.tagged[k].slot.outbox[1..] == [];
    assert TaggedMessage(s, k).tagged
        == SetTagged(s, k, s.tagged[k].(slot := s.tagged[k].slot.(outbox := [], joinable := false))).tagged;
  }

  lemma WorkerQuitting(s: State, w: nat)
    requires Core(s) && w < |s.workers| && s.workers[w].outbox != [] && s.workers[w].outbox[0] == QUITTING
    ensures s.workers[w].outbox == [QUITTING]
  {
    hide LedgerOk, TimersOk, CountersOk, CapacityOk, FifoOk;
    assert WorkerOk(s.workers[w], w in s.idle, s.maxWorkers == 0);
  }

  lemma TaggedQuitting(s: State, k: nat)
    requires Core(s) && k < |s.tagged| && s.tagged[k].slot.outbox != [] && s.tagged[k].slot.outbox[0] == QUITTING
    ensures s.tagged[k].slot.outbox == [QUITTING]
  {
    hide LedgerOk, TimersOk, CountersOk, CapacityOk, FifoOk;
    assert TaggedOk(s.tagged[k], s.maxWorkers == 0);
  }
}
