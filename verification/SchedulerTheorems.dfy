/** What holds in every state of every run of the proxy loop. */
module SchedulerTheorems {
  import opened Basics
  import opened SchedulerModel
  import opened SchedulerViews
  import opened SchedulerLedger
  import opened SchedulerInvariant
  import opened SchedulerStarts
  import opened SchedulerQueues
  import opened SchedulerSubmits
  import opened SchedulerMessages
  import opened SchedulerRuns

  // ----- capacity -----

  lemma {:induction false} OthersAtMost(q: seq<Load>, i: nat)
    requires i < |q|
    ensures SumActive(q) - q[i].active <= SumReserved(q) - q[i].reserved + SumExcess(q) - Excess(q[i])
    decreases |q|
  {
    var n := |q| - 1;
    if i == n {
      ActiveAtMost(q[..n]);
    } else {
      OthersAtMost(q[..n], i);
    }
  }

  /**
   Until QUIT, in every run: the classes together use at most `general` workers beyond their
   reservations, no more than `maxWorkers` workers are busy, worker records never outgrow the space
   reserved at startup, and the classes other than k leave k its reservation.
   */
  lemma CapacityOverRuns(states: seq<State>, events: seq<Event>, i: nat, k: Class)
    requires IsRun(states, events) && i < |states| && states[i].maxWorkers != 0
    requires k.CatClass? ==> k.cat < |states[i].cats|
    ensures var s := states[i];
            && SumExcess(Loads(s)) <= s.general
            && ActiveWorkers(s) == SumActive(Loads(s)) <= s.maxWorkers
            && |s.workers| <= s.capacity == s.maxWorkers
            && ActiveWorkers(s) - Count(Held(s), k) <= s.maxWorkers - Loads(s)[IndexOf(k)].reserved
  {
    var s := states[i];
    RunInvariant(states, events, i);
    LoadsNonNegative(s);
    SumBounds(Loads(s));
    OthersAtMost(Loads(s), IndexOf(k));
    CountIsLoad(s, k);
  }

  lemma CountIsLoad(s: State, k: Class)
    requires CountersOk(s) && (k.CatClass? ==> k.cat < |s.cats|)
    ensures Count(Held(s), k) == Loads(s)[IndexOf(k)].active
  {
    hide Loads, Held, Count, SumActive;
    match k
    case BatchClass =>
    case ReplyClass =>
    case CatClass(c) => assert Loads(s)[c + 2] == Load(s.cats[c].active, s.cats[c].reserved);
  }

  /** In every run, each class counter is the number of workers holding a job of that class. */
  lemma CountersOverRuns(states: seq<State>, events: seq<Event>, i: nat)
    requires IsRun(states, events) && i < |states|
    ensures var s := states[i];
            && s.batchActive == Count(Held(s), BatchClass) && s.replyActive == Count(Held(s), ReplyClass)
            && (forall c: nat | c < |s.cats| :: s.cats[c].active == Count(Held(s), CatClass(c)))
            && NoDup(s.idle) && (forall j | 0 <= j < |s.idle| :: s.idle[j] < |s.workers|)
            && (forall c: nat | c < |s.cats| ::
                  && s.cats[c].queued == |TasksOf(s.pending, c)|
                  && (s.cats[c].maxQueue >= 0 ==> s.cats[c].queued <= s.cats[c].maxQueue))
  {
    var s := states[i];
    RunInvariant(states, events, i);
    forall c: nat | c < |s.cats|
      ensures s.cats[c].queued == |TasksOf(s.pending, c)| && (s.cats[c].maxQueue >= 0 ==> s.cats[c].queued <= s.cats[c].maxQueue)
    {
      assert FifoAt(s, c);
    }
  }

  /** After QUIT an admission can outgrow the reserved space: it stays within it exactly when it starts no new record there. */
  lemma AdmissionAfterQuit(s: State, cat: nat, task: Task)
    requires Inv(s) && s.maxWorkers == 0 && cat < |s.cats|
    ensures |Admit(s, cat, task).workers| <= s.capacity <==> !(Dispatchable(s, cat) && |s.workers| == s.capacity)
  {
    hide LedgerOk, TimersOk, CountersOk, FifoOk;
    assert ProtocolOk(s) && CapacityOk(s);
  }

  // ----- order -----

  /** Histories are only appended to. */
  predicate Grows(s: State, t: State) {
    && |t.accepted| == |s.accepted| && |t.started| == |s.started|
    && (forall c | 0 <= c < |s.accepted| :: s.accepted[c] <= t.accepted[c])
    && (forall c | 0 <= c < |s.started| :: s.started[c] <= t.started[c])
  }

  lemma GrowsTrans(s: State, t: State, u: State)
    requires Grows(s, t) && Grows(t, u)
    ensures Grows(s, u)
  {
  }

  lemma StartCommandGrows(s: State, cat: nat, task: Task)
    requires Shape(s) && cat < |s.cats|
    ensures Grows(s, StartCommand(s, cat, task))
  {
  }

  lemma {:induction false} DrainCommandsGrows(s: State, i: nat)
    requires Shape(s) && i <= |s.pending|
    ensures Grows(s, DrainCommands(s, i))
    decreases |s.pending| - i
  {
    if i < |s.pending| && ActiveWorkers(s) < s.maxWorkers {
      if Dispatchable(s, s.pending[i].cat) {
        var u := StartPending(s, i);
        StartCommandGrows(s, s.pending[i].cat, s.pending[i].task);
        DrainCommandsGrows(u, i);
        GrowsTrans(s, u, DrainCommands(u, i));
      } else {
        DrainCommandsGrows(s, i + 1);
      }
    }
  }

  lemma {:induction false} DrainJobsSame(s: State, reply: bool)
    requires Shape(s)
    ensures var t := DrainJobs(s, reply);
            t == s.(workers := t.workers, idle := t.idle, batchJobs := t.batchJobs, replyJobs := t.replyJobs,
                    batchActive := t.batchActive, replyActive := t.replyActive)
    decreases |JobQueue(s, reply)|
  {
    hide Launch;
    if JobQueue(s, reply) != [] && ActiveWorkers(s) < s.maxWorkers && JobDispatchable(s, reply) {
      DrainJobsSame(StartBatchJob(s, reply), reply);
    }
  }

  lemma {:induction false} DrainTaggedSame(s: State, k: nat)
    requires Shape(s) && k <= |s.tagged|
    ensures var t := DrainTagged(s, k); t == s.(tagged := t.tagged)
    decreases |s.tagged| - k
  {
    if k < |s.tagged| {
      DrainTaggedSame(SetTagged(s, k, StartTagged(s.tagged[k])), k + 1);
    }
  }

  lemma ProcessQueueGrows(s: State)
    requires Shape(s)
    ensures Grows(s, ProcessQueue(s))
  {
    hide DrainTagged, DrainJobs, DrainCommands;
    if s.maxWorkers != 0 {
      DrainTaggedSame(s, 0);
      DrainJobsSame(DrainTagged(s, 0), false);
      DrainJobsSame(DrainJobs(DrainTagged(s, 0), false), true);
      DrainCommandsGrows(DrainJobs(DrainJobs(DrainTagged(s, 0), false), true), 0);
    }
  }

  lemma AdmitGrows(s: State, cat: nat, task: Task)
    requires Shape(s) && cat < |s.cats|
    ensures Grows(s, Admit(s, cat, task))
  {
    StartCommandGrows(Accept(s, cat, task), cat, task);
  }

  lemma WorkerMessageGrows(s: State, w: nat)
    requires Core(s) && w < |s.workers| && s.workers[w].outbox != []
    ensures WorkerMessage(s, w).accepted == s.accepted && WorkerMessage(s, w).started == s.started
  {
    hide FinishBatchJob, SettleJob, ProtocolOk, LedgerOk, TimersOk, CountersOk, CapacityOk, FifoOk;
    if s.workers[w].outbox[0] == RAN {
      RanIs(s, w);
      SettleFrame(SetWorker(s, w, s.workers[w].(outbox := [])), w);
    }
  }

  lemma TaggedMessageGrows(s: State, k: nat)
    requires Core(s) && k < |s.tagged| && s.tagged[k].slot.outbox != []
    ensures TaggedMessage(s, k).accepted == s.accepted && TaggedMessage(s, k).started == s.started
  {
    hide FinishBatchJob, SettleTagged, ProtocolOk, LedgerOk, TimersOk, CountersOk, CapacityOk, FifoOk;
    if s.tagged[k].slot.outbox[0] == RAN {
      TaggedRanFrame(s, k);
    }
  }

  lemma MessageGrows(s: State, e: Event)
    requires Core(s) && Enabled(s, e) && (e.FromWorker? || e.FromTagged?)
    ensures Grows(s, Step(s, e))
  {
    hide Core, WorkerMessage, TaggedMessage;
    match e
    case FromWorker(w) => WorkerMessageGrows(s, w);
    case FromTagged(k) => TaggedMessageGrows(s, k);
  }

  lemma QueueingGrows(s: State, e: Event)
    requires Core(s) && Enabled(s, e) && (e.Submit? || e.Fire?)
    ensures Grows(s, Step(s, e))
  {
    hide PushJobs, PushJob, LedgerOk, CountersOk, CapacityOk, FifoOk, Refs, ProtocolOk;
    match e
    case Submit(threads, complete, completeIn) =>
      PushJobsRefs(Own(s, NewBatch(threads, complete, completeIn, None)), s.nextBatch, threads, 0);
    case Fire(id) =>
      if Fires(s, id) { FireTimerSubmits(s, id); }
  }

  lemma QuitGrows(s: State)
    requires Core(s)
    ensures Grows(s, Quit(s))
  {
    QuitEffect(s);
  }

  lemma StepGrows(s: State, e: Event)
    requires Inv(s) && Enabled(s, e)
    ensures Grows(s, Step(s, e))
  {
    hide Core, Admit, SubmitBatch, FireTimer, WorkerMessage, TaggedMessage, ProcessQueue, Quit;
    if e.Inject? || e.Command? {
      AdmitGrows(s, e.cat, e.task);
    } else if e.FromWorker? || e.FromTagged? {
      MessageGrows(s, e);
    } else if e.Submit? || e.Fire? {
      QueueingGrows(s, e);
    } else if e.QuitAll? {
      QuitGrows(s);
    } else if e.NextPhase? {
      ProcessQueueGrows(s);
    }
  }

  lemma {:induction false} HistoryGrows(states: seq<State>, events: seq<Event>, i: nat, j: nat)
    requires IsRun(states, events) && i <= j < |states|
    ensures Grows(states[i], states[j])
    decreases j
  {
    hide Step, Enabled, Inv, IsStart;
    if i < j {
      HistoryGrows(states, events, i, j - 1);
      RunInvariant(states, events, j - 1);
      StepGrows(states[j - 1], events[j - 1]);
      GrowsTrans(states[i], states[j - 1], states[j]);
    }
  }

  /**
   Per-category order over whole runs: what has started is a prefix of what was accepted, what was
   accepted but not started is exactly the queue, and neither history is ever rewritten.
   */
  lemma OrderOverRuns(states: seq<State>, events: seq<Event>, i: nat, j: nat, c: nat)
    requires IsRun(states, events) && i <= j < |states| && c < |states[j].cats|
    ensures |states[i].accepted| == |states[j].accepted| == |states[j].cats| == |states[j].started| == |states[i].started|
    ensures states[j].accepted[c] == states[j].started[c] + TasksOf(states[j].pending, c)
    ensures states[i].accepted[c] <= states[j].accepted[c] && states[i].started[c] <= states[j].started[c]
  {
    RunInvariant(states, events, j);
    HistoryGrows(states, events, i, j);
    assert FifoAt(states[j], c);
  }

  /** In every run, the drain leaves nothing queued that could be started. */
  lemma DrainOverRuns(states: seq<State>, events: seq<Event>, i: nat)
    requires IsRun(states, events) && i < |events|
    requires events[i].NextPhase? && states[i].phase == TimerPhase && states[i].maxWorkers != 0
    ensures Shape(states[i + 1]) && AllSettled(states[i + 1])
  {
    hide Inv, Advance, AllSettled, IsStart;
    RunInvariant(states, events, i);
    AdvanceKeepsInv(states[i]);
  }

  // ----- batches -----

  function QueueBags(q: seq<TaggedSlot>): (b: seq<multiset<JobRef>>)
    ensures |b| == |q|
    ensures forall i | 0 <= i < |q| :: b[i] == multiset(q[i].queue)
  {
    seq(|q|, i requires 0 <= i < |q| => multiset(q[i].queue))
  }

  function RunBags(q: seq<TaggedSlot>): (b: seq<multiset<JobRef>>)
    ensures |b| == |q|
    ensures forall i | 0 <= i < |q| :: b[i] == if q[i].busy then RefOf(q[i].slot.run) else multiset{}
  {
    seq(|q|, i requires 0 <= i < |q| => if q[i].busy then RefOf(q[i].slot.run) else multiset{})
  }

  /** Jobs waiting in any queue, and jobs held by any working thread. */
  function Queued(s: State): multiset<JobRef> {
    multiset(s.batchJobs) + multiset(s.replyJobs) + Gather(QueueBags(s.tagged))
  }

  function RunningJobs(s: State): multiset<JobRef> {
    Gather(RunBags(s.tagged)) + HeldRefs(Held(s))
  }

  lemma {:induction false} GatherSum<T>(a: seq<multiset<T>>, b: seq<multiset<T>>, c: seq<multiset<T>>)
    requires |a| == |b| == |c| && forall i | 0 <= i < |a| :: c[i] == a[i] + b[i]
    ensures Gather(c) == Gather(a) + Gather(b)
    decreases |a|
  {
    if a != [] {
      var n := |a| - 1;
      GatherSum(a[..n], b[..n], c[..n]);
      SumOfFour(Gather(a[..n]), Gather(b[..n]), a[n], b[n]);
    }
  }

  lemma SumOfFour<T>(a: multiset<T>, b: multiset<T>, c: multiset<T>, d: multiset<T>)
    ensures (a + b) + (c + d) == (a + c) + (b + d)
  {
  }

  lemma RefsSplit(s: State, r: JobRef)
    ensures Refs(s)[r] == Queued(s)[r] + RunningJobs(s)[r]
  {
    hide Gather, HeldRefs;
    GatherSum(QueueBags(s.tagged), RunBags(s.tagged), TaggedBags(s.tagged));
  }

  /** Each job of each batch ever submitted is at any time in exactly one of: a queue, a working thread, the finished jobs. */
  lemma JobsOverRuns(states: seq<State>, events: seq<Event>, i: nat, r: JobRef)
    requires IsRun(states, events) && i < |states|
    requires r.batch in states[i].submitted && 0 <= r.jobno < |states[i].submitted[r.batch].threads|
    ensures var s := states[i];
            && Queued(s)[r] + RunningJobs(s)[r] + One(r in s.finished) == 1
            && NoDup(s.finished)
            && (r.batch in s.batches ==> s.batches[r.batch].outstanding == |OpenJobs(Refs(s), r.batch, |s.submitted[r.batch].threads|)|)
  {
    var s := states[i];
    RunInvariant(states, events, i);
    hide Refs, Queued, RunningJobs;
    RefsSplit(s, r);
    var l := LedgerOf(s);
    assert IsJob(l, r);
    if r.batch in s.batches {
      assert BatchOk(l.refs, r.batch, l.batches[r.batch], l.submitted);
    }
  }

  /**
   The completion of a batch exists at most once, and only after every job of the batch has finished;
   when it has finished, it did so after all of them.
   */
  lemma CompletionsOverRuns(states: seq<State>, events: seq<Event>, i: nat, id: nat)
    requires IsRun(states, events) && i < |states| && id in states[i].submitted
    ensures var s := states[i];
            var c := JobRef(id, COMPLETION);
            && Queued(s)[c] + RunningJobs(s)[c] + One(c in s.finished) <= 1
            && (c in Queued(s) || c in RunningJobs(s) || c in s.finished ==> s.submitted[id].complete && AllJobsIn(s.submitted, id, s.finished))
            && (forall p | 0 <= p < |s.finished| && s.finished[p] == c :: AllJobsIn(s.submitted, id, s.finished[..p]))
  {
    var s := states[i];
    var c := JobRef(id, COMPLETION);
    RunInvariant(states, events, i);
    hide Refs, Queued, RunningJobs;
    RefsSplit(s, c);
    var l := LedgerOf(s);
    if c in l.refs {
      CompletionWaits(l, id);
    } else if c in s.finished {
      assert IsCompletion(l, c);
      var p :| 0 <= p < |s.finished| && s.finished[p] == c;
      assert AllJobsIn(s.submitted, id, s.finished[..p]);
    }
  }

  lemma CompletionWaits(l: Ledger, id: nat)
    requires LedgerOk(l) && JobRef(id, COMPLETION) in l.refs
    ensures l.refs[JobRef(id, COMPLETION)] == 1 && JobRef(id, COMPLETION) !in l.finished
    ensures id in l.submitted && l.submitted[id].complete && AllJobsIn(l.submitted, id, l.finished)
  {
    var c := JobRef(id, COMPLETION);
    var b := l.batches[id];
    assert RefOk(b, c.jobno) && BatchOk(l.refs, id, b, l.submitted);
    assert IsCompletion(l, c);
    var open := OpenJobs(l.refs, id, |b.threads|);
    assert |open| == 0;
    forall j | 0 <= j < |b.threads|
      ensures JobRef(id, j) in l.finished
    {
      assert IsJob(l, JobRef(id, j));
      assert j !in open;
    }
  }

  /** Once a batch is deleted, no queue and no working thread refers to it, and everything it promised has run. */
  lemma DeletedOverRuns(states: seq<State>, events: seq<Event>, i: nat, r: JobRef)
    requires IsRun(states, events) && i < |states|
    requires r.batch in states[i].submitted && r.batch !in states[i].batches
    ensures var s := states[i];
            && r !in Queued(s) && r !in RunningJobs(s)
            && AllJobsIn(s.submitted, r.batch, s.finished)
            && (s.submitted[r.batch].complete ==> JobRef(r.batch, COMPLETION) in s.finished)
  {
    var s := states[i];
    RunInvariant(states, events, i);
    hide Refs, Queued, RunningJobs;
    RefsSplit(s, r);
    var l := LedgerOf(s);
    assert r !in l.refs;
    forall j | 0 <= j < |s.submitted[r.batch].threads|
      ensures JobRef(r.batch, j) in s.finished
    {
      assert IsJob(l, JobRef(r.batch, j));
    }
    if s.submitted[r.batch].complete {
      assert IsCompletion(l, JobRef(r.batch, COMPLETION));
    }
  }

  // ----- timers -----

  /** A squelched timer is marked running exactly when one batch of its own is live, and then only one. */
  lemma TimersOverRuns(states: seq<State>, events: seq<Event>, i: nat, t: nat)
    requires IsRun(states, events) && i < |states| && t in states[i].timers
    ensures var s := states[i];
            && (s.timers[t].running <==> exists b :: b in s.batches && s.batches[b].timer == Some(t))
            && (forall b, b' | b in s.batches && b' in s.batches && s.batches[b].timer == s.batches[b'].timer == Some(t) :: b == b')
            && (forall b | b in s.batches && s.batches[b].timer == Some(t) :: |s.batches[b].threads| == 1)
  {
    var s := states[i];
    RunInvariant(states, events, i);
    forall b | b in s.batches && s.batches[b].timer == Some(t)
      ensures s.timers[t].running && |s.batches[b].threads| == 1
    {
      assert TimerBatchOk(s.batches[b], s.timers);
    }
    if s.timers[t].running {
      assert HasBatch(s.batches, t);
    }
  }
}
