/** What one event of a run can do to the records and threads it is not about. */
module SchedulerFrames {
  import opened Basics
  import opened SchedulerModel
  import opened SchedulerViews
  import opened SchedulerLedger
  import opened SchedulerInvariant
  import opened SchedulerStarts
  import opened SchedulerQueues
  import opened SchedulerSubmits
  import opened SchedulerRuns

  // ----- records -----

  /** The record of an ordinary worker or of a tagged one. */
  datatype Rec = Ordinary(i: nat) | TaggedRec(k: nat)

  predicate Has(s: State, rec: Rec) {
    match rec case Ordinary(i) => i < |s.workers| case TaggedRec(k) => k < |s.tagged|
  }

  function SlotOf(s: State, rec: Rec): Slot
    requires Has(s, rec)
  {
    match rec case Ordinary(i) => s.workers[i] case TaggedRec(k) => s.tagged[k].slot
  }

  /** The record has been loaded with a job that has not been reported yet. */
  predicate Holds(s: State, rec: Rec) {
    && Has(s, rec)
    && match rec case Ordinary(i) => i !in s.idle && s.workers[i].quits == 0 case TaggedRec(k) => s.tagged[k].busy
  }

  /** The record whose thread takes the step or whose message is handled. */
  function Actor(e: Event): Option<Rec> {
    match e
    case FromWorker(w) => Some(Ordinary(w))
    case WorkerReceives(w) => Some(Ordinary(w))
    case WorkerFinishes(w) => Some(Ordinary(w))
    case FromTagged(k) => Some(TaggedRec(k))
    case TaggedReceives(k) => Some(TaggedRec(k))
    case TaggedFinishes(k) => Some(TaggedRec(k))
    case _ => None
  }

  /**
   A record that holds a job keeps the job, its thread and its channels untouched; one that holds none is
   either loaded with a job or keeps what it was last loaded with.
   */
  predicate RecFramed(s: State, t: State, rec: Rec)
    requires Has(s, rec) && Has(t, rec)
  {
    && SlotOf(t, rec).outbox == SlotOf(s, rec).outbox
    && if Holds(s, rec) then Holds(t, rec) && SlotOf(t, rec) == SlotOf(s, rec)
       else Holds(t, rec) || SlotOf(t, rec).run == SlotOf(s, rec).run
  }

  predicate Framed(s: State, t: State, but: Option<Rec>) {
    && |t.workers| >= |s.workers| && |t.tagged| == |s.tagged|
    && (forall i: nat | i < |s.workers| && but != Some(Ordinary(i)) :: RecFramed(s, t, Ordinary(i)))
    && (forall k: nat | k < |s.tagged| && but != Some(TaggedRec(k)) :: RecFramed(s, t, TaggedRec(k)))
    && (forall i: nat | |s.workers| <= i < |t.workers| :: Holds(t, Ordinary(i)) && t.workers[i].outbox == [])
  }

  /** Starts of command `x` of category `c` that no worker holds any more. */
  function Owed(s: State, c: nat, x: Task): int
    requires c < |s.started|
  {
    multiset(s.started[c])[x] as int - multiset(Held(s))[CommandRun(c, x)] as int
  }

  ghost predicate Balanced(s: State, t: State) {
    |t.started| == |s.started| && forall c: nat, x: Task | c < |s.started| :: Owed(t, c, x) == Owed(s, c, x)
  }

  /** Nothing is reported: no job ends, and whatever is started is held. */
  ghost predicate Quiet(s: State, t: State) {
    Framed(s, t, None) && Balanced(s, t) && t.finished == s.finished
  }

  lemma QuietSame(s: State)
    ensures Quiet(s, s)
  {
  }

  lemma RecTrans(s: State, t: State, u: State, rec: Rec)
    requires Has(s, rec) && Has(t, rec) && Has(u, rec) && RecFramed(s, t, rec) && RecFramed(t, u, rec)
    ensures RecFramed(s, u, rec)
  {
  }

  lemma QuietTrans(s: State, t: State, u: State)
    requires Quiet(s, t) && Quiet(t, u)
    ensures Quiet(s, u)
  {
    FramedTrans(s, t, u);
    hide Framed;
    forall c: nat, x: Task | c < |s.started| ensures Owed(u, c, x) == Owed(s, c, x) {
      assert Owed(t, c, x) == Owed(s, c, x);
    }
  }

  lemma FramedTrans(s: State, t: State, u: State)
    requires Framed(s, t, None) && Framed(t, u, None)
    ensures Framed(s, u, None)
  {
    hide RecFramed;
    forall i: nat | i < |s.workers| ensures RecFramed(s, u, Ordinary(i)) {
      assert RecFramed(s, t, Ordinary(i)) && RecFramed(t, u, Ordinary(i));
      RecTrans(s, t, u, Ordinary(i));
    }
    forall k: nat | k < |s.tagged| ensures RecFramed(s, u, TaggedRec(k)) {
      assert RecFramed(s, t, TaggedRec(k)) && RecFramed(t, u, TaggedRec(k));
      RecTrans(s, t, u, TaggedRec(k));
    }
    forall i: nat | |s.workers| <= i < |u.workers| ensures Holds(u, Ordinary(i)) && u.workers[i].outbox == [] {
      if i < |t.workers| {
        assert RecFramed(t, u, Ordinary(i));
        StaysHeld(t, u, Ordinary(i));
      }
    }
  }

  lemma StaysHeld(t: State, u: State, rec: Rec)
    requires Has(t, rec) && Has(u, rec) && RecFramed(t, u, rec) && Holds(t, rec)
    ensures Holds(u, rec) && SlotOf(u, rec) == SlotOf(t, rec)
  {
  }

  // ----- starting jobs -----

  lemma LaunchFramed(s: State, r: RunInfo)
    requires Shape(s) && ProtocolOk(s) && (r.CommandRun? ==> r.cat < |s.cats|)
    ensures Framed(s, Launch(s, r), None)
  {
    if s.idle != [] {
      var w := s.idle[|s.idle| - 1];
      assert WorkerOk(s.workers[w], w in s.idle, s.maxWorkers == 0);
      hide ProtocolOk, Launch, RecFramed;
      LaunchedIdle(s, r, w);
    }
  }

  lemma LaunchedIdle(s: State, r: RunInfo, w: nat)
    requires Shape(s) && NoDup(s.idle) && s.idle != [] && w == s.idle[|s.idle| - 1] && IdleSlot(s.workers[w])
    requires r.CommandRun? ==> r.cat < |s.cats|
    ensures var t := Launch(s, r);
            && |t.workers| == |s.workers| && t.tagged == s.tagged
            && forall rec: Rec | Has(s, rec) :: RecFramed(s, t, rec)
  {
    var t := Launch(s, r);
    assert s.idle == t.idle + [w];
    forall rec: Rec | Has(s, rec) ensures RecFramed(s, t, rec) {
      if rec.Ordinary? {
        assert rec.i != w ==> (rec.i in t.idle <==> rec.i in s.idle);
      }
    }
  }

  /** Launching a job makes exactly one more worker hold it. */
  lemma LaunchCounts(s: State, r: RunInfo, x: RunInfo)
    requires Shape(s) && ProtocolOk(s) && s.maxWorkers != 0 && (r.CommandRun? ==> r.cat < |s.cats|) && Loaded(x)
    ensures multiset(Held(Launch(s, r)))[x] == multiset(Held(s))[x] + One(x == r)
  {
    hide ProtocolOk;
    if s.idle == [] {
      assert Held(Launch(s, r)) == Held(s) + [r];
    } else {
      LaunchIdle(s, r);
      ReplaceCount(Held(s), s.idle[|s.idle| - 1], r, x);
    }
  }

  lemma ReplaceCount(h: seq<RunInfo>, w: nat, r: RunInfo, x: RunInfo)
    requires w < |h|
    ensures multiset(h[w := r])[x] == multiset(h)[x] - One(x == h[w]) + One(x == r)
  {
    assert multiset(h[w := r]) == multiset(h) - multiset{h[w]} + multiset{r};
    assert h[w] in multiset(h);
  }

  lemma StartCommandQuiet(s: State, cat: nat, task: Task)
    requires Shape(s) && ProtocolOk(s) && s.maxWorkers != 0 && cat < |s.cats|
    ensures Quiet(s, StartCommand(s, cat, task))
  {
    var r := CommandRun(cat, task);
    var l, t := Launch(s, r), StartCommand(s, cat, task);
    LaunchFramed(s, r);
    FramedBeside(s, l, t);
    hide Framed, ProtocolOk;
    assert Held(t) == Held(l);
    forall c: nat, x: Task | c < |s.started| ensures Owed(t, c, x) == Owed(s, c, x) {
      LaunchCounts(s, r, CommandRun(c, x));
    }
  }

  /** Only threads and records matter to framing. */
  lemma FramedBeside(s: State, l: State, t: State)
    requires Framed(s, l, None) && t.workers == l.workers && t.idle == l.idle && t.tagged == l.tagged
    ensures Framed(s, t, None)
  {
    forall i: nat | i < |s.workers| ensures RecFramed(s, t, Ordinary(i)) { assert RecFramed(s, l, Ordinary(i)); }
    forall k: nat | k < |s.tagged| ensures RecFramed(s, t, TaggedRec(k)) { assert RecFramed(s, l, TaggedRec(k)); }
    forall i: nat | |s.workers| <= i < |t.workers| ensures Holds(t, Ordinary(i)) && t.workers[i].outbox == [] {
      assert Holds(l, Ordinary(i));
    }
  }

  lemma QuietBeside(s: State, l: State, t: State)
    requires Quiet(s, l) && t.workers == l.workers && t.idle == l.idle && t.tagged == l.tagged
    requires t.started == l.started && t.finished == l.finished
    ensures Quiet(s, t)
  {
    FramedBeside(s, l, t);
    hide Framed;
    assert Held(t) == Held(l);
    forall c: nat, x: Task | c < |s.started| ensures Owed(t, c, x) == Owed(s, c, x) {
      assert Owed(l, c, x) == Owed(s, c, x);
    }
  }

  lemma StartPendingQuiet(s: State, i: nat)
    requires Shape(s) && ProtocolOk(s) && s.maxWorkers != 0 && i < |s.pending|
    ensures Quiet(s, StartPending(s, i))
  {
    var p := s.pending[i];
    StartCommandQuiet(s, p.cat, p.task);
    hide Quiet, StartCommand;
    QuietBeside(s, StartCommand(s, p.cat, p.task), StartPending(s, i));
  }

  lemma StartBatchJobQuiet(s: State, reply: bool)
    requires Shape(s) && ProtocolOk(s) && s.maxWorkers != 0 && JobQueue(s, reply) != []
    ensures Quiet(s, StartBatchJob(s, reply))
  {
    var r := BatchRun(JobQueue(s, reply)[0], reply);
    var l, t := Launch(s, r), StartBatchJob(s, reply);
    LaunchFramed(s, r);
    FramedBeside(s, l, t);
    hide Framed, ProtocolOk;
    assert Held(t) == Held(l);
    forall c: nat, x: Task | c < |s.started| ensures Owed(t, c, x) == Owed(s, c, x) {
      LaunchCounts(s, r, CommandRun(c, x));
    }
  }

  lemma StartTaggedQuiet(s: State, k: nat)
    requires Shape(s) && ProtocolOk(s) && k < |s.tagged|
    ensures Quiet(s, SetTagged(s, k, StartTagged(s.tagged[k])))
  {
    assert TaggedOk(s.tagged[k], s.maxWorkers == 0);
    var t := SetTagged(s, k, StartTagged(s.tagged[k]));
    assert Held(t) == Held(s);
  }

  // ----- the drain -----

  lemma {:induction false} DrainCommandsQuiet(s: State, i: nat)
    requires Core(s) && s.maxWorkers != 0 && i <= |s.pending| && SettledUpTo(s, i)
    ensures Quiet(s, DrainCommands(s, i))
    decreases |s.pending| - i
  {
    assert ProtocolOk(s);
    hide StartPending, Core, Quiet, SettledUpTo;
    if i < |s.pending| && ActiveWorkers(s) < s.maxWorkers {
      if Dispatchable(s, s.pending[i].cat) {
        var u := StartPending(s, i);
        StartPendingPrefix(s, i);
        StartPendingKeepsCore(s, i);
        StartPendingQuiet(s, i);
        DrainCommandsQuiet(u, i);
        QuietTrans(s, u, DrainCommands(u, i));
      } else {
        SettledNext(s, i);
        DrainCommandsQuiet(s, i + 1);
      }
    } else {
      QuietSame(s);
    }
  }

  lemma SettledNext(s: State, i: nat)
    requires Shape(s) && i < |s.pending| && SettledUpTo(s, i) && !Dispatchable(s, s.pending[i].cat)
    ensures SettledUpTo(s, i + 1)
  {
  }

  lemma {:induction false} DrainJobsQuiet(s: State, reply: bool)
    requires Core(s) && s.maxWorkers != 0
    ensures Quiet(s, DrainJobs(s, reply))
    decreases |JobQueue(s, reply)|
  {
    assert ProtocolOk(s);
    hide StartBatchJob, Core, Quiet;
    if JobQueue(s, reply) != [] && ActiveWorkers(s) < s.maxWorkers && JobDispatchable(s, reply) {
      var u := StartBatchJob(s, reply);
      StartBatchJobKeepsCore(s, reply);
      StartBatchJobQuiet(s, reply);
      DrainJobsQuiet(u, reply);
      QuietTrans(s, u, DrainJobs(u, reply));
    } else {
      QuietSame(s);
    }
  }

  lemma {:induction false} DrainTaggedQuiet(s: State, k: nat)
    requires Core(s) && s.maxWorkers != 0 && k <= |s.tagged|
    ensures Quiet(s, DrainTagged(s, k))
    decreases |s.tagged| - k
  {
    assert ProtocolOk(s);
    hide Core, Quiet, StartTagged, ProtocolOk;
    if k < |s.tagged| {
      var u := SetTagged(s, k, StartTagged(s.tagged[k]));
      StartTaggedKeepsCore(s, k);
      StartTaggedQuiet(s, k);
      DrainTaggedQuiet(u, k + 1);
      QuietTrans(s, u, DrainTagged(u, k + 1));
    } else {
      QuietSame(s);
    }
  }

  lemma ProcessQueueQuiet(s: State)
    requires Core(s)
    ensures Quiet(s, ProcessQueue(s))
  {
    hide Core, Quiet, DrainTagged, DrainJobs, DrainCommands, TaggedSettled;
    if s.maxWorkers != 0 {
      var a := DrainTagged(s, 0);
      DrainTaggedKeeps(s, 0);
      DrainTaggedQuiet(s, 0);
      var b := DrainJobs(a, false);
      DrainJobsKeeps(a, false);
      DrainJobsQuiet(a, false);
      var c := DrainJobs(b, true);
      DrainJobsKeeps(b, true);
      DrainJobsQuiet(b, true);
      DrainCommandsQuiet(c, 0);
      QuietTrans(s, a, b);
      QuietTrans(s, b, c);
      QuietTrans(s, c, DrainCommands(c, 0));
    } else {
      QuietSame(s);
    }
  }

  // ----- the other actions of the proxy -----

  lemma AdmitQuiet(s: State, cat: nat, task: Task)
    requires Core(s) && s.maxWorkers != 0 && cat < |s.cats|
    ensures Quiet(s, Admit(s, cat, task))
  {
    hide LedgerOk, TimersOk, CountersOk, CapacityOk, FifoOk, Quiet, StartCommand;
    QuietSame(s);
    var a := Accept(s, cat, task);
    QuietBeside(s, s, a);
    if Dispatchable(s, cat) {
      assert ProtocolOk(a);
      StartCommandQuiet(a, cat, task);
      QuietTrans(s, a, StartCommand(a, cat, task));
    } else {
      hide ProtocolOk;
      QuietBeside(s, s, Admit(s, cat, task));
    }
  }

  /** Queueing jobs changes no record. */
  lemma SameThreadsQuiet(s: State, t: State)
    requires SameThreads(s, t) && t.finished == s.finished
    ensures Quiet(s, t)
  {
    FrameThreads(s, t);
    hide Held, Loads;
  }

  lemma QueueingQuiet(s: State, e: Event)
    requires Core(s) && Enabled(s, e) && (e.Submit? || e.Fire?)
    ensures Quiet(s, Step(s, e))
  {
    hide PushJobs, PushJob, LedgerOk, TimersOk, ProtocolOk, CountersOk, CapacityOk, FifoOk, Refs, FireTimer, Quiet;
    match e {
      case Submit(threads, complete, completeIn) =>
        PushJobsRefs(Own(s, NewBatch(threads, complete, completeIn, None)), s.nextBatch, threads, 0);
      case Fire(id) =>
        if Fires(s, id) { FireTimerSubmits(s, id); } else { NoFire(s, id); }
    }
    SameThreadsQuiet(s, Step(s, e));
  }

  lemma QuitQuiet(s: State)
    requires Core(s) && s.maxWorkers != 0
    ensures Quiet(s, Quit(s))
  {
    hide LedgerOk, TimersOk, CountersOk, CapacityOk, FifoOk, Quit;
    QuitEffect(s);
    var t := Quit(s);
    forall i: nat | i < |s.workers| ensures RecFramed(s, t, Ordinary(i)) && HeldBy(t, i) == HeldBy(s, i) {
      assert WorkerOk(s.workers[i], i in s.idle, false);
    }
    assert Held(t) == Held(s);
    forall k: nat | k < |s.tagged| ensures RecFramed(s, t, TaggedRec(k)) {
      assert TaggedOk(s.tagged[k], false);
    }
  }

  predicate Message(e: Event) {
    e.FromWorker? || e.FromTagged?
  }

  predicate ThreadEvent(e: Event) {
    e.WorkerReceives? || e.WorkerFinishes? || e.TaggedReceives? || e.TaggedFinishes?
  }

  lemma ProxyQuiet(s: State, e: Event)
    requires Inv(s) && Enabled(s, e) && !Message(e) && !ThreadEvent(e)
    ensures Quiet(s, Step(s, e))
  {
    hide Core, Admit, SubmitBatch, FireTimer, ProcessQueue, Quit, Quiet;
    QuietSame(s);
    match e {
      case Inject(cat, task) => AdmitQuiet(s, cat, task);
      case Command(cat, task) => AdmitQuiet(s, cat, task);
      case Submit(_, _, _) => QueueingQuiet(s, e);
      case Fire(_) => QueueingQuiet(s, e);
      case QuitAll => QuitQuiet(s);
      case NextPhase =>
        ProcessQueueQuiet(s);
        QuietBeside(s, if s.phase == TimerPhase then ProcessQueue(s) else s, Step(s, e));
      case ReplyJob => QuietBeside(s, s, Step(s, e));
      case NewTimer(_, _, _) => QuietBeside(s, s, Step(s, e));
    }
  }
}
