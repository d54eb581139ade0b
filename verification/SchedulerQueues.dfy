/** Admission and the queue drain: they keep the invariants, keep per-category order and leave nothing startable. */
module SchedulerQueues {
  import opened SchedulerModel
  import opened SchedulerViews
  import opened SchedulerLedger
  import opened SchedulerInvariant
  import opened SchedulerStarts

  // ----- order of the pending commands -----

  lemma {:induction false} TasksOfConcat(a: seq<Pending>, b: seq<Pending>, c: nat)
    ensures TasksOf(a + b, c) == TasksOf(a, c) + TasksOf(b, c)
    decreases |b|
  {
    if b == [] {
      assert a + b == a;
    } else {
      var n := |b| - 1;
      assert (a + b)[..|a + b| - 1] == a + b[..n];
      TasksOfConcat(a, b[..n], c);
    }
  }

  lemma {:induction false} TasksOfNone(q: seq<Pending>, c: nat)
    requires forall i | 0 <= i < |q| :: q[i].cat != c
    ensures TasksOf(q, c) == []
  {
    if q != [] {
      TasksOfNone(q[..|q| - 1], c);
    }
  }

  /** Taking out an entry that is the first of its category takes out that category's first task. */
  lemma TasksOfRemove(q: seq<Pending>, i: nat, c: nat)
    requires i < |q|
    requires q[i].cat == c ==> forall j | 0 <= j < i :: q[j].cat != c
    ensures TasksOf(q, c) == (if q[i].cat == c then [q[i].task] else []) + TasksOf(q[..i] + q[i + 1..], c)
  {
    hide TasksOf;
    TasksOfSplit(q[..i], q[i], q[i + 1..], c);
    assert q == q[..i] + ([q[i]] + q[i + 1..]);
    if q[i].cat == c {
      TasksOfNone(q[..i], c);
    }
  }

  lemma TasksOfSplit(a: seq<Pending>, p: Pending, b: seq<Pending>, c: nat)
    ensures TasksOf(a + ([p] + b), c) == TasksOf(a, c) + ((if p.cat == c then [p.task] else []) + TasksOf(b, c))
    ensures TasksOf(a + b, c) == TasksOf(a, c) + TasksOf(b, c)
  {
    assert [p][..0] == [];
    assert TasksOf([p], c) == if p.cat == c then [p.task] else [];
    TasksOfConcat([p], b, c);
    TasksOfConcat(a, [p] + b, c);
    TasksOfConcat(a, b, c);
  }

  // ----- frames -----

  /** Two states with the same workers, tagged workers, limits, class loads and batch bookkeeping. */
  predicate SameWork(s: State, t: State) {
    && t.workers == s.workers && t.idle == s.idle && t.tagged == s.tagged
    && t.general == s.general && t.capacity == s.capacity && t.maxWorkers == s.maxWorkers
    && Loads(t) == Loads(s)
    && t.batchJobs == s.batchJobs && t.replyJobs == s.replyJobs
    && t.batches == s.batches && t.submitted == s.submitted && t.finished == s.finished && t.nextBatch == s.nextBatch
  }

  lemma FrameWork(s: State, t: State)
    requires SameWork(s, t)
    ensures Held(t) == Held(s) && LedgerOf(t) == LedgerOf(s)
    ensures ProtocolOk(s) ==> ProtocolOk(t)
    ensures CountersOk(s) ==> CountersOk(t)
    ensures CapacityOk(s) ==> CapacityOk(t)
  {
    hide HeldRefs, TaggedRefs, WorkerOk, TaggedOk, Count, SumActive, SumReserved, SumExcess;
    assert Held(t) == Held(s);
    assert |Loads(t)| == |Loads(s)|;
    assert Loads(t)[0] == Loads(s)[0] && Loads(t)[1] == Loads(s)[1];
    forall c: nat | c < |s.cats|
      ensures t.cats[c].active == s.cats[c].active
    {
      assert Loads(t)[c + 2] == Loads(s)[c + 2];
    }
  }

  lemma SameLoads(s: State, t: State)
    requires t.batchActive == s.batchActive && t.replyActive == s.replyActive
    requires t.batchReserved == s.batchReserved && t.replyReserved == s.replyReserved
    requires |t.cats| == |s.cats|
    requires forall c | 0 <= c < |s.cats| :: t.cats[c].active == s.cats[c].active && t.cats[c].reserved == s.cats[c].reserved
    ensures Loads(t) == Loads(s)
  {
    forall i | 0 <= i < |Loads(s)|
      ensures Loads(t)[i] == Loads(s)[i]
    {
      if i >= 2 {
        assert Loads(t)[(i - 2) + 2] == Load(t.cats[i - 2].active, t.cats[i - 2].reserved);
        assert Loads(s)[(i - 2) + 2] == Load(s.cats[i - 2].active, s.cats[i - 2].reserved);
      }
    }
  }

  // ----- starting work only takes room away -----

  predicate Tighter(s: State, t: State) {
    && |t.cats| == |s.cats|
    && (forall c: nat | c < |s.cats| && Dispatchable(t, c) :: Dispatchable(s, c))
    && (forall reply | JobDispatchable(t, reply) :: JobDispatchable(s, reply))
  }

  lemma LaunchTighter(s: State, r: RunInfo)
    requires Shape(s) && (r.CommandRun? ==> r.cat < |s.cats|)
    ensures ActiveWorkers(Launch(s, r)) == ActiveWorkers(s) + 1
  {
  }

  lemma StartCommandTighter(s: State, cat: nat, task: Task)
    requires Shape(s) && cat < |s.cats|
    ensures Tighter(s, StartCommand(s, cat, task))
  {
    LaunchTighter(s, CommandRun(cat, task));
  }

  lemma StartBatchJobTighter(s: State, reply: bool)
    requires Shape(s) && JobQueue(s, reply) != []
    ensures Tighter(s, StartBatchJob(s, reply))
  {
    LaunchTighter(s, BatchRun(JobQueue(s, reply)[0], reply));
  }

  // ----- a full house -----

  lemma {:induction false} AllAtReservation(q: seq<Load>, i: nat)
    requires i < |q|
    requires SumActive(q) >= SumReserved(q) + SumExcess(q)
    ensures q[i].active >= q[i].reserved
    decreases |q|
  {
    var n := |q| - 1;
    if i == n {
      ActiveAtMost(q[..n]);
    } else {
      AllAtReservation(q[..n], i);
    }
  }

  lemma {:induction false} ActiveAtMost(q: seq<Load>)
    ensures SumActive(q) <= SumReserved(q) + SumExcess(q)
  {
    if q != [] {
      ActiveAtMost(q[..|q| - 1]);
    }
  }

  /** When every worker allowed is busy, no class has room: each fills its reservation. */
  lemma FullHouse(s: State, i: nat)
    requires CountersOk(s) && CapacityOk(s) && s.maxWorkers != 0 && ActiveWorkers(s) >= s.maxWorkers
    requires i < |s.cats| + 2
    ensures !HasRoom(s, Loads(s)[i].active, Loads(s)[i].reserved)
  {
    AllAtReservation(Loads(s), i);
    LoadsNonNegative(s);
    SumBounds(Loads(s));
  }

  // ----- admission -----

  lemma QueueLoads(s: State, cat: nat, p: seq<Pending>, a: seq<seq<Task>>, queued: int)
    requires cat < |s.cats|
    ensures SameWork(s, s.(pending := p, accepted := a, cats := s.cats[cat := s.cats[cat].(queued := queued)]))
  {
    SameLoads(s, s.(pending := p, accepted := a, cats := s.cats[cat := s.cats[cat].(queued := queued)]));
  }

  lemma QueueKeepsCore(s: State, cat: nat, task: Task)
    requires Core(s) && Settled(s) && cat < |s.cats| && !Dispatchable(s, cat)
    requires !(s.cats[cat].maxQueue >= 0 && s.cats[cat].queued >= s.cats[cat].maxQueue)
    ensures Core(Admit(s, cat, task)) && Settled(Admit(s, cat, task))
  {
    hide LedgerOk, TimersOk, ProtocolOk, CountersOk, CapacityOk;
    var t := Admit(s, cat, task);
    QueueLoads(s, cat, t.pending, t.accepted, s.cats[cat].queued + 1);
    FrameWork(s, t);
    forall c: nat | c < |t.cats|
      ensures FifoAt(t, c)
    {
      assert FifoAt(s, c);
      assert t.pending[..|s.pending|] == s.pending;
    }
  }

  lemma AcceptSameWork(s: State, cat: nat, task: Task)
    requires Shape(s) && cat < |s.cats|
    ensures SameWork(s, Accept(s, cat, task))
  {
    SameLoads(s, Accept(s, cat, task));
  }

  /** A category with room has nothing pending at a settled point. */
  lemma NothingWaits(s: State, cat: nat)
    requires Shape(s) && Settled(s) && cat < |s.cats| && Dispatchable(s, cat)
    ensures TasksOf(s.pending, cat) == []
  {
    forall i | 0 <= i < |s.pending| ensures s.pending[i].cat != cat {
      assert !Dispatchable(s, s.pending[i].cat);
    }
    TasksOfNone(s.pending, cat);
  }

  lemma StartNewFifo(s: State, cat: nat, task: Task)
    requires Shape(s) && FifoOk(s) && cat < |s.cats| && TasksOf(s.pending, cat) == []
    ensures FifoOk(StartCommand(Accept(s, cat, task), cat, task))
  {
    var t := StartCommand(Accept(s, cat, task), cat, task);
    forall c: nat | c < |t.cats|
      ensures FifoAt(t, c)
    {
      assert FifoAt(s, c);
    }
  }

  lemma TighterSettled(s: State, t: State)
    requires Shape(s) && Shape(t) && Settled(s) && Tighter(s, t) && t.pending == s.pending
    ensures Settled(t)
  {
    forall i | 0 <= i < |t.pending|
      ensures !Dispatchable(t, t.pending[i].cat)
    {
      assert !Dispatchable(s, s.pending[i].cat);
    }
  }

  lemma StartNewWork(a: State, cat: nat, task: Task)
    requires Shape(a) && ProtocolOk(a) && CountersOk(a) && CapacityOk(a) && a.maxWorkers != 0
    requires LedgerOk(LedgerOf(a)) && TimersOk(a.timers, a.batches, |a.tagged|)
    requires cat < |a.cats| && Dispatchable(a, cat)
    ensures var t := StartCommand(a, cat, task);
            && ProtocolOk(t) && CountersOk(t) && CapacityOk(t) && LedgerOk(LedgerOf(t))
            && TimersOk(t.timers, t.batches, |t.tagged|)
  {
    StartCommandCounters(a, cat, task);
    StartCommandRefs(a, cat, task);
  }

  lemma StartNewKeepsCore(s: State, cat: nat, task: Task)
    requires Core(s) && Settled(s) && s.maxWorkers != 0 && cat < |s.cats| && Dispatchable(s, cat)
    ensures Core(Admit(s, cat, task)) && Settled(Admit(s, cat, task))
  {
    hide LedgerOk, TimersOk, ProtocolOk, CountersOk, CapacityOk, FifoOk, StartCommand;
    var a := Accept(s, cat, task);
    AcceptSameWork(s, cat, task);
    FrameWork(s, a);
    StartNewWork(a, cat, task);
    NothingWaits(s, cat);
    StartNewFifo(s, cat, task);
    StartCommandTighter(a, cat, task);
    TighterSettled(a, StartCommand(a, cat, task));
  }

  /** Admission at a settled point keeps order, capacity and all bookkeeping, and stays settled. */
  lemma AdmitKeepsCore(s: State, cat: nat, task: Task)
    requires Core(s) && Settled(s) && s.maxWorkers != 0 && cat < |s.cats|
    ensures Core(Admit(s, cat, task)) && Settled(Admit(s, cat, task))
  {
    if Dispatchable(s, cat) {
      StartNewKeepsCore(s, cat, task);
    } else if !(s.cats[cat].maxQueue >= 0 && s.cats[cat].queued >= s.cats[cat].maxQueue) {
      QueueKeepsCore(s, cat, task);
    }
  }

  // ----- the drain -----

  lemma StartPendingSameWork(s: State, i: nat)
    requires Shape(s) && i < |s.pending|
    ensures SameWork(StartCommand(s, s.pending[i].cat, s.pending[i].task), StartPending(s, i))
  {
    SameLoads(StartCommand(s, s.pending[i].cat, s.pending[i].task), StartPending(s, i));
  }

  lemma StartPendingFifo(s: State, i: nat)
    requires Shape(s) && FifoOk(s) && i < |s.pending|
    requires forall j | 0 <= j < i :: s.pending[j].cat != s.pending[i].cat
    ensures FifoOk(StartPending(s, i))
  {
    var t := StartPending(s, i);
    var p := s.pending[i];
    forall c: nat | c < |t.cats|
      ensures FifoAt(t, c)
    {
      assert FifoAt(s, c);
      TasksOfRemove(s.pending, i, c);
      assert c == p.cat ==> s.started[c] + ([p.task] + TasksOf(t.pending, c)) == (s.started[c] + [p.task]) + TasksOf(t.pending, c);
      assert [] + TasksOf(t.pending, c) == TasksOf(t.pending, c);
    }
  }

  lemma StartPendingTighter(s: State, i: nat)
    requires Shape(s) && i < |s.pending|
    ensures Tighter(s, StartPending(s, i))
  {
    LaunchTighter(s, CommandRun(s.pending[i].cat, s.pending[i].task));
  }

  lemma StartPendingKeepsCore(s: State, i: nat)
    requires Core(s) && s.maxWorkers != 0 && i < |s.pending| && Dispatchable(s, s.pending[i].cat)
    requires forall j | 0 <= j < i :: s.pending[j].cat != s.pending[i].cat
    ensures Core(StartPending(s, i))
  {
    var p := s.pending[i];
    var l := StartCommand(s, p.cat, p.task);
    StartNewWork(s, p.cat, p.task);
    StartPendingSameWork(s, i);
    FrameWork(l, StartPending(s, i));
    StartPendingFifo(s, i);
    assert l.timers == s.timers && l.tagged == s.tagged;
  }

  /** What the pass over the pending commands does not touch. */
  predicate SameQueues(s: State, t: State) {
    && t.maxWorkers == s.maxWorkers && t.phase == s.phase
    && t.batchJobs == s.batchJobs && t.replyJobs == s.replyJobs && t.tagged == s.tagged
  }

  lemma StartPendingPrefix(s: State, i: nat)
    requires Shape(s) && i < |s.pending| && SettledUpTo(s, i) && Dispatchable(s, s.pending[i].cat)
    ensures forall j | 0 <= j < i :: s.pending[j].cat != s.pending[i].cat
    ensures SettledUpTo(StartPending(s, i), i)
    ensures SameQueues(s, StartPending(s, i))
  {
    var u := StartPending(s, i);
    StartPendingTighter(s, i);
    forall j | 0 <= j < i
      ensures s.pending[j].cat != s.pending[i].cat && !Dispatchable(u, u.pending[j].cat)
    {
      assert u.pending[j] == s.pending[j];
      assert !Dispatchable(s, s.pending[j].cat);
    }
  }

  predicate SettledUpTo(s: State, n: nat)
    requires Shape(s) && n <= |s.pending|
  {
    forall i | 0 <= i < n :: !Dispatchable(s, s.pending[i].cat)
  }

  lemma DrainStep(s: State, i: nat) returns (u: State)
    requires Core(s) && s.maxWorkers != 0 && i < |s.pending| && SettledUpTo(s, i)
    requires ActiveWorkers(s) < s.maxWorkers && Dispatchable(s, s.pending[i].cat)
    ensures Core(u) && |u.pending| == |s.pending| - 1 && SettledUpTo(u, i) && Tighter(s, u) && SameQueues(s, u)
    ensures DrainCommands(s, i) == DrainCommands(u, i)
  {
    u := StartPending(s, i);
    StartPendingPrefix(s, i);
    StartPendingKeepsCore(s, i);
    StartPendingTighter(s, i);
  }

  lemma TighterTrans(s: State, t: State, u: State)
    requires Tighter(s, t) && Tighter(t, u)
    ensures Tighter(s, u)
  {
  }

  lemma {:induction false} DrainCommandsKeeps(s: State, i: nat)
    requires Core(s) && s.maxWorkers != 0 && i <= |s.pending| && SettledUpTo(s, i)
    ensures var t := DrainCommands(s, i);
            Core(t) && Tighter(s, t) && Settled(t) && SameQueues(s, t)
    decreases |s.pending| - i
  {
    hide Core, StartPending, Tighter;
    TighterSame(s);
    if i < |s.pending| && ActiveWorkers(s) < s.maxWorkers {
      if Dispatchable(s, s.pending[i].cat) {
        var u := DrainStep(s, i);
        DrainCommandsKeeps(u, i);
        TighterTrans(s, u, DrainCommands(u, i));
      } else {
        DrainCommandsKeeps(s, i + 1);
      }
    } else if i < |s.pending| {
      FullHouseSettled(s);
    }
  }

  lemma TighterSame(s: State)
    ensures Tighter(s, s)
  {
  }

  lemma FullHouseSettled(s: State)
    requires Core(s) && s.maxWorkers != 0 && ActiveWorkers(s) >= s.maxWorkers
    ensures Settled(s)
  {
    forall j | 0 <= j < |s.pending| ensures !Dispatchable(s, s.pending[j].cat) {
      FullHouse(s, s.pending[j].cat + 2);
    }
  }

  lemma StartBatchJobKeepsCore(s: State, reply: bool)
    requires Core(s) && s.maxWorkers != 0 && JobQueue(s, reply) != [] && JobDispatchable(s, reply)
    ensures Core(StartBatchJob(s, reply))
  {
    hide LedgerOk, TimersOk, ProtocolOk, CountersOk, CapacityOk, StartBatchJob, LedgerOf;
    var t := StartBatchJob(s, reply);
    StartBatchJobCounters(s, reply);
    StartBatchJobRefs(s, reply);
    forall c: nat | c < |t.cats|
      ensures FifoAt(t, c)
    {
      assert FifoAt(s, c);
    }
  }

  predicate JobsSettled(s: State, reply: bool) {
    JobQueue(s, reply) == [] || !JobDispatchable(s, reply)
  }

  lemma {:induction false} DrainJobsKeeps(s: State, reply: bool)
    requires Core(s) && s.maxWorkers != 0
    ensures var t := DrainJobs(s, reply);
            Core(t) && Tighter(s, t) && JobsSettled(t, reply)
            && t.maxWorkers == s.maxWorkers && t.phase == s.phase
            && JobQueue(t, !reply) == JobQueue(s, !reply) && t.tagged == s.tagged
    decreases |JobQueue(s, reply)|
  {
    hide LedgerOk, TimersOk, ProtocolOk, CountersOk, CapacityOk, FifoOk, StartBatchJob;
    if JobQueue(s, reply) != [] && ActiveWorkers(s) < s.maxWorkers && JobDispatchable(s, reply) {
      StartBatchJobKeepsCore(s, reply);
      StartBatchJobTighter(s, reply);
      DrainJobsKeeps(StartBatchJob(s, reply), reply);
      TighterTrans(s, StartBatchJob(s, reply), DrainJobs(s, reply));
    } else if ActiveWorkers(s) >= s.maxWorkers {
      FullHouse(s, if reply then 1 else 0);
    }
  }

  predicate TaggedSettled(tw: TaggedSlot) {
    tw.busy || tw.queue == []
  }

  lemma StartTaggedKeepsCore(s: State, k: nat)
    requires Core(s) && s.maxWorkers != 0 && k < |s.tagged|
    ensures Core(SetTagged(s, k, StartTagged(s.tagged[k])))
  {
    var t := SetTagged(s, k, StartTagged(s.tagged[k]));
    StartTaggedKeeps(s, k);
    forall c: nat | c < |t.cats|
      ensures FifoAt(t, c)
    {
      assert FifoAt(s, c);
    }
  }

  lemma StartTaggedSettled(tw: TaggedSlot)
    ensures TaggedSettled(StartTagged(tw))
  {
  }

  lemma {:induction false} DrainTaggedKeeps(s: State, k: nat)
    requires Core(s) && s.maxWorkers != 0 && k <= |s.tagged|
    requires forall j | 0 <= j < k :: TaggedSettled(s.tagged[j])
    ensures var t := DrainTagged(s, k);
            Core(t) && t.maxWorkers == s.maxWorkers && t.phase == s.phase
            && (forall j | 0 <= j < |t.tagged| :: TaggedSettled(t.tagged[j]))
    decreases |s.tagged| - k
  {
    hide Core, StartTagged;
    if k < |s.tagged| {
      StartTaggedSettled(s.tagged[k]);
      StartTaggedKeepsCore(s, k);
      DrainTaggedKeeps(SetTagged(s, k, StartTagged(s.tagged[k])), k + 1);
    }
  }

  /** Nothing queued anywhere could be started. */
  predicate AllSettled(s: State)
    requires Shape(s)
  {
    && JobsSettled(s, false) && JobsSettled(s, true) && Settled(s)
    && (forall j | 0 <= j < |s.tagged| :: TaggedSettled(s.tagged[j]))
  }

  /** The single-pass drain keeps the invariants and is work-conserving. */
  lemma DrainIsWorkConserving(s: State)
    requires Core(s) && s.maxWorkers != 0
    ensures var t := ProcessQueue(s);
            Core(t) && AllSettled(t) && t.maxWorkers == s.maxWorkers && t.phase == s.phase
  {
    DrainTaggedKeeps(s, 0);
    var a := DrainTagged(s, 0);
    DrainJobsKeeps(a, false);
    var b := DrainJobs(a, false);
    DrainJobsKeeps(b, true);
    var c := DrainJobs(b, true);
    DrainCommandsKeeps(c, 0);
  }
}
