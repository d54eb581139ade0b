/** Handing a job to a worker keeps every invariant. */
module SchedulerStarts {
  import opened SchedulerModel
  import opened SchedulerViews
  import opened SchedulerInvariant

  /** What every class sees when a job `r` is handed to a worker. */
  ghost predicate HandedOut(h: seq<RunInfo>, h': seq<RunInfo>, r: RunInfo) {
    && (forall k: Class :: Count(h', k) == Count(h, k) + One(Belongs(r, k)))
    && HeldRefs(h') == HeldRefs(h) + RefOf(r)
  }

  lemma HandOutNew(h: seq<RunInfo>, r: RunInfo)
    ensures HandedOut(h, h + [r], r)
  {
    HeldRefsAppend(h, r);
    forall k: Class ensures Count(h + [r], k) == Count(h, k) + One(Belongs(r, k)) { CountAppend(h, r, k); }
  }

  lemma HandOutIdle(h: seq<RunInfo>, w: nat, r: RunInfo)
    requires w < |h| && h[w] == Unloaded
    ensures HandedOut(h, h[w := r], r)
  {
    HeldRefsUpdate(h, w, r);
    forall k: Class ensures Count(h[w := r], k) == Count(h, k) + One(Belongs(r, k)) { CountUpdate(h, w, r, k); }
  }

  lemma LaunchIdle(s: State, r: RunInfo)
    requires Shape(s) && ProtocolOk(s) && s.maxWorkers != 0 && s.idle != []
    requires r.CommandRun? ==> r.cat < |s.cats|
    ensures var w := s.idle[|s.idle| - 1];
            w < |s.workers| && Held(s)[w] == Unloaded && Held(Launch(s, r)) == Held(s)[w := r]
  {
    var t := Launch(s, r);
    var w := s.idle[|s.idle| - 1];
    assert s.idle == t.idle + [w];
    assert WorkerOk(s.workers[w], w in s.idle, false);
    forall i: nat | i < |s.workers|
      ensures HeldBy(t, i) == Held(s)[w := r][i]
    {
      assert i != w ==> (i in t.idle <==> i in s.idle);
    }
  }

  lemma LaunchHolds(s: State, r: RunInfo)
    requires Shape(s) && ProtocolOk(s) && s.maxWorkers != 0
    requires r.CommandRun? ==> r.cat < |s.cats|
    ensures HandedOut(Held(s), Held(Launch(s, r)), r)
  {
    if s.idle == [] {
      assert Held(Launch(s, r)) == Held(s) + [r];
      HandOutNew(Held(s), r);
    } else {
      LaunchIdle(s, r);
      HandOutIdle(Held(s), s.idle[|s.idle| - 1], r);
    }
  }

  lemma LaunchKeepsProtocol(s: State, r: RunInfo)
    requires Shape(s) && ProtocolOk(s) && s.maxWorkers != 0 && Loaded(r)
    requires r.CommandRun? ==> r.cat < |s.cats|
    ensures ProtocolOk(Launch(s, r))
    ensures ActiveWorkers(Launch(s, r)) == ActiveWorkers(s) + 1
    ensures |Launch(s, r).workers| == if s.idle == [] then ActiveWorkers(s) + 1 else |s.workers|
  {
    var t := Launch(s, r);
    if s.idle != [] {
      var w := s.idle[|s.idle| - 1];
      assert s.idle == t.idle + [w];
      assert WorkerOk(s.workers[w], true, false);
    }
    forall i: nat | i < |t.workers|
      ensures WorkerOk(t.workers[i], i in t.idle, false)
    {
      if i < |s.workers| {
        assert WorkerOk(s.workers[i], i in s.idle, false);
      }
    }
  }

  lemma LoadsNonNegative(s: State)
    requires CountersOk(s) && CapacityOk(s)
    ensures forall i | 0 <= i < |Loads(s)| :: Loads(s)[i].active >= 0 && Loads(s)[i].reserved >= 0
  {
    var q := Loads(s);
    forall i | 0 <= i < |q|
      ensures q[i].active >= 0 && q[i].reserved >= 0
    {
      if i >= 2 {
        assert q[(i - 2) + 2] == Load(s.cats[i - 2].active, s.cats[i - 2].reserved);
      }
    }
  }

  function MoreLoad(q: seq<Load>, i: nat): seq<Load>
    requires i < |q|
  {
    q[i := q[i].(active := q[i].active + 1)]
  }

  /** One more job of the class at index `i`, allowed by the dispatch test, stays within capacity. */
  lemma RoomForOne(s: State, i: nat)
    requires CapacityOk(s) && CountersOk(s) && s.maxWorkers != 0
    requires i < |s.cats| + 2
    requires HasRoom(s, Loads(s)[i].active, Loads(s)[i].reserved)
    ensures var q := MoreLoad(Loads(s), i);
            && SumExcess(q) <= s.general
            && SumActive(q) == ActiveWorkers(s) + 1
            && SumReserved(q) == SumReserved(Loads(s))
            && ActiveWorkers(s) + 1 <= s.capacity
  {
    var q0 := Loads(s);
    SumUpdate(q0, i, q0[i].(active := q0[i].active + 1));
    LoadsNonNegative(s);
    SumBounds(q0);
    SumBounds(MoreLoad(q0, i));
  }

  /** The counters of `t` are those of `s` with one more job `r`. */
  ghost predicate Counted(s: State, t: State, r: RunInfo) {
    && |t.cats| == |s.cats|
    && t.batchActive == s.batchActive + One(Belongs(r, BatchClass))
    && t.replyActive == s.replyActive + One(Belongs(r, ReplyClass))
    && (forall c: nat | c < |s.cats| :: t.cats[c].active == s.cats[c].active + One(Belongs(r, CatClass(c))))
  }

  lemma CountedUp(s: State, t: State, r: RunInfo)
    requires CountersOk(s) && Counted(s, t, r) && HandedOut(Held(s), Held(t), r)
    requires t.maxWorkers != 0 ==> ActiveWorkers(t) == SumActive(Loads(t))
    ensures CountersOk(t)
  {
    forall c: nat | c < |t.cats|
      ensures t.cats[c].active == Count(Held(t), CatClass(c))
    {
      assert Count(Held(t), CatClass(c)) == Count(Held(s), CatClass(c)) + One(Belongs(r, CatClass(c)));
    }
  }

  // ----- commands -----

  lemma StartCommandLoads(s: State, cat: nat, task: Task)
    requires Shape(s) && cat < |s.cats|
    ensures Loads(StartCommand(s, cat, task)) == MoreLoad(Loads(s), cat + 2)
    ensures Held(StartCommand(s, cat, task)) == Held(Launch(s, CommandRun(cat, task)))
  {
    var t := StartCommand(s, cat, task);
    forall i | 0 <= i < |Loads(t)|
      ensures Loads(t)[i] == MoreLoad(Loads(s), cat + 2)[i]
    {
      if i >= 2 {
        assert Loads(t)[(i - 2) + 2] == Load(t.cats[i - 2].active, t.cats[i - 2].reserved);
        assert Loads(s)[(i - 2) + 2] == Load(s.cats[i - 2].active, s.cats[i - 2].reserved);
      }
    }
  }

  lemma StartCommandCounted(s: State, cat: nat, task: Task)
    requires Shape(s) && cat < |s.cats|
    ensures Counted(s, StartCommand(s, cat, task), CommandRun(cat, task))
  {
  }

  lemma StartCommandProtocol(s: State, cat: nat, task: Task)
    requires Shape(s) && ProtocolOk(s) && s.maxWorkers != 0 && cat < |s.cats|
    ensures var t := StartCommand(s, cat, task);
            && ProtocolOk(t)
            && ActiveWorkers(t) == ActiveWorkers(s) + 1
            && |t.workers| == if s.idle == [] then ActiveWorkers(s) + 1 else |s.workers|
  {
    LaunchKeepsProtocol(s, CommandRun(cat, task));
  }

  lemma StartCommandCounters(s: State, cat: nat, task: Task)
    requires Shape(s) && ProtocolOk(s) && CountersOk(s) && CapacityOk(s) && s.maxWorkers != 0
    requires cat < |s.cats| && Dispatchable(s, cat)
    ensures var t := StartCommand(s, cat, task);
            CountersOk(t) && CapacityOk(t) && ProtocolOk(t)
  {
    var r := CommandRun(cat, task);
    var t := StartCommand(s, cat, task);
    StartCommandProtocol(s, cat, task);
    StartCommandLoads(s, cat, task);
    RoomForOne(s, cat + 2);
    assert CountersOk(t) by {
      LaunchHolds(s, r);
      StartCommandCounted(s, cat, task);
      CountedUp(s, t, r);
    }
  }

  lemma StartCommandRefs(s: State, cat: nat, task: Task)
    requires Shape(s) && ProtocolOk(s) && s.maxWorkers != 0 && cat < |s.cats|
    ensures LedgerOf(StartCommand(s, cat, task)) == LedgerOf(s)
  {
    hide StartCommand, ProtocolOk, Held;
    LaunchHolds(s, CommandRun(cat, task));
    StartCommandLoads(s, cat, task);
  }

  // ----- batch and reply jobs -----

  lemma StartBatchJobLoads(s: State, reply: bool)
    requires Shape(s) && JobQueue(s, reply) != []
    ensures Loads(StartBatchJob(s, reply)) == MoreLoad(Loads(s), if reply then 1 else 0)
    ensures Held(StartBatchJob(s, reply)) == Held(Launch(s, BatchRun(JobQueue(s, reply)[0], reply)))
  {
    var t := StartBatchJob(s, reply);
    forall i | 0 <= i < |Loads(t)|
      ensures Loads(t)[i] == MoreLoad(Loads(s), if reply then 1 else 0)[i]
    {
      if i >= 2 {
        assert Loads(t)[(i - 2) + 2] == Load(t.cats[i - 2].active, t.cats[i - 2].reserved);
        assert Loads(s)[(i - 2) + 2] == Load(s.cats[i - 2].active, s.cats[i - 2].reserved);
      }
    }
  }

  lemma StartBatchJobProtocol(s: State, reply: bool)
    requires Shape(s) && ProtocolOk(s) && s.maxWorkers != 0 && JobQueue(s, reply) != []
    ensures var t := StartBatchJob(s, reply);
            && ProtocolOk(t)
            && ActiveWorkers(t) == ActiveWorkers(s) + 1
            && |t.workers| == if s.idle == [] then ActiveWorkers(s) + 1 else |s.workers|
  {
    LaunchKeepsProtocol(s, BatchRun(JobQueue(s, reply)[0], reply));
  }

  lemma StartBatchJobCounters(s: State, reply: bool)
    requires Shape(s) && ProtocolOk(s) && CountersOk(s) && CapacityOk(s) && s.maxWorkers != 0
    requires JobQueue(s, reply) != [] && JobDispatchable(s, reply)
    ensures var t := StartBatchJob(s, reply);
            CountersOk(t) && CapacityOk(t) && ProtocolOk(t)
  {
    hide StartBatchJob;
    var r := BatchRun(JobQueue(s, reply)[0], reply);
    var t := StartBatchJob(s, reply);
    StartBatchJobProtocol(s, reply);
    StartBatchJobLoads(s, reply);
    RoomForOne(s, if reply then 1 else 0);
    assert CountersOk(t) by {
      LaunchHolds(s, r);
      CountedUp(s, t, r);
    }
  }

  lemma MoveOver<T>(a: multiset<T>, q: multiset<T>, q': multiset<T>, h: multiset<T>, x: multiset<T>)
    requires q == x + q'
    ensures a + q' + (h + x) == a + q + h
  {
  }

  lemma StartBatchJobRefs(s: State, reply: bool)
    requires Shape(s) && ProtocolOk(s) && s.maxWorkers != 0 && JobQueue(s, reply) != []
    ensures LedgerOf(StartBatchJob(s, reply)) == LedgerOf(s)
  {
    var q := JobQueue(s, reply);
    var r := BatchRun(q[0], reply);
    var t := StartBatchJob(s, reply);
    LaunchHolds(s, r);
    StartBatchJobLoads(s, reply);
    HeadAndTail(q);
    RefsByQueue(s, reply);
    RefsByQueue(t, reply);
    MoveOver(RefsBeside(s, reply), multiset(q), multiset(q[1..]), HeldRefs(Held(s)), RefOf(r));
  }

  function RefsBeside(s: State, reply: bool): multiset<JobRef> {
    TaggedRefs(s.tagged) + multiset(JobQueue(s, !reply))
  }

  lemma RefsByQueue(s: State, reply: bool)
    ensures Refs(s) == RefsBeside(s, reply) + multiset(JobQueue(s, reply)) + HeldRefs(Held(s))
  {
    Shuffle(multiset(s.batchJobs), multiset(s.replyJobs), TaggedRefs(s.tagged), HeldRefs(Held(s)));
  }

  lemma Shuffle<T>(a: multiset<T>, b: multiset<T>, c: multiset<T>, d: multiset<T>)
    ensures a + b + c + d == c + b + a + d
    ensures a + b + c + d == c + a + b + d
  {
  }

  // ----- tagged workers -----

  lemma StartTaggedOk(tw: TaggedSlot)
    requires TaggedOk(tw, false)
    ensures TaggedOk(StartTagged(tw), false)
    ensures TaggedRefsOf(StartTagged(tw)) == TaggedRefsOf(tw)
  {
    if !tw.busy && tw.queue != [] {
      HeadAndTail(tw.queue);
    }
  }

  lemma StartTaggedKeeps(s: State, k: nat)
    requires Shape(s) && ProtocolOk(s) && s.maxWorkers != 0 && k < |s.tagged|
    ensures var t := SetTagged(s, k, StartTagged(s.tagged[k]));
            ProtocolOk(t) && LedgerOf(t) == LedgerOf(s) && Held(t) == Held(s) && Loads(t) == Loads(s)
  {
    hide StartTagged, TaggedRefs, TaggedRefsOf;
    var tw := s.tagged[k];
    var t := SetTagged(s, k, StartTagged(tw));
    StartTaggedOk(tw);
    TaggedUpdate(s.tagged, k, StartTagged(tw));
    CancelRight(TaggedRefs(t.tagged), TaggedRefs(s.tagged), TaggedRefsOf(tw));
    forall j: nat | j < |t.tagged|
      ensures TaggedOk(t.tagged[j], false)
    {
      assert TaggedOk(s.tagged[j], false);
    }
    assert Held(t) == Held(s);
  }

  lemma CancelRight<T>(a: multiset<T>, b: multiset<T>, x: multiset<T>)
    requires a + x == b + x
    ensures a == b
  {
    assert (a + x) - x == a;
    assert (b + x) - x == b;
  }
}
