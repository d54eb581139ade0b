/** Where the jobs of a batch go: each waits and runs on the thread and in the class it was submitted for. */
module SchedulerPlaces {
  import opened Basics
  import opened SchedulerModel
  import opened SchedulerViews
  import opened SchedulerLedger
  import opened SchedulerInvariant
  import opened SchedulerStarts
  import opened SchedulerQueues
  import opened SchedulerSubmits
  import opened SchedulerMessages
  import opened SchedulerRuns
  import opened SchedulerFrames
  import opened SchedulerReports

  /**
   Batch `r.batch` was submitted with job `r.jobno` (or its completion) for `thread`, 0 being any ordinary worker;
   `replies` are the batches that carry a reply job.
   */
  predicate AtHome(submitted: map<nat, Batch>, replies: set<nat>, r: JobRef, thread: int, reply: bool) {
    && r.batch in submitted && (r.batch in replies <==> reply)
    && var b := submitted[r.batch];
       if r.jobno == COMPLETION then b.complete && b.completeIn == thread
       else 0 <= r.jobno < |b.threads| && b.threads[r.jobno] == thread
  }

  ghost predicate QueuesOk(s: State, replies: set<nat>) {
    && (forall i | 0 <= i < |s.batchJobs| :: AtHome(s.submitted, replies, s.batchJobs[i], 0, false))
    && (forall i | 0 <= i < |s.replyJobs| :: AtHome(s.submitted, replies, s.replyJobs[i], 0, true))
    && (forall k: nat, i | k < |s.tagged| && 0 <= i < |s.tagged[k].queue| ::
          AtHome(s.submitted, replies, s.tagged[k].queue[i], k + 1, false))
  }

  /** A job that a tagged or an ordinary worker holds is one for it. */
  ghost predicate HoldersOk(s: State, replies: set<nat>) {
    && (forall k: nat | k < |s.tagged| && s.tagged[k].busy && s.tagged[k].slot.run.BatchRun? ::
          !s.tagged[k].slot.run.reply && AtHome(s.submitted, replies, s.tagged[k].slot.run.ref, k + 1, false))
    && (forall i: nat | i < |s.workers| && Held(s)[i].BatchRun? ::
          AtHome(s.submitted, replies, Held(s)[i].ref, 0, Held(s)[i].reply))
  }

  /** Reply batches have no completion. */
  predicate RepliesOk(s: State, replies: set<nat>) {
    forall b | b in replies :: b in s.submitted && !s.submitted[b].complete
  }

  ghost predicate PlacesOk(s: State, replies: set<nat>) {
    QueuesOk(s, replies) && HoldersOk(s, replies) && RepliesOk(s, replies)
  }

  // ----- a drain moves jobs from the front of a queue to a worker of that queue -----

  predicate Tail<T(==)>(q: seq<T>, of: seq<T>) {
    |q| <= |of| && q == of[|of| - |q|..]
  }

  /** Queues are shortened from the front, and a worker that takes up a job takes one that waited for it. */
  ghost predicate Drained(s: State, t: State) {
    && |t.tagged| == |s.tagged| && |t.workers| >= |s.workers| && t.submitted == s.submitted
    && Tail(t.batchJobs, s.batchJobs) && Tail(t.replyJobs, s.replyJobs)
    && (forall k: nat | k < |s.tagged| :: Tail(t.tagged[k].queue, s.tagged[k].queue))
    && (forall k: nat | k < |s.tagged| && t.tagged[k].busy ::
          || (s.tagged[k].busy && t.tagged[k].slot.run == s.tagged[k].slot.run)
          || Waited(t.tagged[k].slot.run, s.tagged[k].queue, false))
    && (forall i: nat | i < |t.workers| && Held(t)[i].BatchRun? ::
          (i < |s.workers| && Held(t)[i] == Held(s)[i]) || Waited(Held(t)[i], JobQueue(s, Held(t)[i].reply), Held(t)[i].reply))
  }

  predicate Waited(run: RunInfo, q: seq<JobRef>, reply: bool) {
    run.BatchRun? && run.ref in q && run.reply == reply
  }

  lemma DrainedSame(s: State)
    ensures Drained(s, s)
  {
  }

  lemma TailTrans<T>(a: seq<T>, b: seq<T>, c: seq<T>)
    requires Tail(a, b) && Tail(b, c)
    ensures Tail(a, c)
  {
  }

  lemma TailMember<T>(a: seq<T>, b: seq<T>, x: T)
    requires Tail(a, b) && x in a
    ensures x in b
  {
  }

  lemma DrainedTrans(s: State, t: State, u: State)
    requires Drained(s, t) && Drained(t, u)
    ensures Drained(s, u)
  {
    TailTrans(u.batchJobs, t.batchJobs, s.batchJobs);
    TailTrans(u.replyJobs, t.replyJobs, s.replyJobs);
    hide Tail, Held;
    forall k: nat | k < |s.tagged| ensures Tail(u.tagged[k].queue, s.tagged[k].queue) {
      TailTrans(u.tagged[k].queue, t.tagged[k].queue, s.tagged[k].queue);
    }
    forall k: nat | k < |s.tagged| && u.tagged[k].busy
      ensures || (s.tagged[k].busy && u.tagged[k].slot.run == s.tagged[k].slot.run)
              || Waited(u.tagged[k].slot.run, s.tagged[k].queue, false)
    {
      if Waited(u.tagged[k].slot.run, t.tagged[k].queue, false) {
        TailMember(t.tagged[k].queue, s.tagged[k].queue, u.tagged[k].slot.run.ref);
      }
    }
    forall i: nat | i < |u.workers| && Held(u)[i].BatchRun?
      ensures || (i < |s.workers| && Held(u)[i] == Held(s)[i])
              || Waited(Held(u)[i], JobQueue(s, Held(u)[i].reply), Held(u)[i].reply)
    {
      var reply := Held(u)[i].reply;
      if Waited(Held(u)[i], JobQueue(t, reply), reply) {
        TailMember(JobQueue(t, reply), JobQueue(s, reply), Held(u)[i].ref);
      }
    }
  }

  /** Only one worker changes what it holds when a job is launched. */
  lemma LaunchHeld(s: State, r: RunInfo)
    requires Shape(s) && ProtocolOk(s) && s.maxWorkers != 0 && (r.CommandRun? ==> r.cat < |s.cats|)
    ensures var t := Launch(s, r);
            && |t.workers| >= |s.workers|
            && forall i: nat | i < |t.workers| :: Held(t)[i] == r || (i < |s.workers| && Held(t)[i] == Held(s)[i])
  {
    hide ProtocolOk;
    var t := Launch(s, r);
    if s.idle == [] {
      assert Held(t) == Held(s) + [r];
    } else {
      LaunchIdle(s, r);
    }
  }

  lemma StartPendingDrained(s: State, i: nat)
    requires Shape(s) && ProtocolOk(s) && s.maxWorkers != 0 && i < |s.pending|
    ensures Drained(s, StartPending(s, i))
  {
    var r, t := CommandRun(s.pending[i].cat, s.pending[i].task), StartPending(s, i);
    LaunchHeld(s, r);
    hide ProtocolOk, Launch;
    assert Held(t) == Held(Launch(s, r));
    hide Held;
  }

  lemma StartBatchJobDrained(s: State, reply: bool)
    requires Shape(s) && ProtocolOk(s) && s.maxWorkers != 0 && JobQueue(s, reply) != []
    ensures Drained(s, StartBatchJob(s, reply))
  {
    var r, t := BatchRun(JobQueue(s, reply)[0], reply), StartBatchJob(s, reply);
    LaunchHeld(s, r);
    hide ProtocolOk, Launch;
    assert Held(t) == Held(Launch(s, r));
    hide Held;
  }

  lemma StartTaggedDrained(s: State, k: nat)
    requires Shape(s) && k < |s.tagged|
    ensures Drained(s, SetTagged(s, k, StartTagged(s.tagged[k])))
  {
    var t := SetTagged(s, k, StartTagged(s.tagged[k]));
    assert Held(t) == Held(s);
    hide Held;
  }

  lemma {:induction false} DrainCommandsDrained(s: State, i: nat)
    requires Core(s) && s.maxWorkers != 0 && i <= |s.pending| && SettledUpTo(s, i)
    ensures Drained(s, DrainCommands(s, i))
    decreases |s.pending| - i
  {
    hide StartPending, Core, Drained, SettledUpTo, ProtocolOk;
    KnowsProtocol(s);
    if i < |s.pending| && ActiveWorkers(s) < s.maxWorkers {
      if Dispatchable(s, s.pending[i].cat) {
        var u := StartPending(s, i);
        StartPendingPrefix(s, i);
        StartPendingKeepsCore(s, i);
        StartPendingDrained(s, i);
        DrainCommandsDrained(u, i);
        DrainedTrans(s, u, DrainCommands(u, i));
      } else {
        SettledNext(s, i);
        DrainCommandsDrained(s, i + 1);
      }
    } else {
      DrainedSame(s);
    }
  }

  lemma {:induction false} DrainJobsDrained(s: State, reply: bool)
    requires Core(s) && s.maxWorkers != 0
    ensures Drained(s, DrainJobs(s, reply))
    decreases |JobQueue(s, reply)|
  {
    hide StartBatchJob, Core, Drained, ProtocolOk;
    KnowsProtocol(s);
    if JobQueue(s, reply) != [] && ActiveWorkers(s) < s.maxWorkers && JobDispatchable(s, reply) {
      var u := StartBatchJob(s, reply);
      StartBatchJobKeepsCore(s, reply);
      StartBatchJobDrained(s, reply);
      DrainJobsDrained(u, reply);
      DrainedTrans(s, u, DrainJobs(u, reply));
    } else {
      DrainedSame(s);
    }
  }

  lemma {:induction false} DrainTaggedDrained(s: State, k: nat)
    requires Shape(s) && k <= |s.tagged|
    ensures Drained(s, DrainTagged(s, k))
    decreases |s.tagged| - k
  {
    hide Drained, StartTagged;
    if k < |s.tagged| {
      var u := SetTagged(s, k, StartTagged(s.tagged[k]));
      StartTaggedDrained(s, k);
      DrainTaggedDrained(u, k + 1);
      DrainedTrans(s, u, DrainTagged(u, k + 1));
    } else {
      DrainedSame(s);
    }
  }

  lemma ProcessQueueDrained(s: State)
    requires Core(s)
    ensures Drained(s, ProcessQueue(s))
  {
    hide Core, Drained, DrainTagged, DrainJobs, DrainCommands, TaggedSettled;
    if s.maxWorkers != 0 {
      var a := DrainTagged(s, 0);
      DrainTaggedKeeps(s, 0);
      DrainTaggedDrained(s, 0);
      var b := DrainJobs(a, false);
      DrainJobsKeeps(a, false);
      DrainJobsDrained(a, false);
      var c := DrainJobs(b, true);
      DrainJobsKeeps(b, true);
      DrainJobsDrained(b, true);
      DrainCommandsDrained(c, 0);
      DrainedTrans(s, a, b);
      DrainedTrans(s, b, c);
      DrainedTrans(s, c, DrainCommands(c, 0));
    } else {
      DrainedSame(s);
    }
  }

  lemma DrainedKeeps(s: State, t: State, replies: set<nat>)
    requires PlacesOk(s, replies) && Drained(s, t)
    ensures PlacesOk(t, replies)
  {
    hide Held, AtHome;
    forall i: nat | i < |t.workers| && Held(t)[i].BatchRun?
      ensures AtHome(t.submitted, replies, Held(t)[i].ref, 0, Held(t)[i].reply)
    {
      if !(i < |s.workers| && Held(t)[i] == Held(s)[i]) {
        var q := JobQueue(s, Held(t)[i].reply);
        var j :| 0 <= j < |q| && q[j] == Held(t)[i].ref;
      }
    }
    forall k: nat | k < |t.tagged| && t.tagged[k].busy && t.tagged[k].slot.run.BatchRun?
      ensures !t.tagged[k].slot.run.reply && AtHome(t.submitted, replies, t.tagged[k].slot.run.ref, k + 1, false)
    {
      if Waited(t.tagged[k].slot.run, s.tagged[k].queue, false) {
        var j :| 0 <= j < |s.tagged[k].queue| && s.tagged[k].queue[j] == t.tagged[k].slot.run.ref;
      }
    }
  }

  // ----- a push adds jobs at the back of the queue they are for -----

  predicate QueuePushed(q: seq<JobRef>, p: seq<JobRef>, submitted: map<nat, Batch>, replies: set<nat>, thread: int, reply: bool) {
    q <= p && forall j | |q| <= j < |p| :: AtHome(submitted, replies, p[j], thread, reply)
  }

  ghost predicate Pushed(s: State, t: State, replies: set<nat>) {
    && |t.tagged| == |s.tagged|
    && QueuePushed(s.batchJobs, t.batchJobs, t.submitted, replies, 0, false)
    && QueuePushed(s.replyJobs, t.replyJobs, t.submitted, replies, 0, true)
    && forall k: nat | k < |s.tagged| ::
         QueuePushed(s.tagged[k].queue, t.tagged[k].queue, t.submitted, replies, k + 1, false)
  }

  /** No worker takes up a job. */
  ghost predicate NoneTaken(s: State, t: State) {
    && |t.tagged| == |s.tagged| && |t.workers| == |s.workers|
    && (forall k: nat | k < |s.tagged| && t.tagged[k].busy :: s.tagged[k].busy && t.tagged[k].slot.run == s.tagged[k].slot.run)
    && (forall i: nat | i < |s.workers| && Held(t)[i].BatchRun? :: Held(t)[i] == Held(s)[i])
  }

  /** Known batches stay as they were, in submission and in class. */
  predicate Extends(s: State, t: State, replies: set<nat>, more: set<nat>) {
    forall b | b in s.submitted :: b in t.submitted && t.submitted[b] == s.submitted[b] && (b in replies <==> b in more)
  }

  lemma HomeStays(s: State, t: State, replies: set<nat>, more: set<nat>, r: JobRef, thread: int, reply: bool)
    requires Extends(s, t, replies, more) && AtHome(s.submitted, replies, r, thread, reply)
    ensures AtHome(t.submitted, more, r, thread, reply)
  {
  }

  lemma QueueKeeps(s: State, t: State, replies: set<nat>, more: set<nat>, q: seq<JobRef>, p: seq<JobRef>, thread: int, reply: bool)
    requires Extends(s, t, replies, more) && QueuePushed(q, p, t.submitted, more, thread, reply)
    requires forall i | 0 <= i < |q| :: AtHome(s.submitted, replies, q[i], thread, reply)
    ensures forall i | 0 <= i < |p| :: AtHome(t.submitted, more, p[i], thread, reply)
  {
    forall i | 0 <= i < |p| ensures AtHome(t.submitted, more, p[i], thread, reply) {
      if i < |q| { HomeStays(s, t, replies, more, q[i], thread, reply); }
    }
  }

  lemma QueuesKept(s: State, t: State, replies: set<nat>, more: set<nat>)
    requires QueuesOk(s, replies) && Extends(s, t, replies, more) && Pushed(s, t, more)
    ensures QueuesOk(t, more)
  {
    hide AtHome, QueuePushed, Extends;
    QueueKeeps(s, t, replies, more, s.batchJobs, t.batchJobs, 0, false);
    QueueKeeps(s, t, replies, more, s.replyJobs, t.replyJobs, 0, true);
    forall k: nat, i | k < |t.tagged| && 0 <= i < |t.tagged[k].queue|
      ensures AtHome(t.submitted, more, t.tagged[k].queue[i], k + 1, false)
    {
      QueueKeeps(s, t, replies, more, s.tagged[k].queue, t.tagged[k].queue, k + 1, false);
    }
  }

  lemma HoldersKept(s: State, t: State, replies: set<nat>, more: set<nat>)
    requires HoldersOk(s, replies) && Extends(s, t, replies, more) && NoneTaken(s, t)
    ensures HoldersOk(t, more)
  {
    hide AtHome, Extends, Held;
    forall k: nat | k < |t.tagged| && t.tagged[k].busy && t.tagged[k].slot.run.BatchRun?
      ensures !t.tagged[k].slot.run.reply && AtHome(t.submitted, more, t.tagged[k].slot.run.ref, k + 1, false)
    {
      HomeStays(s, t, replies, more, t.tagged[k].slot.run.ref, k + 1, false);
    }
    forall i: nat | i < |t.workers| && Held(t)[i].BatchRun?
      ensures AtHome(t.submitted, more, Held(t)[i].ref, 0, Held(t)[i].reply)
    {
      HomeStays(s, t, replies, more, Held(t)[i].ref, 0, Held(t)[i].reply);
    }
  }

  lemma PushedKeeps(s: State, t: State, replies: set<nat>, more: set<nat>)
    requires PlacesOk(s, replies) && Extends(s, t, replies, more) && Pushed(s, t, more) && NoneTaken(s, t) && RepliesOk(t, more)
    ensures PlacesOk(t, more)
  {
    hide QueuesOk, HoldersOk, Extends, Pushed, NoneTaken, RepliesOk;
    QueuesKept(s, t, replies, more);
    HoldersKept(s, t, replies, more);
  }

  lemma PushedTrans(s: State, t: State, u: State, replies: set<nat>)
    requires Pushed(s, t, replies) && Pushed(t, u, replies) && u.submitted == t.submitted
    ensures Pushed(s, u, replies)
  {
    hide AtHome;
    forall k: nat | k < |s.tagged| ensures
      QueuePushed(s.tagged[k].queue, u.tagged[k].queue, u.submitted, replies, k + 1, false)
    {
      BothPushed(s.tagged[k].queue, t.tagged[k].queue, u.tagged[k].queue, u.submitted, replies, k + 1, false);
    }
    BothPushed(s.batchJobs, t.batchJobs, u.batchJobs, u.submitted, replies, 0, false);
    BothPushed(s.replyJobs, t.replyJobs, u.replyJobs, u.submitted, replies, 0, true);
  }

  lemma BothPushed(a: seq<JobRef>, b: seq<JobRef>, c: seq<JobRef>, submitted: map<nat, Batch>, replies: set<nat>, thread: int, reply: bool)
    requires QueuePushed(a, b, submitted, replies, thread, reply) && QueuePushed(b, c, submitted, replies, thread, reply)
    ensures QueuePushed(a, c, submitted, replies, thread, reply)
  {
    hide AtHome;
    forall j | |a| <= j < |c| ensures AtHome(submitted, replies, c[j], thread, reply) {
      if j < |b| { assert c[j] == b[j]; }
    }
  }

  lemma PushedNothing(s: State, t: State, replies: set<nat>)
    requires t.batchJobs == s.batchJobs && t.replyJobs == s.replyJobs && |t.tagged| == |s.tagged|
    requires forall k: nat | k < |s.tagged| :: t.tagged[k].queue == s.tagged[k].queue
    ensures Pushed(s, t, replies)
  {
  }

  /** What one event does to queues and holders: a drain, or a push. */
  ghost predicate Moves(s: State, t: State, replies: set<nat>, more: set<nat>) {
    || (Drained(s, t) && more == replies)
    || (Extends(s, t, replies, more) && Pushed(s, t, more) && NoneTaken(s, t) && RepliesOk(t, more))
  }

  lemma MovesKeeps(s: State, t: State, replies: set<nat>, more: set<nat>)
    requires PlacesOk(s, replies) && Moves(s, t, replies, more)
    ensures PlacesOk(t, more)
  {
    hide PlacesOk, Drained, Extends, Pushed, NoneTaken, RepliesOk;
    if Drained(s, t) && more == replies {
      DrainedKeeps(s, t, replies);
    } else {
      PushedKeeps(s, t, replies, more);
    }
  }

  // ----- submissions -----

  lemma PushJobPushed(s: State, thread: int, ref: JobRef, replies: set<nat>)
    requires Shape(s) && 0 <= thread <= |s.tagged| && AtHome(s.submitted, replies, ref, thread, false)
    ensures Pushed(s, PushJob(s, thread, ref), replies)
  {
    hide AtHome;
  }

  lemma {:induction false} PushJobsPushed(s: State, id: nat, threads: seq<int>, i: nat, replies: set<nat>)
    requires Shape(s) && i <= |threads| && (forall j | 0 <= j < |threads| :: 0 <= threads[j] <= |s.tagged|)
    requires id in s.submitted && id !in replies && s.submitted[id].threads == threads
    ensures Pushed(s, PushJobs(s, id, threads, i), replies)
    decreases |threads| - i
  {
    hide Pushed, PushJob;
    if i == |threads| {
      PushedNothing(s, s, replies);
    } else {
      var u := PushJob(s, threads[i], JobRef(id, i));
      PushJobPushed(s, threads[i], JobRef(id, i), replies);
      PushJobRefs(s, threads[i], JobRef(id, i));
      PushJobsPushed(u, id, threads, i + 1, replies);
      PushJobsRefs(u, id, threads, i + 1);
      PushedTrans(s, u, PushJobs(s, id, threads, i), replies);
    }
  }

  /** What is known of the batches of a state: consecutive numbers, and live ones as submitted. */
  lemma Numbered(s: State)
    requires Core(s)
    ensures forall b: nat :: b in s.submitted <==> b < s.nextBatch
    ensures forall b | b in s.batches ::
              b in s.submitted && s.batches[b] == s.submitted[b].(outstanding := s.batches[b].outstanding)
              && ThreadsOk(s.batches[b], |s.tagged|)
  {
    hide ProtocolOk, CountersOk, CapacityOk, FifoOk, RefsOk, OpenXorFinished, CompletionsOk, HistoryOk, TimerBatchOk;
    forall b | b in s.batches ensures
      b in s.submitted && s.batches[b] == s.submitted[b].(outstanding := s.batches[b].outstanding)
    {
      assert BatchOk(LedgerOf(s).refs, b, s.batches[b], s.submitted);
    }
  }

  function NextReplies(s: State, e: Event, replies: set<nat>): set<nat> {
    if e.ReplyJob? then replies + {s.nextBatch} else replies
  }

  lemma OneMoreBatch(s: State, t: State, b: Batch, replies: set<nat>, more: set<nat>)
    requires Core(s) && RepliesOk(s, replies) && t.submitted == s.submitted[s.nextBatch := b]
    requires more == replies || (more == replies + {s.nextBatch} && !b.complete)
    ensures Extends(s, t, replies, more) && RepliesOk(t, more) && s.nextBatch !in replies
  {
    hide Core;
    Numbered(s);
  }

  lemma NoneTakenBy(s: State, t: State)
    requires SameThreads(s, t)
    ensures NoneTaken(s, t)
  {
    FrameThreads(s, t);
    hide Held, Loads;
  }

  lemma SubmitMoves(s: State, threads: seq<int>, complete: bool, completeIn: int, replies: set<nat>)
    requires Core(s) && ValidThreads(s, threads) && PlacesOk(s, replies)
    ensures Moves(s, SubmitBatch(s, threads, complete, completeIn), replies, replies)
  {
    hide Core, Pushed, PushJobs, Refs, QueuesOk, HoldersOk, Extends, RepliesOk, NoneTaken;
    var b := NewBatch(threads, complete, completeIn, None);
    var o, t := Own(s, b), SubmitBatch(s, threads, complete, completeIn);
    OneMoreBatch(s, o, b, replies, replies);
    OneMoreBatch(s, t, b, replies, replies) by { PushJobsRefs(o, s.nextBatch, threads, 0); }
    PushJobsPushed(o, s.nextBatch, threads, 0, replies);
    PushJobsRefs(o, s.nextBatch, threads, 0);
    PushedNothing(s, o, replies);
    PushedTrans(s, o, t, replies);
    NoneTakenBy(s, t);
  }

  lemma ReplyMoves(s: State, replies: set<nat>)
    requires Core(s) && PlacesOk(s, replies)
    ensures Moves(s, ScheduleReply(s), replies, replies + {s.nextBatch})
  {
    hide Core, Pushed, QueuesOk, HoldersOk, Extends, RepliesOk, NoneTaken;
    var t, more := ScheduleReply(s), replies + {s.nextBatch};
    OneMoreBatch(s, t, NewBatch([0], false, 0, None), replies, more);
    ReplyPushed(s, t, more);
    NoneTakenBy(s, t);
  }

  lemma ReplyPushed(s: State, t: State, more: set<nat>)
    requires Shape(s) && t == ScheduleReply(s) && s.nextBatch in more
    ensures Pushed(s, t, more)
  {
    assert AtHome(t.submitted, more, JobRef(s.nextBatch, 0), 0, true);
  }

  lemma FireMoves(s: State, id: nat, replies: set<nat>)
    requires Core(s) && PlacesOk(s, replies) && (id in s.timers ==> IN_PROXY <= s.timers[id].thread <= |s.tagged|)
    ensures Moves(s, FireTimer(s, id), replies, replies)
  {
    hide Core, Pushed, PushJob, Refs, QueuesOk, HoldersOk, Extends, RepliesOk, NoneTaken;
    if Fires(s, id) {
      var tm := s.timers[id];
      var b, t := TimerBatch(tm, id), FireTimer(s, id);
      var m := if tm.squelch then s.(timers := s.timers[id := tm.(running := true)]) else s;
      var o := Own(m, b);
      FireTimerSubmits(s, id);
      OneMoreBatch(s, o, b, replies, replies);
      OneMoreBatch(s, t, b, replies, replies);
      PushJobPushed(o, tm.thread, JobRef(s.nextBatch, 0), replies);
      PushedNothing(s, o, replies);
      PushedTrans(s, o, t, replies);
      NoneTakenBy(s, t);
    } else {
      NoFire(s, id);
      PushedNothing(s, s, replies);
    }
  }

  // ----- reports -----

  /** A finished job pushes nothing but the completion of its own batch, onto the thread that is to run it. */
  lemma FinishPushed(s: State, ref: JobRef, reply: bool, replies: set<nat>)
    requires Shape(s) && ref.batch in s.batches && ref.batch in s.submitted
    requires s.batches[ref.batch] == s.submitted[ref.batch].(outstanding := s.batches[ref.batch].outstanding)
    requires ThreadsOk(s.batches[ref.batch], |s.tagged|) && RepliesOk(s, replies) && (ref.batch in replies <==> reply)
    ensures Pushed(s, FinishBatchJob(s, ref, reply).0, replies)
    ensures FinishBatchJob(s, ref, reply).0.submitted == s.submitted
  {
    FinishTables(s, ref, reply);
    var f, b := FinishBatchJob(s, ref, reply).0, s.batches[ref.batch];
    if LeavesCompletion(b, ref) {
      assert AtHome(s.submitted, replies, CompletionOf(ref), b.completeIn, false);
      var m := Log(s, ref).(batches := s.batches[ref.batch := JobFinished(b).0]);
      assert f == QueueCompletion(m, b.completeIn, reply, CompletionOf(ref));
      hide FinishBatchJob, AtHome;
      assert f == PushJob(m, b.completeIn, CompletionOf(ref));
      PushJobPushed(m, b.completeIn, CompletionOf(ref), replies);
    } else {
      PushedNothing(s, f, replies);
    }
  }

  /** The reporter of a batch job holds a job that is at home, of a live batch as submitted. */
  lemma ReporterAtHome(s: State, rec: Rec, replies: set<nat>)
    requires Core(s) && PlacesOk(s, replies) && Holds(s, rec) && SlotOf(s, rec).run.BatchRun?
    ensures var run := SlotOf(s, rec).run;
            && run.ref.batch in s.batches && run.ref.batch in s.submitted
            && s.batches[run.ref.batch] == s.submitted[run.ref.batch].(outstanding := s.batches[run.ref.batch].outstanding)
            && ThreadsOk(s.batches[run.ref.batch], |s.tagged|) && (run.ref.batch in replies <==> run.reply)
  {
    hide Core, RepliesOk, QueuesOk;
    HolderIsLive(s, rec);
    Numbered(s);
    match rec case Ordinary(w) => { assert Held(s)[w] == s.workers[w].run; } case TaggedRec(k) => {}
  }

  lemma WorkerReportMoves(s: State, w: nat, replies: set<nat>)
    requires Core(s) && PlacesOk(s, replies) && w < |s.workers| && s.workers[w].outbox != [] && s.workers[w].outbox[0] == RAN
    ensures Moves(s, WorkerMessage(s, w), replies, replies)
  {
    hide Core, WorkerMessage, Pushed, PlacesOk, FinishBatchJob, ProtocolOk, Ended, TablesAfter;
    var t, run := WorkerMessage(s, w), s.workers[w].run;
    KnowsProtocol(s);
    WorkerReport(s, w);
    if run.BatchRun? {
      ReporterAtHome(s, Ordinary(w), replies);
      RanOutput(s, w);
      var a := BeforeFinish(s, w);
      PlacesReplies(s, replies);
      FinishPushed(a, run.ref, run.reply, replies);
      PushedNothing(s, a, replies);
      var f := FinishBatchJob(a, run.ref, run.reply).0;
      PushedTrans(s, a, f, replies);
      PushedBeside(s, f, t, replies);
    } else {
      RanCommandTables(s, w);
      RanCommandQueues(s, w);
      PushedNothing(s, t, replies);
    }
    ReportMoves(s, t, Ordinary(w), replies);
  }

  lemma PlacesReplies(s: State, replies: set<nat>)
    requires PlacesOk(s, replies)
    ensures RepliesOk(s, replies)
  {
  }

  lemma PushedBeside(s: State, f: State, t: State, replies: set<nat>)
    requires Pushed(s, f, replies) && t.batchJobs == f.batchJobs && t.replyJobs == f.replyJobs && |t.tagged| == |f.tagged|
    requires t.submitted == f.submitted && forall k: nat | k < |f.tagged| :: t.tagged[k].queue == f.tagged[k].queue
    ensures Pushed(s, t, replies)
  {
    hide QueuePushed;
  }

  lemma RanCommandQueues(s: State, w: nat)
    requires Shape(s) && ProtocolOk(s) && w < |s.workers|
    requires s.workers[w].outbox != [] && s.workers[w].outbox[0] == RAN && s.workers[w].run.CommandRun?
    ensures var t := WorkerMessage(s, w); t.batchJobs == s.batchJobs && t.replyJobs == s.replyJobs && t.submitted == s.submitted
  {
    hide ProtocolOk, FinishBatchJob;
    RanIs(s, w);
  }

  lemma ReportMoves(s: State, t: State, rec: Rec, replies: set<nat>)
    requires PlacesOk(s, replies) && Pushed(s, t, replies) && t.submitted == s.submitted
    requires OthersSame(s, t, rec) && !Holds(t, rec) && Has(t, rec)
    requires rec.Ordinary? ==> Held(t) == Held(s)[rec.i := Unloaded]
    requires rec.TaggedRec? ==> Held(t) == Held(s)
    ensures Moves(s, t, replies, replies)
  {
    hide QueuesOk, HoldersOk, Pushed, Held;
    assert NoneTaken(s, t);
  }

  lemma TaggedReportMoves(s: State, k: nat, replies: set<nat>)
    requires Core(s) && PlacesOk(s, replies) && k < |s.tagged|
    requires s.tagged[k].slot.outbox != [] && s.tagged[k].slot.outbox[0] == RAN
    ensures Moves(s, TaggedMessage(s, k), replies, replies)
  {
    hide Core, TaggedMessage, Pushed, PlacesOk, Ended;
    TaggedReport(s, k);
    ReporterAtHome(s, TaggedRec(k), replies);
    PlacesReplies(s, replies);
    KnowsProtocol(s);
    TaggedReportPushed(s, k, replies);
    ReportMoves(s, TaggedMessage(s, k), TaggedRec(k), replies);
  }

  lemma TaggedReportPushed(s: State, k: nat, replies: set<nat>)
    requires Shape(s) && ProtocolOk(s) && RepliesOk(s, replies) && k < |s.tagged|
    requires s.tagged[k].slot.outbox != [] && s.tagged[k].slot.outbox[0] == RAN && s.tagged[k].slot.run.BatchRun?
    requires var b := s.tagged[k].slot.run.ref.batch;
             && b in s.batches && b in s.submitted && s.batches[b] == s.submitted[b].(outstanding := s.batches[b].outstanding)
             && ThreadsOk(s.batches[b], |s.tagged|) && (b in replies <==> s.tagged[k].slot.run.reply)
    ensures Pushed(s, TaggedMessage(s, k), replies) && TaggedMessage(s, k).submitted == s.submitted
  {
    hide TaggedMessage, Pushed, FinishBatchJob, ProtocolOk, RepliesOk, ThreadsOk;
    var run := s.tagged[k].slot.run;
    TaggedRanOutput(s, k);
    var a := BeforeTaggedFinish(s, k);
    assert RepliesOk(a, replies) by { SameReplies(s, a, replies); }
    FinishPushed(a, run.ref, run.reply, replies);
    PushedNothing(s, a, replies);
    var f := FinishBatchJob(a, run.ref, run.reply).0;
    PushedTrans(s, a, f, replies);
    PushedBeside(s, f, TaggedMessage(s, k), replies);
  }

  lemma SameReplies(s: State, t: State, replies: set<nat>)
    requires RepliesOk(s, replies) && t.submitted == s.submitted
    ensures RepliesOk(t, replies)
  {
  }

  // ----- every event -----

  lemma SameMoves(s: State, t: State, replies: set<nat>)
    requires PlacesOk(s, replies) && t.batchJobs == s.batchJobs && t.replyJobs == s.replyJobs && t.submitted == s.submitted
    requires |t.workers| == |s.workers| && Held(t) == Held(s) && |t.tagged| == |s.tagged|
    requires forall k: nat | k < |s.tagged| ::
               && t.tagged[k].queue == s.tagged[k].queue && t.tagged[k].busy == s.tagged[k].busy
               && (s.tagged[k].busy ==> t.tagged[k].slot.run == s.tagged[k].slot.run)
    ensures Moves(s, t, replies, replies)
  {
    hide QueuesOk, HoldersOk, Pushed, Held, AtHome;
    PushedNothing(s, t, replies);
  }

  lemma AdmitMoves(s: State, cat: nat, task: Task, replies: set<nat>)
    requires Core(s) && s.maxWorkers != 0 && cat < |s.cats| && PlacesOk(s, replies)
    ensures Moves(s, Admit(s, cat, task), replies, replies)
  {
    hide Core, PlacesOk, ProtocolOk, StartCommand, Drained;
    KnowsProtocol(s);
    if Dispatchable(s, cat) {
      StartDrained(s, cat, task);
    } else {
      SameHeld(s, Admit(s, cat, task));
      SameMoves(s, Admit(s, cat, task), replies);
    }
  }

  lemma StartDrained(s: State, cat: nat, task: Task)
    requires Shape(s) && ProtocolOk(s) && s.maxWorkers != 0 && cat < |s.cats|
    ensures Drained(s, StartCommand(Accept(s, cat, task), cat, task))
  {
    hide ProtocolOk;
    var r, t := CommandRun(cat, task), StartCommand(Accept(s, cat, task), cat, task);
    LaunchHeld(s, r);
    assert t.workers == Launch(s, r).workers && t.idle == Launch(s, r).idle;
    hide Launch;
    assert Held(t) == Held(Launch(s, r));
    hide Held;
  }

  lemma WorkerGoodbyeMoves(s: State, w: nat, replies: set<nat>)
    requires Core(s) && w < |s.workers| && s.workers[w].outbox != [] && s.workers[w].outbox[0] == QUITTING && PlacesOk(s, replies)
    ensures Moves(s, WorkerMessage(s, w), replies, replies)
  {
    hide Core, PlacesOk, WorkerMessage, Held, OthersSame;
    WorkerGoodbye(s, w);
    QuittingIs(s, w);
    SameMoves(s, WorkerMessage(s, w), replies);
  }

  lemma TaggedGoodbyeMoves(s: State, k: nat, replies: set<nat>)
    requires Core(s) && k < |s.tagged| && s.tagged[k].slot.outbox != [] && s.tagged[k].slot.outbox[0] == QUITTING
    requires PlacesOk(s, replies)
    ensures Moves(s, TaggedMessage(s, k), replies, replies)
  {
    hide Core, PlacesOk, TaggedMessage, Held, OthersSame;
    TaggedGoodbye(s, k);
    TaggedQuittingIs(s, k);
    SameMoves(s, TaggedMessage(s, k), replies);
  }

  lemma ThreadMoves(s: State, e: Event, replies: set<nat>)
    requires Shape(s) && Enabled(s, e) && ThreadEvent(e) && PlacesOk(s, replies)
    ensures Moves(s, Step(s, e), replies, replies)
  {
    hide PlacesOk;
    SameHeld(s, Step(s, e));
    SameMoves(s, Step(s, e), replies);
  }

  lemma QuitMoves(s: State, replies: set<nat>)
    requires Core(s) && PlacesOk(s, replies)
    ensures Moves(s, Quit(s), replies, replies)
  {
    KnowsProtocol(s);
    hide Core, PlacesOk, Quit;
    QuitEffect(s);
    QuitHeld(s, Quit(s));
    SameMoves(s, Quit(s), replies);
  }

  lemma StepMoves(s: State, e: Event, replies: set<nat>)
    requires Inv(s) && Enabled(s, e) && PlacesOk(s, replies)
    ensures Moves(s, Step(s, e), replies, NextReplies(s, e, replies))
  {
    hide Core, PlacesOk, Admit, SubmitBatch, ScheduleReply, FireTimer, WorkerMessage, TaggedMessage, ProcessQueue, Quit;
    match e {
      case Inject(cat, task) => AdmitMoves(s, cat, task, replies);
      case Command(cat, task) => AdmitMoves(s, cat, task, replies);
      case Submit(threads, complete, completeIn) => SubmitMoves(s, threads, complete, completeIn, replies);
      case ReplyJob => ReplyMoves(s, replies);
      case Fire(id) => FireMoves(s, id, replies);
      case NewTimer(_, _, _) => SameMoves(s, Step(s, e), replies);
      case QuitAll => QuitMoves(s, replies);
      case FromWorker(w) =>
        if s.workers[w].outbox[0] == RAN { WorkerReportMoves(s, w, replies); } else { WorkerGoodbyeMoves(s, w, replies); }
      case FromTagged(k) =>
        if s.tagged[k].slot.outbox[0] == RAN { TaggedReportMoves(s, k, replies); } else { TaggedGoodbyeMoves(s, k, replies); }
      case NextPhase => AdvanceMoves(s, replies);
      case _ => ThreadMoves(s, e, replies);
    }
  }

  lemma AdvanceMoves(s: State, replies: set<nat>)
    requires Core(s) && PlacesOk(s, replies)
    ensures Moves(s, Advance(s), replies, replies)
  {
    hide Core, PlacesOk, ProcessQueue, Drained;
    if s.phase == TimerPhase {
      ProcessQueueDrained(s);
      DrainedBeside(s, ProcessQueue(s), Advance(s));
    } else {
      SameHeld(s, Advance(s));
      SameMoves(s, Advance(s), replies);
    }
  }

  lemma DrainedBeside(s: State, m: State, t: State)
    requires Drained(s, m) && t == m.(phase := t.phase)
    ensures Drained(s, t)
  {
    assert Held(t) == Held(m);
    hide Held, Tail;
  }

  // ----- runs -----

  /** The batches that the first `i` steps made for replies. */
  ghost function Replies(states: seq<State>, events: seq<Event>, i: nat): set<nat>
    requires i <= |events| < |states|
  {
    if i == 0 then {} else NextReplies(states[i - 1], events[i - 1], Replies(states, events, i - 1))
  }

  /**
   In every run each job waits in the queue of the thread it was submitted for and is held by that thread, a
   completion likewise, and reply jobs and no others go through the reply class.
   */
  lemma {:induction false} PlacesOverRuns(states: seq<State>, events: seq<Event>, i: nat)
    requires IsRun(states, events) && |states| == |events| + 1 && i <= |events|
    ensures PlacesOk(states[i], Replies(states, events, i))
  {
    hide IsRun, Inv, Step, Enabled, PlacesOk, NextReplies, Moves;
    if i == 0 {
      StartPlaces(states, events);
    } else {
      PlacesOverRuns(states, events, i - 1);
      RunStep(states, events, i - 1);
      StepMoves(states[i - 1], events[i - 1], Replies(states, events, i - 1));
      MovesKeeps(states[i - 1], states[i], Replies(states, events, i - 1), Replies(states, events, i));
    }
  }

  lemma StartPlaces(states: seq<State>, events: seq<Event>)
    requires IsRun(states, events)
    ensures PlacesOk(states[0], {})
  {
    hide Step, Enabled;
    assert IsStart(states[0]);
  }
}
