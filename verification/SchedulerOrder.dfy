/** In which order waiting jobs start: first come first served within a queue, and batch jobs before replies before commands. */
module SchedulerOrder {
  import opened SchedulerModel
  import opened SchedulerViews
  import opened SchedulerLedger
  import opened SchedulerInvariant
  import opened SchedulerMessages
  import opened SchedulerRuns
  import opened SchedulerTheorems
  import opened SchedulerAdmissions
  import opened SchedulerPlaces

  // ----- within one queue -----

  datatype Line = BatchLine | ReplyLine | TaggedLine(k: nat)

  function LineOf(s: State, l: Line): seq<JobRef> {
    match l
    case BatchLine => s.batchJobs
    case ReplyLine => s.replyJobs
    case TaggedLine(k) => if k < |s.tagged| then s.tagged[k].queue else []
  }

  /** `p` is what is left of `q` after some have gone from its front, ahead of all that came later. */
  ghost predicate Follows<T(!new)>(q: seq<T>, p: seq<T>) {
    exists n :: 0 <= n <= |q| && q[n..] <= p
  }

  lemma FollowsBy<T(!new)>(q: seq<T>, p: seq<T>, n: nat)
    requires n <= |q| && q[n..] <= p
    ensures Follows(q, p)
  {
  }

  lemma FollowsTrans<T(!new)>(a: seq<T>, b: seq<T>, c: seq<T>)
    requires Follows(a, b) && Follows(b, c)
    ensures Follows(a, c)
  {
    var n :| 0 <= n <= |a| && a[n..] <= b;
    var m :| 0 <= m <= |b| && b[m..] <= c;
    if n + m <= |a| {
      assert a[n + m..] == b[m..][..|a| - n - m];
      FollowsBy(a, c, n + m);
    } else {
      assert a[|a|..] == [];
      FollowsBy(a, c, |a|);
    }
  }

  lemma MovesFollow(s: State, t: State, replies: set<nat>, more: set<nat>, l: Line)
    requires Moves(s, t, replies, more)
    ensures Follows(LineOf(s, l), LineOf(t, l))
  {
    hide Held, AtHome, Extends, RepliesOk, NoneTaken, Follows;
    var q, p := LineOf(s, l), LineOf(t, l);
    if Drained(s, t) {
      assert Tail(p, q);
      FollowsBy(q, p, |q| - |p|);
    } else {
      assert q <= p && q[0..] == q;
      FollowsBy(q, p, 0);
    }
  }

  /** Over any run the jobs of each queue start in the order in which they were queued. */
  lemma {:induction false} JobsInOrder(states: seq<State>, events: seq<Event>, i: nat, j: nat, l: Line)
    requires IsRun(states, events) && |states| == |events| + 1 && i <= j <= |events|
    ensures Follows(LineOf(states[i], l), LineOf(states[j], l))
  {
    hide IsRun, Inv, Step, Enabled, PlacesOk, NextReplies, Moves, Follows, LineOf;
    if i == j {
      var q := LineOf(states[i], l);
      assert q[0..] == q;
      FollowsBy(q, q, 0);
    } else {
      JobsInOrder(states, events, i, j - 1, l);
      PlacesOverRuns(states, events, j - 1);
      RunStep(states, events, j - 1);
      var replies := Replies(states, events, j - 1);
      StepMoves(states[j - 1], events[j - 1], replies);
      MovesFollow(states[j - 1], states[j], replies, NextReplies(states[j - 1], events[j - 1], replies), l);
      FollowsTrans(LineOf(states[i], l), LineOf(states[j - 1], l), LineOf(states[j], l));
    }
  }

  // ----- between the classes -----

  function Max(a: int, b: int): int {
    if a < b then b else a
  }

  lemma LaunchBusier(s: State, r: RunInfo)
    requires Shape(s) && (r.CommandRun? ==> r.cat < |s.cats|)
    ensures ActiveWorkers(Launch(s, r)) == ActiveWorkers(s) + 1
  {
  }

  /** Once the general workers are taken, a class starts jobs within its reservation only. */
  lemma {:induction false} DrainJobsWithin(s: State, reply: bool)
    requires Shape(s)
    ensures var t := DrainJobs(s, reply);
            && ActiveWorkers(t) >= ActiveWorkers(s)
            && JobQueue(t, !reply) == JobQueue(s, !reply) && JobActive(t, !reply) == JobActive(s, !reply)
            && (ActiveWorkers(s) >= s.general ==> JobActive(t, reply) <= Max(JobActive(s, reply), JobReserved(s, reply)))
            && (JobQueue(t, reply) != [] ==> ActiveWorkers(t) >= t.maxWorkers || ActiveWorkers(t) >= t.general)
    decreases |JobQueue(s, reply)|
  {
    hide Launch, Shape;
    if JobQueue(s, reply) != [] && ActiveWorkers(s) < s.maxWorkers && JobDispatchable(s, reply) {
      LaunchBusier(s, BatchRun(JobQueue(s, reply)[0], reply));
      DrainJobsWithin(StartBatchJob(s, reply), reply);
    }
  }

  lemma {:induction false} DrainCommandsWithin(s: State, i: nat, c: nat)
    requires Shape(s) && i <= |s.pending| && c < |s.cats| && ActiveWorkers(s) >= s.general
    ensures var t := DrainCommands(s, i);
            |t.cats| == |s.cats| && t.cats[c].active <= Max(s.cats[c].active, s.cats[c].reserved)
    decreases |s.pending| - i
  {
    hide Launch;
    if i < |s.pending| && ActiveWorkers(s) < s.maxWorkers {
      if Dispatchable(s, s.pending[i].cat) {
        LaunchBusier(s, CommandRun(s.pending[i].cat, s.pending[i].task));
        DrainCommandsWithin(StartPending(s, i), i, c);
      } else {
        DrainCommandsWithin(s, i + 1, c);
      }
    }
  }

  /**
   Batch jobs go before replies, and both before commands: while a drain leaves a batch job waiting, it has started
   replies and commands within their own reservations only; while it leaves a reply waiting, commands likewise.
   */
  lemma DrainPriority(s: State, c: nat)
    requires Core(s) && s.maxWorkers != 0 && c < |s.cats|
    ensures var t := ProcessQueue(s);
            && |t.cats| == |s.cats|
            && (t.batchJobs != [] ==> t.replyActive <= Max(s.replyActive, s.replyReserved))
            && (t.batchJobs != [] || t.replyJobs != [] ==> t.cats[c].active <= Max(s.cats[c].active, s.cats[c].reserved))
  {
    EnoughWorkers(s);
    hide Core, DrainTagged, DrainJobs, DrainCommands, Shape;
    var a := DrainTagged(s, 0);
    DrainTaggedSame(s, 0);
    var b := DrainJobs(a, false);
    DrainJobsSame(a, false);
    DrainJobsWithin(a, false);
    var d := DrainJobs(b, true);
    DrainJobsSame(b, true);
    DrainJobsWithin(b, true);
    DrainCommandsSame(d, 0);
    if d.batchJobs != [] || d.replyJobs != [] {
      DrainCommandsWithin(d, 0, c);
    } else {
      DrainCommandsStays(d, 0);
    }
  }

  lemma {:induction false} DrainCommandsStays(s: State, i: nat)
    requires Shape(s) && i <= |s.pending|
    ensures |DrainCommands(s, i).cats| == |s.cats|
    decreases |s.pending| - i
  {
    hide Launch;
    if i < |s.pending| && ActiveWorkers(s) < s.maxWorkers {
      if Dispatchable(s, s.pending[i].cat) {
        DrainCommandsStays(StartPending(s, i), i);
      } else {
        DrainCommandsStays(s, i + 1);
      }
    }
  }

  lemma EnoughWorkers(s: State)
    requires Core(s) && s.maxWorkers != 0
    ensures s.general <= s.maxWorkers
  {
    hide ProtocolOk, LedgerOk, TimersOk, FifoOk, CountersOk;
    assert CapacityOk(s);
    ReservedNotNegative(Loads(s));
  }

  lemma {:induction false} ReservedNotNegative(q: seq<Load>)
    requires forall i | 0 <= i < |q| :: q[i].reserved >= 0
    ensures SumReserved(q) >= 0
  {
    if q != [] { ReservedNotNegative(q[..|q| - 1]); }
  }

  // ----- idle workers -----

  /** A worker that reports becomes the next one to be used. */
  lemma IdledLast(s: State, w: nat)
    requires Inv(s) && Enabled(s, FromWorker(w)) && s.workers[w].outbox[0] == RAN && s.maxWorkers != 0
    ensures Step(s, FromWorker(w)).idle == s.idle + [w]
  {
    hide Core, WorkerMessage, SettleJob, ProtocolOk;
    KnowsProtocol(s);
    RanIs(s, w);
    SettleFrame(SetWorker(s, w, s.workers[w].(outbox := [])), w);
  }
}
