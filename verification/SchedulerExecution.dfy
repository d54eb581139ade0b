/** Over whole runs, every job and every started command is executed once and reported once. */
module SchedulerExecution {
  import opened Basics
  import opened SchedulerModel
  import opened SchedulerViews
  import opened SchedulerInvariant
  import opened SchedulerMessages
  import opened SchedulerRuns
  import opened SchedulerFrames
  import opened SchedulerReports
  import opened SchedulerRecords
  import opened SchedulerTheorems

  // ----- executions and reports of a run -----

  /** The job whose execution the event ends, or `Unloaded`. */
  function EndedRun(s: State, e: Event): RunInfo {
    match e
    case WorkerFinishes(w) => if w < |s.workers| then s.workers[w].run else Unloaded
    case TaggedFinishes(k) => if k < |s.tagged| then s.tagged[k].slot.run else Unloaded
    case _ => Unloaded
  }

  /** The job whose RAN the event handles, or `Unloaded`. */
  function ReportedRun(s: State, e: Event): RunInfo {
    if Message(e) && Reports(s, e, Actor(e).value) then SlotOf(s, Actor(e).value).run else Unloaded
  }

  /** How often `x` has been executed in the first `i` steps. */
  ghost function Executed(states: seq<State>, events: seq<Event>, i: nat, x: RunInfo): nat
    requires |states| == |events| + 1 && i <= |events|
  {
    if i == 0 then 0 else Executed(states, events, i - 1, x) + One(EndedRun(states[i - 1], events[i - 1]) == x)
  }

  /** How often `x` has been reported in the first `i` steps. */
  ghost function Reported(states: seq<State>, events: seq<Event>, i: nat, x: RunInfo): nat
    requires |states| == |events| + 1 && i <= |events|
  {
    if i == 0 then 0 else Reported(states, events, i - 1, x) + One(ReportedRun(states[i - 1], events[i - 1]) == x)
  }

  // ----- executed and not yet reported -----

  function RanOf(slot: Slot): RunInfo {
    if slot.outbox == [RAN] then slot.run else Unloaded
  }

  function RanWorkers(s: State): (q: seq<RunInfo>)
    ensures |q| == |s.workers| && forall i | 0 <= i < |q| :: q[i] == RanOf(s.workers[i])
  {
    seq(|s.workers|, i requires 0 <= i < |s.workers| => RanOf(s.workers[i]))
  }

  function RanTagged(s: State): (q: seq<RunInfo>)
    ensures |q| == |s.tagged| && forall k | 0 <= k < |q| :: q[k] == RanOf(s.tagged[k].slot)
  {
    seq(|s.tagged|, k requires 0 <= k < |s.tagged| => RanOf(s.tagged[k].slot))
  }

  /** How many records hold `x` executed and with its RAN still unread. */
  function Awaiting(s: State, x: RunInfo): nat {
    multiset(RanWorkers(s))[x] + multiset(RanTagged(s))[x]
  }

  lemma RanHolds(s: State, rec: Rec)
    requires Shape(s) && ProtocolOk(s) && Has(s, rec) && SlotOf(s, rec).outbox == [RAN]
    ensures Holds(s, rec)
  {
    match rec {
      case Ordinary(w) => assert WorkerOk(s.workers[w], w in s.idle, s.maxWorkers == 0);
      case TaggedRec(k) => assert TaggedOk(s.tagged[k], s.maxWorkers == 0);
    }
  }

  lemma AwaitingAtWorker(s: State, t: State, w: nat, x: RunInfo)
    requires OthersSame(s, t, Ordinary(w)) && w < |s.workers|
    ensures Awaiting(t, x) + One(RanOf(s.workers[w]) == x) == Awaiting(s, x) + One(RanOf(t.workers[w]) == x)
  {
    hide Holds;
    assert RanWorkers(t) == RanWorkers(s)[w := RanOf(t.workers[w])] && RanTagged(t) == RanTagged(s);
    ReplaceCount(RanWorkers(s), w, RanOf(t.workers[w]), x);
  }

  lemma AwaitingAtTagged(s: State, t: State, k: nat, x: RunInfo)
    requires OthersSame(s, t, TaggedRec(k)) && k < |s.tagged|
    ensures Awaiting(t, x) + One(RanOf(s.tagged[k].slot) == x) == Awaiting(s, x) + One(RanOf(t.tagged[k].slot) == x)
  {
    hide Holds;
    assert RanTagged(t) == RanTagged(s)[k := RanOf(t.tagged[k].slot)] && RanWorkers(t) == RanWorkers(s);
    ReplaceCount(RanTagged(s), k, RanOf(t.tagged[k].slot), x);
  }

  /** An event about one record changes what is awaited there only. */
  lemma AwaitingAt(s: State, t: State, rec: Rec, x: RunInfo)
    requires OthersSame(s, t, rec) && Has(s, rec)
    ensures Has(t, rec)
    ensures Awaiting(t, x) + One(RanOf(SlotOf(s, rec)) == x) == Awaiting(s, x) + One(RanOf(SlotOf(t, rec)) == x)
  {
    hide OthersSame, Awaiting;
    match rec case Ordinary(w) => AwaitingAtWorker(s, t, w, x); case TaggedRec(k) => AwaitingAtTagged(s, t, k, x);
  }

  lemma AwaitingQuiet(s: State, t: State, x: RunInfo)
    requires Core(s) && Framed(s, t, None) && Loaded(x)
    ensures Awaiting(t, x) == Awaiting(s, x)
  {
    assert ProtocolOk(s) && Shape(s);
    hide Core, ProtocolOk, Shape;
    forall i: nat | i < |s.workers| ensures RanOf(t.workers[i]) == RanOf(s.workers[i]) {
      assert RecFramed(s, t, Ordinary(i));
      if s.workers[i].outbox == [RAN] { RanHolds(s, Ordinary(i)); }
    }
    forall k: nat | k < |s.tagged| ensures RanOf(t.tagged[k].slot) == RanOf(s.tagged[k].slot) {
      assert RecFramed(s, t, TaggedRec(k));
      if s.tagged[k].slot.outbox == [RAN] { RanHolds(s, TaggedRec(k)); }
    }
    assert RanTagged(t) == RanTagged(s);
    var n := |s.workers|;
    assert RanWorkers(t)[..n] == RanWorkers(s);
    NoneAfter(RanWorkers(t), n, x);
  }

  lemma {:induction false} NoneAfter(q: seq<RunInfo>, n: nat, x: RunInfo)
    requires n <= |q| && (forall i | n <= i < |q| :: q[i] == Unloaded) && Loaded(x)
    ensures multiset(q)[x] == multiset(q[..n])[x]
    decreases |q|
  {
    var m := |q| - 1;
    if n < |q| {
      NoneAfter(q[..m], n, x);
      assert q == q[..m] + [q[m]] && q[..m][..n] == q[..n];
    } else {
      assert q[..n] == q;
    }
  }

  /** Every execution is awaited until it is reported. */
  lemma AwaitingStep(s: State, e: Event, x: RunInfo)
    requires Inv(s) && Enabled(s, e) && Loaded(x)
    ensures Awaiting(Step(s, e), x) + One(ReportedRun(s, e) == x) == Awaiting(s, x) + One(EndedRun(s, e) == x)
  {
    hide Step, Core, Awaiting, OthersSame, Held, Ended, Balanced, Framed;
    if Message(e) || ThreadEvent(e) {
      var rec := Actor(e).value;
      if ThreadEvent(e) {
        ThreadEffect(s, e, rec);
      } else if Reports(s, e, rec) {
        ReportEffect(s, e, rec);
      } else {
        GoodbyeEffect(s, e, rec);
      }
      AwaitingAt(s, Step(s, e), rec, x);
    } else {
      ProxyQuiet(s, e);
      AwaitingQuiet(s, Step(s, e), x);
    }
  }

  /** Whatever has been executed has been reported or is about to be. */
  lemma {:induction false} ExecutedIsReported(states: seq<State>, events: seq<Event>, i: nat, x: RunInfo)
    requires IsRun(states, events) && |states| == |events| + 1 && i <= |events| && Loaded(x)
    ensures Executed(states, events, i, x) == Reported(states, events, i, x) + Awaiting(states[i], x)
  {
    hide IsRun, Inv, Step, Enabled, Awaiting, EndedRun, ReportedRun;
    if i == 0 {
      StartAwaitsNothing(states, events, x);
    } else {
      ExecutedIsReported(states, events, i - 1, x);
      RunStep(states, events, i - 1);
      AwaitingStep(states[i - 1], events[i - 1], x);
    }
  }

  lemma StartAwaitsNothing(states: seq<State>, events: seq<Event>, x: RunInfo)
    requires IsRun(states, events) && Loaded(x)
    ensures Awaiting(states[0], x) == 0
  {
    hide Step, Enabled;
    var s := states[0];
    assert IsStart(s);
    assert RanWorkers(s) == [];
    NoneAfter(RanTagged(s), 0, x);
    assert RanTagged(s)[..0] == [];
  }

  // ----- commands -----

  lemma OwedStep(s: State, e: Event, c: nat, x: Task)
    requires Inv(s) && Enabled(s, e) && c < |s.started|
    ensures |Step(s, e).started| == |s.started|
    ensures Owed(Step(s, e), c, x) == Owed(s, c, x) + One(ReportedRun(s, e) == CommandRun(c, x))
  {
    hide Step, Core, OthersSame, Ended, Framed, Held;
    if Message(e) || ThreadEvent(e) {
      var rec := Actor(e).value;
      if ThreadEvent(e) {
        ThreadEffect(s, e, rec);
      } else if Reports(s, e, rec) {
        ReportEffect(s, e, rec);
        if rec.Ordinary? {
          HeldIs(s, rec.i);
          ReplaceCount(Held(s), rec.i, Unloaded, CommandRun(c, x));
        }
      } else {
        GoodbyeEffect(s, e, rec);
      }
    } else {
      ProxyQuiet(s, e);
    }
  }

  lemma HeldIs(s: State, i: nat)
    requires Holds(s, Ordinary(i))
    ensures |Held(s)| == |s.workers| && Held(s)[i] == s.workers[i].run
  {
  }

  /**
   In every run, the commands started are exactly those that workers hold and those that were reported, and
   each start is executed at most once, and exactly once when it is reported.
   */
  lemma {:induction false} CommandsExecuted(states: seq<State>, events: seq<Event>, i: nat, c: nat, x: Task)
    requires IsRun(states, events) && |states| == |events| + 1 && i <= |events| && c < |states[i].started|
    ensures multiset(states[i].started[c])[x]
         == multiset(Held(states[i]))[CommandRun(c, x)] + Reported(states, events, i, CommandRun(c, x))
    ensures Reported(states, events, i, CommandRun(c, x)) <= Executed(states, events, i, CommandRun(c, x))
         <= multiset(states[i].started[c])[x]
  {
    OwedIsReported(states, events, i, c, x);
    ExecutedIsReported(states, events, i, CommandRun(c, x));
    RunInvariant(states, events, i);
    hide IsRun, Inv, Reported, Executed;
    AwaitedCommands(states[i], c, x);
  }

  lemma {:induction false} OwedIsReported(states: seq<State>, events: seq<Event>, i: nat, c: nat, x: Task)
    requires IsRun(states, events) && |states| == |events| + 1 && i <= |events| && c < |states[i].started|
    ensures Owed(states[i], c, x) == Reported(states, events, i, CommandRun(c, x))
  {
    if i == 0 {
      hide Step, Enabled;
      assert IsStart(states[0]);
      assert Held(states[0]) == [];
    } else {
      hide IsRun, Inv, Step, Enabled, Owed, ReportedRun;
      RunStep(states, events, i - 1);
      SameCategories(states[i - 1], events[i - 1]);
      OwedStep(states[i - 1], events[i - 1], c, x);
      OwedIsReported(states, events, i - 1, c, x);
    }
  }

  lemma SameCategories(s: State, e: Event)
    requires Inv(s) && Enabled(s, e)
    ensures |Step(s, e).started| == |s.started|
  {
    hide Step, Core, Grows;
    StepGrows(s, e);
    GrowsSays(s, Step(s, e));
  }

  lemma GrowsSays(s: State, t: State)
    requires Grows(s, t)
    ensures |t.started| == |s.started|
  {
  }

  /** What is awaited is held. */
  lemma AwaitedCommands(s: State, c: nat, x: Task)
    requires Inv(s)
    ensures Awaiting(s, CommandRun(c, x)) <= multiset(Held(s))[CommandRun(c, x)]
  {
    assert ProtocolOk(s) && Shape(s);
    hide Inv, ProtocolOk, Shape;
    forall i: nat | i < |s.workers| ensures RanWorkers(s)[i] == Unloaded || RanWorkers(s)[i] == Held(s)[i] {
      if s.workers[i].outbox == [RAN] { RanHolds(s, Ordinary(i)); }
    }
    PartlyBelow(RanWorkers(s), Held(s), CommandRun(c, x));
    forall k: nat | k < |s.tagged| ensures RanTagged(s)[k] != CommandRun(c, x) {
      TaggedHoldsNoCommand(s, k);
    }
    assert CommandRun(c, x) !in RanTagged(s);
  }

  lemma TaggedHoldsNoCommand(s: State, k: nat)
    requires Shape(s) && ProtocolOk(s) && k < |s.tagged|
    ensures s.tagged[k].slot.outbox == [RAN] ==> s.tagged[k].slot.run.BatchRun?
  {
    assert TaggedOk(s.tagged[k], s.maxWorkers == 0);
  }

  lemma {:induction false} PartlyBelow(a: seq<RunInfo>, h: seq<RunInfo>, x: RunInfo)
    requires |a| == |h| && (forall i | 0 <= i < |a| :: a[i] == Unloaded || a[i] == h[i]) && Loaded(x)
    ensures multiset(a)[x] <= multiset(h)[x]
  {
    if a != [] {
      var n := |a| - 1;
      PartlyBelow(a[..n], h[..n], x);
      assert a == a[..n] + [a[n]] && h == h[..n] + [h[n]];
    }
  }

  // ----- batch jobs -----

  ghost function ExecutedJob(states: seq<State>, events: seq<Event>, i: nat, r: JobRef): nat
    requires |states| == |events| + 1 && i <= |events|
  {
    Executed(states, events, i, BatchRun(r, false)) + Executed(states, events, i, BatchRun(r, true))
  }

  function AwaitingJob(s: State, r: JobRef): nat {
    Awaiting(s, BatchRun(r, false)) + Awaiting(s, BatchRun(r, true))
  }

  predicate OfJob(x: RunInfo, r: JobRef) {
    x.BatchRun? && x.ref == r
  }

  /** `r` is the completion of a live batch, and the proxy thread is to run it. */
  predicate InProxy(s: State, r: JobRef) {
    r.jobno == COMPLETION && r.batch in s.batches && s.batches[r.batch].completeIn == IN_PROXY
  }

  lemma FinishedStep(s: State, e: Event, r: JobRef)
    requires Inv(s) && Enabled(s, e)
    ensures multiset(Step(s, e).finished)[r] >= multiset(s.finished)[r] + One(OfJob(ReportedRun(s, e), r))
    ensures !InProxy(s, r) ==> multiset(Step(s, e).finished)[r] == multiset(s.finished)[r] + One(OfJob(ReportedRun(s, e), r))
  {
    hide Step, Core, OthersSame, Framed, Held, Balanced;
    if Message(e) || ThreadEvent(e) {
      var rec := Actor(e).value;
      if ThreadEvent(e) {
        ThreadEffect(s, e, rec);
      } else if Reports(s, e, rec) {
        ReportEffect(s, e, rec);
        EndedFinishes(SlotOf(s, rec).run, s, Step(s, e), SlotOf(Step(s, e), rec).run, r);
      } else {
        GoodbyeEffect(s, e, rec);
      }
    } else {
      ProxyQuiet(s, e);
    }
  }

  lemma EndedFinishes(run: RunInfo, s: State, t: State, after: RunInfo, r: JobRef)
    requires Ended(run, s, t, after)
    ensures multiset(t.finished)[r] >= multiset(s.finished)[r] + One(OfJob(run, r))
    ensures !InProxy(s, r) ==> multiset(t.finished)[r] == multiset(s.finished)[r] + One(OfJob(run, r))
  {
    if run.BatchRun? {
      assert s.finished + [run.ref, CompletionOf(run.ref)] == s.finished + [run.ref] + [CompletionOf(run.ref)];
    }
  }

  ghost function ReportedJob(states: seq<State>, events: seq<Event>, i: nat, r: JobRef): nat
    requires |states| == |events| + 1 && i <= |events|
  {
    Reported(states, events, i, BatchRun(r, false)) + Reported(states, events, i, BatchRun(r, true))
  }

  lemma {:induction false} FinishedIsReported(states: seq<State>, events: seq<Event>, i: nat, r: JobRef)
    requires IsRun(states, events) && |states| == |events| + 1 && i <= |events|
    ensures multiset(states[i].finished)[r] >= ReportedJob(states, events, i, r)
    ensures r.jobno != COMPLETION ==> multiset(states[i].finished)[r] == ReportedJob(states, events, i, r)
  {
    hide IsRun, Inv, Step, Enabled, ReportedRun;
    if i == 0 {
      StartFinishesNothing(states, events);
    } else {
      RunStep(states, events, i - 1);
      FinishedStep(states[i - 1], events[i - 1], r);
      FinishedIsReported(states, events, i - 1, r);
    }
  }

  lemma StartFinishesNothing(states: seq<State>, events: seq<Event>)
    requires IsRun(states, events)
    ensures states[0].finished == []
  {
    hide Step, Enabled;
    assert IsStart(states[0]);
  }

  lemma AwaitedByWorkers(s: State, r: JobRef)
    requires Shape(s) && ProtocolOk(s)
    ensures multiset(RanWorkers(s))[BatchRun(r, false)] + multiset(RanWorkers(s))[BatchRun(r, true)] <= HeldRefs(Held(s))[r]
  {
    hide ProtocolOk, Shape, Gather;
    forall i: nat | i < |s.workers| ensures RanWorkers(s)[i] == Unloaded || RanWorkers(s)[i] == Held(s)[i] {
      if s.workers[i].outbox == [RAN] { RanHolds(s, Ordinary(i)); }
    }
    JobsBelow(RanWorkers(s), HeldBags(Held(s)), r);
  }

  lemma AwaitedByTagged(s: State, r: JobRef)
    requires Shape(s) && ProtocolOk(s)
    ensures multiset(RanTagged(s))[BatchRun(r, false)] + multiset(RanTagged(s))[BatchRun(r, true)] <= Gather(RunBags(s.tagged))[r]
  {
    hide ProtocolOk, Shape, Gather;
    forall k: nat | k < |s.tagged| ensures One(OfJob(RanTagged(s)[k], r)) <= RunBags(s.tagged)[k][r] {
      if s.tagged[k].slot.outbox == [RAN] { RanHolds(s, TaggedRec(k)); }
    }
    JobsBelow(RanTagged(s), RunBags(s.tagged), r);
  }

  lemma AwaitedJobs(s: State, r: JobRef)
    requires Inv(s)
    ensures AwaitingJob(s, r) <= RunningJobs(s)[r]
  {
    assert ProtocolOk(s) && Shape(s);
    hide Inv, ProtocolOk, Shape, Gather, HeldRefs, RanWorkers, RanTagged;
    AwaitedByWorkers(s, r);
    AwaitedByTagged(s, r);
  }

  lemma {:induction false} JobsBelow(a: seq<RunInfo>, bags: seq<multiset<JobRef>>, r: JobRef)
    requires |a| == |bags| && forall i | 0 <= i < |a| :: One(OfJob(a[i], r)) <= bags[i][r]
    ensures multiset(a)[BatchRun(r, false)] + multiset(a)[BatchRun(r, true)] <= Gather(bags)[r]
  {
    if a != [] {
      var n := |a| - 1;
      JobsBelow(a[..n], bags[..n], r);
      LastCount(a, BatchRun(r, false));
      LastCount(a, BatchRun(r, true));
      assert Gather(bags)[r] == Gather(bags[..n])[r] + bags[n][r];
      hide Gather;
    }
  }

  lemma LastCount(a: seq<RunInfo>, x: RunInfo)
    requires a != []
    ensures multiset(a)[x] == multiset(a[..|a| - 1])[x] + One(a[|a| - 1] == x)
  {
    var n := |a| - 1;
    assert a == a[..n] + [a[n]];
  }

  /**
   In every run, no job and no completion is executed twice; a job has been executed exactly when it is
   finished or its report is on the way.
   */
  lemma JobsExecuted(states: seq<State>, events: seq<Event>, i: nat, r: JobRef)
    requires IsRun(states, events) && |states| == |events| + 1 && i <= |events| && r.batch in states[i].submitted
    requires r.jobno == COMPLETION || 0 <= r.jobno < |states[i].submitted[r.batch].threads|
    ensures ExecutedJob(states, events, i, r) <= 1
    ensures r.jobno != COMPLETION ==>
              ExecutedJob(states, events, i, r) == One(r in states[i].finished) + AwaitingJob(states[i], r)
  {
    var s := states[i];
    ExecutedIsReported(states, events, i, BatchRun(r, false));
    ExecutedIsReported(states, events, i, BatchRun(r, true));
    FinishedIsReported(states, events, i, r);
    RunInvariant(states, events, i);
    FinishedOnce(s, r);
    if r.jobno == COMPLETION { CompletionsOverRuns(states, events, i, r.batch); } else { JobsOverRuns(states, events, i, r); }
    hide IsRun, Inv, Executed, Reported, Awaiting, RunningJobs, Queued;
    AwaitedJobs(s, r);
  }

  lemma FinishedOnce(s: State, r: JobRef)
    requires Inv(s)
    ensures multiset(s.finished)[r] == One(r in s.finished)
  {
    assert NoDup(s.finished);
    hide Inv;
    CountNoDup(s.finished, r);
  }

  lemma {:induction false} CountNoDup(q: seq<JobRef>, r: JobRef)
    requires NoDup(q)
    ensures multiset(q)[r] == One(r in q)
  {
    if q != [] {
      var n := |q| - 1;
      CountNoDup(q[..n], r);
      assert q == q[..n] + [q[n]];
    }
  }
}
