/** Which commands and injected tasks are accepted over a run, and what becomes of each on arrival. */
module SchedulerAdmissions {
  import opened Basics
  import opened SchedulerModel
  import opened SchedulerLedger
  import opened SchedulerInvariant
  import opened SchedulerStarts
  import opened SchedulerViews
  import opened SchedulerSubmits
  import opened SchedulerRuns
  import opened SchedulerTheorems

  /** The event brings a command or an injected task of category `c`. */
  predicate Brings(e: Event, c: nat) {
    (e.Inject? || e.Command?) && e.cat == c
  }

  /** The category has used up its reservation, and all general workers are busy. */
  predicate Busy(s: State, c: nat)
    requires c < |s.cats|
  {
    s.cats[c].active >= s.cats[c].reserved && |s.workers| - |s.idle| >= s.general
  }

  predicate QueueFull(s: State, c: nat)
    requires c < |s.cats|
  {
    s.cats[c].maxQueue >= 0 && s.cats[c].queued >= s.cats[c].maxQueue
  }

  /** On arrival a task is handed to a worker, queued behind all others, or dropped, and nothing else changes. */
  ghost predicate Arrives(s: State, t: State, c: nat, task: Task)
    requires c < |s.cats| && |s.accepted| == |s.cats| == |s.started|
  {
    if !Busy(s, c) then
      && t == s.(workers := t.workers, idle := t.idle, cats := t.cats, accepted := t.accepted, started := t.started)
      && t.cats == s.cats[c := s.cats[c].(active := s.cats[c].active + 1)]
      && t.accepted == s.accepted[c := s.accepted[c] + [task]]
      && t.started == s.started[c := s.started[c] + [task]]
      && exists w: nat :: w < |t.workers| && TakenFor(s, t, w, CommandRun(c, task))
    else if !QueueFull(s, c) then
      t == s.(pending := s.pending + [Pending(c, task)],
              cats := s.cats[c := s.cats[c].(queued := s.cats[c].queued + 1)],
              accepted := s.accepted[c := s.accepted[c] + [task]])
    else
      t == s
  }

  lemma AdmissionOutcome(s: State, e: Event, c: nat)
    requires Inv(s) && Enabled(s, e) && Brings(e, c)
    ensures c < |s.cats| && |s.accepted| == |s.cats| == |s.started|
    ensures Arrives(s, Step(s, e), c, e.task)
  {
    hide Core, SettledOk, ProtocolOk, Arrives, Admit;
    KnowsProtocol(s);
    AdmitArrives(s, c, e.task);
  }

  lemma AdmitArrives(s: State, c: nat, task: Task)
    requires Shape(s) && ProtocolOk(s) && s.maxWorkers != 0 && c < |s.cats|
    ensures Arrives(s, Admit(s, c, task), c, task)
  {
    hide ProtocolOk, TakenFor, StartCommand;
    if !Busy(s, c) { StartsAtOnce(s, c, task); }
  }

  lemma StartsAtOnce(s: State, c: nat, task: Task)
    requires Shape(s) && ProtocolOk(s) && s.maxWorkers != 0 && c < |s.cats|
    ensures var t := StartCommand(Accept(s, c, task), c, task);
            && t == s.(workers := t.workers, idle := t.idle, cats := t.cats, accepted := t.accepted, started := t.started)
            && t.cats == s.cats[c := s.cats[c].(active := s.cats[c].active + 1)]
            && t.accepted == s.accepted[c := s.accepted[c] + [task]]
            && t.started == s.started[c := s.started[c] + [task]]
            && exists w: nat :: w < |t.workers| && TakenFor(s, t, w, CommandRun(c, task))
  {
    hide TakenFor, ProtocolOk;
    LaunchTakes(s, CommandRun(c, task));
    var l := Launch(s, CommandRun(c, task));
    var w: nat :| w < |l.workers| && TakenFor(s, l, w, CommandRun(c, task));
    TakenBeside(s, l, w, CommandRun(c, task), s, StartCommand(Accept(s, c, task), c, task));
  }

  /** Worker `w`, the one idled last or a new one, holds `r`; the others hold what they held. */
  predicate TakenFor(s: State, t: State, w: nat, r: RunInfo) {
    && w == (if s.idle == [] then |s.workers| else s.idle[|s.idle| - 1])
    && |t.workers| == (if s.idle == [] then |s.workers| + 1 else |s.workers|)
    && t.idle == (if s.idle == [] then [] else s.idle[..|s.idle| - 1])
    && w < |t.workers| && HeldBy(t, w) == r
    && forall i: nat | i < |s.workers| && i != w :: t.workers[i] == s.workers[i] && (i in t.idle <==> i in s.idle)
  }

  lemma LaunchTakes(s: State, r: RunInfo)
    requires Shape(s) && ProtocolOk(s) && s.maxWorkers != 0 && (r.CommandRun? ==> r.cat < |s.cats|)
    ensures exists w: nat :: w < |Launch(s, r).workers| && TakenFor(s, Launch(s, r), w, r)
  {
    hide TakenFor, ProtocolOk;
    if s.idle == [] {
      TakesNew(s, r);
    } else {
      LaunchIdle(s, r);
      TakesIdle(s, r);
    }
  }

  lemma TakesNew(s: State, r: RunInfo)
    requires Shape(s) && s.idle == [] && (r.CommandRun? ==> r.cat < |s.cats|)
    ensures |s.workers| < |Launch(s, r).workers| && TakenFor(s, Launch(s, r), |s.workers|, r)
  {
  }

  lemma TakesIdle(s: State, r: RunInfo)
    requires Shape(s) && s.idle != [] && (r.CommandRun? ==> r.cat < |s.cats|)
    requires Held(Launch(s, r)) == Held(s)[s.idle[|s.idle| - 1] := r]
    ensures var w := s.idle[|s.idle| - 1]; w < |Launch(s, r).workers| && TakenFor(s, Launch(s, r), w, r)
  {
    var t, w := Launch(s, r), s.idle[|s.idle| - 1];
    assert Held(t)[w] == r;
    hide Held, HeldBy;
    assert s.idle == t.idle + [w];
  }

  lemma TakenBeside(s: State, t: State, w: nat, r: RunInfo, s': State, t': State)
    requires TakenFor(s, t, w, r) && s'.workers == s.workers && s'.idle == s.idle && t'.workers == t.workers && t'.idle == t.idle
    ensures TakenFor(s', t', w, r)
  {
    assert w < |t'.workers| && HeldBy(t', w) == r;
  }

  /** No other event accepts anything. */
  lemma AcceptsNothing(s: State, e: Event)
    requires Inv(s) && Enabled(s, e) && !e.Inject? && !e.Command?
    ensures Step(s, e).accepted == s.accepted
  {
    hide Core, SubmitBatch, FireTimer, WorkerMessage, TaggedMessage, ProcessQueue, Quit;
    match e {
      case Submit(_, _, _) => QueueingAccepts(s, e);
      case Fire(_) => QueueingAccepts(s, e);
      case FromWorker(w) => WorkerMessageGrows(s, w);
      case FromTagged(k) => TaggedMessageGrows(s, k);
      case QuitAll => QuitAccepts(s);
      case NextPhase => DrainSame(s);
      case _ =>
    }
  }

  lemma QueueingAccepts(s: State, e: Event)
    requires Core(s) && Enabled(s, e) && (e.Submit? || e.Fire?)
    ensures Step(s, e).accepted == s.accepted
  {
    hide PushJobs, PushJob, LedgerOk, CountersOk, CapacityOk, FifoOk, Refs, ProtocolOk;
    match e
    case Submit(threads, complete, completeIn) =>
      PushJobsRefs(Own(s, NewBatch(threads, complete, completeIn, None)), s.nextBatch, threads, 0);
    case Fire(id) =>
      if Fires(s, id) { FireTimerSubmits(s, id); }
  }

  lemma QuitAccepts(s: State)
    requires Core(s)
    ensures Quit(s).accepted == s.accepted
  {
    QuitEffect(s);
  }

  lemma {:induction false} DrainCommandsSame(s: State, i: nat)
    requires Shape(s) && i <= |s.pending|
    ensures var t := DrainCommands(s, i);
            t == s.(workers := t.workers, idle := t.idle, cats := t.cats, pending := t.pending, started := t.started)
    decreases |s.pending| - i
  {
    hide Launch;
    if i < |s.pending| && ActiveWorkers(s) < s.maxWorkers {
      if Dispatchable(s, s.pending[i].cat) {
        DrainCommandsSame(StartPending(s, i), i);
      } else {
        DrainCommandsSame(s, i + 1);
      }
    }
  }

  /** A drain touches workers, queues and counters only. */
  lemma DrainSame(s: State)
    requires Shape(s)
    ensures var t := ProcessQueue(s);
            t == s.(workers := t.workers, idle := t.idle, tagged := t.tagged, cats := t.cats, pending := t.pending,
                    batchJobs := t.batchJobs, replyJobs := t.replyJobs, batchActive := t.batchActive,
                    replyActive := t.replyActive, started := t.started)
  {
    hide DrainTagged, DrainJobs, DrainCommands;
    if s.maxWorkers != 0 {
      DrainTaggedSame(s, 0);
      DrainJobsSame(DrainTagged(s, 0), false);
      DrainJobsSame(DrainJobs(DrainTagged(s, 0), false), true);
      DrainCommandsSame(DrainJobs(DrainJobs(DrainTagged(s, 0), false), true), 0);
    }
  }

  // ----- runs -----

  /** The tasks of category `c` that arrived in the first `i` steps and were not dropped, in order of arrival. */
  ghost function Arrived(states: seq<State>, events: seq<Event>, i: nat, c: nat): seq<Task>
    requires |states| == |events| + 1 && i <= |events| && forall j | 0 <= j < i :: c < |states[j].cats|
  {
    if i == 0 then []
    else
      var s, e := states[i - 1], events[i - 1];
      Arrived(states, events, i - 1, c) + if Brings(e, c) && !(Busy(s, c) && QueueFull(s, c)) then [e.task] else []
  }

  lemma {:induction false} CategoriesStay(states: seq<State>, events: seq<Event>, i: nat)
    requires IsRun(states, events) && |states| == |events| + 1 && i <= |events|
    ensures |states[i].accepted| == |states[i].cats| == |states[0].cats|
  {
    HistoryGrows(states, events, 0, i);
    RunInvariant(states, events, i);
    RunInvariant(states, events, 0);
    hide IsRun, LedgerOk, TimersOk, CountersOk, CapacityOk, FifoOk, ProtocolOk;
  }

  /**
   Over any run the accepted tasks of a category are exactly the commands and injected tasks that arrived for it, in
   order, without those that found the category busy and its queue full.
   */
  lemma {:induction false} AcceptedOverRuns(states: seq<State>, events: seq<Event>, i: nat, c: nat)
    requires IsRun(states, events) && |states| == |events| + 1 && i <= |events| && c < |states[0].cats|
    ensures forall j | 0 <= j <= i :: |states[j].accepted| == |states[j].cats| == |states[0].cats|
    ensures states[i].accepted[c] == Arrived(states, events, i, c)
  {
    hide IsRun, Inv, Step, Enabled, Busy, QueueFull;
    forall j | 0 <= j <= i ensures |states[j].accepted| == |states[j].cats| == |states[0].cats| {
      CategoriesStay(states, events, j);
    }
    if i == 0 {
      StartAcceptsNothing(states, events, c);
    } else {
      AcceptedOverRuns(states, events, i - 1, c);
      RunStep(states, events, i - 1);
      StepAccepts(states[i - 1], events[i - 1], c);
    }
  }

  lemma StartAcceptsNothing(states: seq<State>, events: seq<Event>, c: nat)
    requires IsRun(states, events) && c < |states[0].accepted|
    ensures states[0].accepted[c] == []
  {
    hide Step, Enabled;
    assert IsStart(states[0]);
  }

  lemma StepAccepts(s: State, e: Event, c: nat)
    requires Inv(s) && Enabled(s, e) && c < |s.cats|
    ensures |s.accepted| == |s.cats| == |Step(s, e).accepted|
    ensures Step(s, e).accepted[c] ==
            s.accepted[c] + if Brings(e, c) && !(Busy(s, c) && QueueFull(s, c)) then [e.task] else []
  {
    hide Core, SettledOk, Step, Enabled, Busy, QueueFull;
    if e.Inject? || e.Command? {
      hide TakenFor;
      AdmissionOutcome(s, e, e.cat);
    } else {
      AcceptsNothing(s, e);
    }
  }
}
