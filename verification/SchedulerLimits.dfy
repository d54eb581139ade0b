/** The limits the scheduler works with: set at startup, kept for the whole run, and ended by QUIT. */
module SchedulerLimits {
  import opened Basics
  import opened SchedulerModel
  import opened SchedulerViews
  import opened SchedulerInvariant
  import opened SchedulerSubmits
  import opened SchedulerMessages
  import opened SchedulerRuns
  import opened SchedulerTheorems
  import opened SchedulerAdmissions

  /** The number of threads reserved for a class when the caller asked for `asked`, a negative number being no wish. */
  predicate Reserves(reserved: int, asked: int, general: int, share: int) {
    if asked >= 0 then reserved == asked
    else general <= share * reserved < general + share
  }

  /**
   Without a wish of the caller's, half as many threads as there are general ones are reserved for batch jobs and an
   eighth for replies, both rounded up; records are reserved for all of them together.
   */
  lemma StartupLimits(general: int, batchReserved: int, replyReserved: int, cats: seq<CategoryConfig>, tagged: nat)
    requires general > 0
    ensures var s := Startup(general, batchReserved, replyReserved, cats, tagged);
            && s.general == general && Reserves(s.batchReserved, batchReserved, general, 2)
            && Reserves(s.replyReserved, replyReserved, general, 8)
            && s.maxWorkers == s.capacity == general + s.batchReserved + s.replyReserved + Total(cats)
            && |s.cats| == |cats| && |s.tagged| == tagged
            && forall c | 0 <= c < |cats| :: s.cats[c] == Category(cats[c].reserved, 0, cats[c].maxQueue, 0)
  {
    assert general <= 2 * ((general + 1) / 2) < general + 2;
    assert general <= 8 * ((general + 7) / 8) < general + 8;
  }

  predicate SameLimits(s: State, t: State) {
    && t.general == s.general && t.batchReserved == s.batchReserved && t.replyReserved == s.replyReserved
    && t.capacity == s.capacity && |t.tagged| == |s.tagged| && |t.cats| == |s.cats|
    && forall c | 0 <= c < |s.cats| :: t.cats[c].reserved == s.cats[c].reserved && t.cats[c].maxQueue == s.cats[c].maxQueue
  }

  lemma LimitsTrans(s: State, t: State, u: State)
    requires SameLimits(s, t) && SameLimits(t, u)
    ensures SameLimits(s, u)
  {
  }

  lemma {:induction false} DrainCommandsLimits(s: State, i: nat)
    requires Shape(s) && i <= |s.pending|
    ensures SameLimits(s, DrainCommands(s, i))
    decreases |s.pending| - i
  {
    hide Launch, SameLimits;
    if i < |s.pending| && ActiveWorkers(s) < s.maxWorkers {
      if Dispatchable(s, s.pending[i].cat) {
        StartPendingLimits(s, i);
        DrainCommandsLimits(StartPending(s, i), i);
        LimitsTrans(s, StartPending(s, i), DrainCommands(s, i));
      } else {
        DrainCommandsLimits(s, i + 1);
      }
    } else {
      LimitsSame(s);
    }
  }

  lemma LimitsSame(s: State)
    ensures SameLimits(s, s)
  {
  }

  lemma StartPendingLimits(s: State, i: nat)
    requires Shape(s) && i < |s.pending|
    ensures SameLimits(s, StartPending(s, i))
  {
    hide Launch;
  }

  lemma DrainLimits(s: State)
    requires Shape(s)
    ensures SameLimits(s, ProcessQueue(s)) && ProcessQueue(s).maxWorkers == s.maxWorkers
  {
    DrainSame(s);
    if s.maxWorkers == 0 {
      LimitsSame(s);
    } else {
      hide DrainTagged, DrainJobs, DrainCommands;
      var a := DrainTagged(s, 0);
      DrainTaggedSame(s, 0);
      DrainTaggedLength(s, 0);
      var b := DrainJobs(a, false);
      DrainJobsSame(a, false);
      var c := DrainJobs(b, true);
      DrainJobsSame(b, true);
      DrainCommandsLimits(c, 0);
      LimitsTrans(s, c, DrainCommands(c, 0));
    }
  }

  lemma {:induction false} DrainTaggedLength(s: State, k: nat)
    requires Shape(s) && k <= |s.tagged|
    ensures |DrainTagged(s, k).tagged| == |s.tagged|
    decreases |s.tagged| - k
  {
    if k < |s.tagged| { DrainTaggedLength(SetTagged(s, k, StartTagged(s.tagged[k])), k + 1); }
  }

  lemma FinishLimits(s: State, ref: JobRef, reply: bool)
    requires Shape(s)
    ensures SameLimits(s, FinishBatchJob(s, ref, reply).0) && FinishBatchJob(s, ref, reply).0.maxWorkers == s.maxWorkers
  {
    hide FinishBatchJob;
    FinishFrame(s, ref, reply);
  }

  lemma WorkerLimits(s: State, w: nat)
    requires Core(s) && w < |s.workers| && s.workers[w].outbox != []
    ensures SameLimits(s, WorkerMessage(s, w)) && WorkerMessage(s, w).maxWorkers == s.maxWorkers
  {
    hide Core, ProtocolOk, FinishBatchJob, WorkerMessage;
    KnowsProtocol(s);
    if s.workers[w].outbox[0] == RAN {
      RanFindsBusy(s, w);
      if s.workers[w].run.BatchRun? {
        RanOutput(s, w);
        FinishLimits(BeforeFinish(s, w), s.workers[w].run.ref, s.workers[w].run.reply);
      } else {
        CommandLimits(s, w);
      }
    } else {
      WorkerQuitting(s, w);
      QuittingIs(s, w);
    }
  }

  lemma CommandLimits(s: State, w: nat)
    requires Shape(s) && ProtocolOk(s) && w < |s.workers| && s.workers[w].run.CommandRun?
    requires s.workers[w].outbox != [] && s.workers[w].outbox[0] == RAN
    ensures SameLimits(s, WorkerMessage(s, w)) && WorkerMessage(s, w).maxWorkers == s.maxWorkers
  {
    hide ProtocolOk, FinishBatchJob;
    RanIs(s, w);
  }

  lemma TaggedLimits(s: State, k: nat)
    requires Core(s) && k < |s.tagged| && s.tagged[k].slot.outbox != []
    ensures SameLimits(s, TaggedMessage(s, k)) && TaggedMessage(s, k).maxWorkers == s.maxWorkers
  {
    hide Core, ProtocolOk, TaggedMessage;
    KnowsProtocol(s);
    if s.tagged[k].slot.outbox[0] == RAN {
      TaggedRanFrame(s, k);
    } else {
      TaggedQuitting(s, k);
      TaggedQuittingIs(s, k);
    }
  }

  lemma QueueingLimits(s: State, e: Event)
    requires Core(s) && Enabled(s, e) && (e.Submit? || e.Fire?)
    ensures SameLimits(s, Step(s, e)) && Step(s, e).maxWorkers == s.maxWorkers
  {
    hide Core, PushJobs, PushJob, Refs, FireTimer;
    match e {
      case Submit(threads, complete, completeIn) =>
        PushJobsRefs(Own(s, NewBatch(threads, complete, completeIn, None)), s.nextBatch, threads, 0);
      case Fire(id) =>
        if Fires(s, id) { FireTimerSubmits(s, id); } else { NoFire(s, id); }
    }
  }

  lemma AdmitLimits(s: State, cat: nat, task: Task)
    requires Shape(s) && cat < |s.cats|
    ensures SameLimits(s, Admit(s, cat, task)) && Admit(s, cat, task).maxWorkers == s.maxWorkers
  {
    hide Launch;
  }

  lemma QuitLimits(s: State)
    requires Core(s)
    ensures SameLimits(s, Quit(s)) && Quit(s).maxWorkers == 0
  {
    hide Quit;
    QuitEffect(s);
  }

  /** No event changes a limit, and QUIT alone stops the starting of jobs. */
  lemma StepLimits(s: State, e: Event)
    requires Inv(s) && Enabled(s, e)
    ensures SameLimits(s, Step(s, e)) && Step(s, e).maxWorkers == if e.QuitAll? then 0 else s.maxWorkers
  {
    hide Core, SettledOk, Shape, Admit, SubmitBatch, FireTimer, WorkerMessage, TaggedMessage, ProcessQueue, Quit, Receive;
    match e {
      case Inject(cat, task) => AdmitLimits(s, cat, task);
      case Command(cat, task) => AdmitLimits(s, cat, task);
      case Submit(_, _, _) => QueueingLimits(s, e);
      case Fire(_) => QueueingLimits(s, e);
      case FromWorker(w) => WorkerLimits(s, w);
      case FromTagged(k) => TaggedLimits(s, k);
      case QuitAll => QuitLimits(s);
      case NextPhase => DrainLimits(s);
      case _ =>
    }
  }

  ghost predicate QuitBefore(events: seq<Event>, i: nat)
    requires i <= |events|
  {
    exists j :: 0 <= j < i && events[j].QuitAll?
  }

  /** Over any run the limits are those of startup, and jobs are started until QUIT. */
  lemma {:induction false} LimitsOverRuns(states: seq<State>, events: seq<Event>, i: nat)
    requires IsRun(states, events) && |states| == |events| + 1 && i <= |events|
    ensures SameLimits(states[0], states[i])
    ensures states[i].maxWorkers == if QuitBefore(events, i) then 0 else states[0].capacity
  {
    hide IsRun, Inv, Step, Enabled, SameLimits;
    if i == 0 {
      LimitsSame(states[0]);
      StartsFull(states, events);
    } else {
      LimitsOverRuns(states, events, i - 1);
      RunStep(states, events, i - 1);
      StepLimits(states[i - 1], events[i - 1]);
      LimitsTrans(states[0], states[i - 1], states[i]);
      assert QuitBefore(events, i) <==> QuitBefore(events, i - 1) || events[i - 1].QuitAll?;
    }
  }

  lemma StartsFull(states: seq<State>, events: seq<Event>)
    requires IsRun(states, events)
    ensures states[0].maxWorkers == states[0].capacity
  {
    hide Step, Enabled;
    assert IsStart(states[0]);
  }
}
