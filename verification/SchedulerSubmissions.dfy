/** Which batches a run submits, and with which settings timers are kept. */
module SchedulerSubmissions {
  import opened Basics
  import opened SchedulerModel
  import opened SchedulerViews
  import opened SchedulerInvariant
  import opened SchedulerSubmits
  import opened SchedulerMessages
  import opened SchedulerRuns
  import opened SchedulerAdmissions

  /**
   The batch an event submits: the caller's, the single job of a reply, or the single job of a timer that fires, which
   is one that is neither squelched by its own unfinished job nor run in the proxy.
   */
  function Asked(s: State, e: Event): Option<Batch> {
    match e
    case Submit(threads, complete, completeIn) => Some(Batch(threads, complete, completeIn, |threads|, None))
    case ReplyJob => Some(Batch([0], false, 0, 1, None))
    case Fire(id) =>
      if id !in s.timers || s.timers[id].thread == IN_PROXY || (s.timers[id].squelch && s.timers[id].running) then None
      else if s.timers[id].squelch then Some(Batch([s.timers[id].thread], true, IN_PROXY, 1, Some(id)))
      else Some(Batch([s.timers[id].thread], false, 0, 1, None))
    case _ => None
  }

  /** The timers have the same settings; a timer may start or stop running. */
  predicate SameSettings(timers: map<nat, Timer>, after: map<nat, Timer>) {
    && after.Keys == timers.Keys
    && forall id | id in timers :: after[id].squelch == timers[id].squelch && after[id].thread == timers[id].thread
  }

  /** Nothing is submitted, and no timer gets other settings. */
  predicate SubmitsNothing(s: State, t: State) {
    t.submitted == s.submitted && t.nextBatch == s.nextBatch && SameSettings(s.timers, t.timers)
  }

  lemma WorkerSubmitsNothing(s: State, w: nat)
    requires Core(s) && w < |s.workers| && s.workers[w].outbox != []
    ensures SubmitsNothing(s, WorkerMessage(s, w))
  {
    hide Core, ProtocolOk, WorkerMessage;
    KnowsProtocol(s);
    if s.workers[w].outbox[0] == RAN {
      RanFindsBusy(s, w);
      if s.workers[w].run.BatchRun? {
        hide SubmitsNothing;
        JobSubmitsNothing(s, w);
      } else {
        RanCommandTables(s, w);
      }
    } else {
      WorkerQuitting(s, w);
      QuittingIs(s, w);
    }
  }

  lemma JobSubmitsNothing(s: State, w: nat)
    requires Shape(s) && ProtocolOk(s) && w < |s.workers| && s.workers[w].run.BatchRun?
    requires s.workers[w].outbox != [] && s.workers[w].outbox[0] == RAN
    ensures SubmitsNothing(s, WorkerMessage(s, w))
  {
    hide ProtocolOk, FinishBatchJob, WorkerMessage;
    RanOutput(s, w);
    FinishSubmitsNothing(BeforeFinish(s, w), s.workers[w].run.ref, s.workers[w].run.reply);
  }

  lemma FinishSubmitsNothing(s: State, ref: JobRef, reply: bool)
    requires Shape(s)
    ensures SubmitsNothing(s, FinishBatchJob(s, ref, reply).0)
  {
    hide FinishBatchJob;
    if ref.batch in s.batches {
      FinishTables(s, ref, reply);
    } else {
      DanglingSame(s, ref, reply);
    }
  }

  lemma DanglingSame(s: State, ref: JobRef, reply: bool)
    requires Shape(s) && ref.batch !in s.batches
    ensures FinishBatchJob(s, ref, reply).0 == s
  {
  }

  lemma TaggedSubmitsNothing(s: State, k: nat)
    requires Core(s) && k < |s.tagged| && s.tagged[k].slot.outbox != []
    ensures SubmitsNothing(s, TaggedMessage(s, k))
  {
    hide Core, ProtocolOk, FinishBatchJob, TaggedMessage;
    KnowsProtocol(s);
    if s.tagged[k].slot.outbox[0] == RAN {
      TaggedRanFindsBusy(s, k);
      TaggedRanOutput(s, k);
      FinishSubmitsNothing(BeforeTaggedFinish(s, k), s.tagged[k].slot.run.ref, s.tagged[k].slot.run.reply);
    } else {
      TaggedQuitting(s, k);
      TaggedQuittingIs(s, k);
    }
  }

  lemma StepSubmits(s: State, e: Event)
    requires Inv(s) && Enabled(s, e)
    ensures var t := Step(s, e);
            match Asked(s, e)
            case None => t.submitted == s.submitted && t.nextBatch == s.nextBatch
            case Some(b) => t.submitted == s.submitted[s.nextBatch := b] && t.nextBatch == s.nextBatch + 1
    ensures var t := Step(s, e);
            if e.NewTimer? then t.timers == s.timers[e.id := Timer(e.squelch, false, e.thread)]
            else SameSettings(s.timers, t.timers)
  {
    hide Core, SettledOk, Shape, Admit, SubmitBatch, FireTimer, WorkerMessage, TaggedMessage, ProcessQueue, Quit, Receive;
    match e {
      case Inject(cat, task) => AdmitSubmitsNothing(s, cat, task);
      case Command(cat, task) => AdmitSubmitsNothing(s, cat, task);
      case Submit(threads, complete, completeIn) => SubmitSubmits(s, threads, complete, completeIn);
      case Fire(id) => FireSubmits(s, id);
      case FromWorker(w) => WorkerSubmitsNothing(s, w);
      case FromTagged(k) => TaggedSubmitsNothing(s, k);
      case QuitAll => QuitSubmitsNothing(s);
      case NextPhase => DrainSame(s);
      case _ =>
    }
  }

  lemma AdmitSubmitsNothing(s: State, cat: nat, task: Task)
    requires Shape(s) && cat < |s.cats|
    ensures var t := Admit(s, cat, task); t.submitted == s.submitted && t.nextBatch == s.nextBatch && t.timers == s.timers
  {
  }

  lemma QuitSubmitsNothing(s: State)
    requires Core(s)
    ensures var t := Quit(s); t.submitted == s.submitted && t.nextBatch == s.nextBatch && t.timers == s.timers
  {
    hide Quit;
    QuitEffect(s);
  }

  lemma SubmitSubmits(s: State, threads: seq<int>, complete: bool, completeIn: int)
    requires Shape(s) && ValidThreads(s, threads)
    ensures var t := SubmitBatch(s, threads, complete, completeIn);
            && t.submitted == s.submitted[s.nextBatch := Batch(threads, complete, completeIn, |threads|, None)]
            && t.nextBatch == s.nextBatch + 1 && t.timers == s.timers
  {
    hide PushJobs, Refs;
    PushJobsRefs(Own(s, NewBatch(threads, complete, completeIn, None)), s.nextBatch, threads, 0);
  }

  lemma FireSubmits(s: State, id: nat)
    requires Shape(s) && (id in s.timers ==> IN_PROXY <= s.timers[id].thread <= |s.tagged|)
    ensures var t := FireTimer(s, id);
            && SameSettings(s.timers, t.timers)
            && match Asked(s, Fire(id))
               case None => t.submitted == s.submitted && t.nextBatch == s.nextBatch
               case Some(b) => t.submitted == s.submitted[s.nextBatch := b] && t.nextBatch == s.nextBatch + 1
  {
    hide FireTimer, Refs;
    if Fires(s, id) {
      FireTimerSubmits(s, id);
    } else {
      NoFire(s, id);
    }
  }

  // ----- runs -----

  /** The batches submitted in the first `i` steps, in order. */
  ghost function Submissions(states: seq<State>, events: seq<Event>, i: nat): seq<Batch>
    requires i <= |events| < |states|
  {
    if i == 0 then []
    else
      Submissions(states, events, i - 1) +
      match Asked(states[i - 1], events[i - 1]) case None => [] case Some(b) => [b]
  }

  /** Over any run batches are numbered in the order of their submission, and kept as they were submitted. */
  lemma {:induction false} SubmittedOverRuns(states: seq<State>, events: seq<Event>, i: nat)
    requires IsRun(states, events) && |states| == |events| + 1 && i <= |events|
    ensures var q := Submissions(states, events, i);
            && states[i].nextBatch == |q|
            && (forall b: nat :: b in states[i].submitted <==> b < |q|)
            && (forall b: nat | b < |q| :: states[i].submitted[b] == q[b])
  {
    hide IsRun, Inv, Step, Enabled, Asked;
    if i == 0 {
      StartsEmpty(states, events);
    } else {
      hide SameSettings;
      SubmittedOverRuns(states, events, i - 1);
      RunStep(states, events, i - 1);
      StepSubmits(states[i - 1], events[i - 1]);
    }
  }

  lemma StartsEmpty(states: seq<State>, events: seq<Event>)
    requires IsRun(states, events)
    ensures states[0].submitted == map[] && states[0].nextBatch == 0 && states[0].timers == map[]
  {
    hide Step, Enabled;
    assert IsStart(states[0]);
  }

  ghost predicate Set(events: seq<Event>, i: nat, id: nat, squelch: bool, thread: int)
    requires i <= |events|
  {
    exists j :: 0 <= j < i && events[j] == NewTimer(id, squelch, thread)
  }

  /** Over any run the timers are those that were set, each with the settings it was given. */
  lemma {:induction false} TimerSettingsOverRuns(states: seq<State>, events: seq<Event>, i: nat, id: nat)
    requires IsRun(states, events) && |states| == |events| + 1 && i <= |events|
    ensures id in states[i].timers <==> exists squelch, thread :: Set(events, i, id, squelch, thread)
    ensures forall squelch, thread | Set(events, i, id, squelch, thread) ::
              id in states[i].timers && states[i].timers[id].squelch == squelch && states[i].timers[id].thread == thread
  {
    hide IsRun, Inv, Step, Asked;
    if i == 0 {
      StartsEmpty(states, events);
    } else {
      var s, e := states[i - 1], events[i - 1];
      TimerSettingsOverRuns(states, events, i - 1, id);
      RunStep(states, events, i - 1);
      StepSubmits(s, e);
      forall squelch, thread ensures Set(events, i, id, squelch, thread) <==>
        Set(events, i - 1, id, squelch, thread) || e == NewTimer(id, squelch, thread)
      {
      }
      hide Set;
      if id in states[i].timers {
        if id in s.timers {
          var squelch, thread :| Set(events, i - 1, id, squelch, thread);
          assert Set(events, i, id, squelch, thread);
        } else {
          assert Set(events, i, id, e.squelch, e.thread);
        }
      }
    }
  }
}
