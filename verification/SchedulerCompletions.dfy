/** Over whole runs, every job and completion is executed on the thread it was submitted for, completions exactly once. */
module SchedulerCompletions {
  import opened SchedulerModel
  import opened SchedulerViews
  import opened SchedulerInvariant
  import opened SchedulerRuns
  import opened SchedulerFrames
  import opened SchedulerReports
  import opened SchedulerShutdown
  import opened SchedulerExecution
  import opened SchedulerPlaces
  import opened SchedulerSubmissions

  /** What a thread executes was submitted for it. */
  lemma ExecutedAtHome(states: seq<State>, events: seq<Event>, i: nat, rec: Rec)
    requires IsRun(states, events) && |states| == |events| + 1 && i < |events| && Finishes(states[i], events[i], rec)
    requires SlotOf(states[i], rec).run.BatchRun?
    ensures var s, run, replies := states[i], SlotOf(states[i], rec).run, Replies(states, events, i);
            match rec
            case Ordinary(_) => AtHome(s.submitted, replies, run.ref, 0, run.reply)
            case TaggedRec(k) => AtHome(s.submitted, replies, run.ref, k + 1, false)
  {
    hide IsRun, Inv, Step, AtHome, QueuesOk;
    RunStep(states, events, i);
    PlacesOverRuns(states, events, i);
    ExecutingHolds(states[i], rec);
    match rec case Ordinary(w) => { assert Held(states[i])[w] == states[i].workers[w].run; } case TaggedRec(k) => {}
  }

  /** A submitted batch is never replaced. */
  lemma {:induction false} SubmittedStays(states: seq<State>, events: seq<Event>, j: nat, i: nat, b: nat)
    requires IsRun(states, events) && |states| == |events| + 1 && j <= i <= |events| && b in states[j].submitted
    ensures b in states[i].submitted && states[i].submitted[b] == states[j].submitted[b]
  {
    hide IsRun, Inv, Step, Enabled, Asked;
    if j < i {
      SubmittedStays(states, events, j, i - 1, b);
      SubmittedOverRuns(states, events, i - 1);
      RunStep(states, events, i - 1);
      StepSubmits(states[i - 1], events[i - 1]);
    }
  }

  lemma CompletesIn(states: seq<State>, events: seq<Event>, j: nat, i: nat, b: nat)
    requires IsRun(states, events) && |states| == |events| + 1 && j <= i <= |events| && b in states[i].submitted
    ensures b in states[j].submitted ==> states[j].submitted[b] == states[i].submitted[b]
    ensures b in states[j].batches ==>
              b in states[j].submitted && states[j].batches[b].completeIn == states[i].submitted[b].completeIn
  {
    hide IsRun, Core;
    if b in states[j].submitted { SubmittedStays(states, events, j, i, b); }
    RunInvariant(states, events, j);
    Numbered(states[j]);
  }

  // ----- completions on a thread -----

  lemma {:induction false} CompletionReported(states: seq<State>, events: seq<Event>, n: nat, i: nat, r: JobRef)
    requires IsRun(states, events) && |states| == |events| + 1 && n <= i <= |events| && r.batch in states[i].submitted
    requires states[i].submitted[r.batch].completeIn != IN_PROXY
    ensures multiset(states[n].finished)[r] == ReportedJob(states, events, n, r)
  {
    hide IsRun, Inv, Step, Enabled, ReportedRun;
    if n == 0 {
      StartFinishesNothing(states, events);
    } else {
      RunStep(states, events, n - 1);
      CompletesIn(states, events, n - 1, i, r.batch);
      FinishedStep(states[n - 1], events[n - 1], r);
      CompletionReported(states, events, n - 1, i, r);
    }
  }

  // ----- completions in the proxy -----

  lemma NotExecuted(states: seq<State>, events: seq<Event>, n: nat, i: nat, r: JobRef)
    requires IsRun(states, events) && |states| == |events| + 1 && n < i <= |events| && r.batch in states[i].submitted
    requires r.jobno == COMPLETION && states[i].submitted[r.batch].completeIn == IN_PROXY
    ensures !OfJob(EndedRun(states[n], events[n]), r)
  {
    hide IsRun, Inv, Step;
    var s, e := states[n], events[n];
    if OfJob(EndedRun(s, e), r) {
      var rec := Actor(e).value;
      ExecutedAtHome(states, events, n, rec);
      CompletesIn(states, events, n, i, r.batch);
    }
  }

  lemma {:induction false} NeverExecuted(states: seq<State>, events: seq<Event>, n: nat, i: nat, r: JobRef)
    requires IsRun(states, events) && |states| == |events| + 1 && n <= i <= |events| && r.batch in states[i].submitted
    requires r.jobno == COMPLETION && states[i].submitted[r.batch].completeIn == IN_PROXY
    ensures ExecutedJob(states, events, n, r) == 0
  {
    hide IsRun, EndedRun;
    if n > 0 {
      NeverExecuted(states, events, n - 1, i, r);
      NotExecuted(states, events, n - 1, i, r);
    }
  }

  /**
   Over any run a completion that was set for a thread has been executed exactly when it is finished or its report is
   on the way, and then once; one set for the proxy is executed by no worker.
   */
  lemma CompletionsExecuted(states: seq<State>, events: seq<Event>, i: nat, b: nat)
    requires IsRun(states, events) && |states| == |events| + 1 && i <= |events| && b in states[i].submitted
    ensures var r := JobRef(b, COMPLETION);
            if states[i].submitted[b].completeIn == IN_PROXY then ExecutedJob(states, events, i, r) == 0
            else ExecutedJob(states, events, i, r) == One(r in states[i].finished) + AwaitingJob(states[i], r)
  {
    hide IsRun, Inv, Executed, Reported, Awaiting;
    var r := JobRef(b, COMPLETION);
    if states[i].submitted[b].completeIn == IN_PROXY {
      NeverExecuted(states, events, i, i, r);
    } else {
      ExecutedIsReported(states, events, i, BatchRun(r, false));
      ExecutedIsReported(states, events, i, BatchRun(r, true));
      CompletionReported(states, events, i, i, r);
      RunInvariant(states, events, i);
      FinishedOnce(states[i], r);
    }
  }
}
