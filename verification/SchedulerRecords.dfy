/** Which worker records can still name a batch that has been deleted. */
module SchedulerRecords {
  import opened SchedulerModel
  import opened SchedulerViews
  import opened SchedulerLedger
  import opened SchedulerInvariant
  import opened SchedulerMessages
  import opened SchedulerRuns
  import opened SchedulerFrames
  import opened SchedulerReports

  /** The record was last loaded with a job of batch `b` and has not been reset since. */
  predicate Names(s: State, rec: Rec, b: nat) {
    Has(s, rec) && SlotOf(s, rec).run.BatchRun? && SlotOf(s, rec).run.ref.batch == b
  }

  // ----- one step -----

  /** A record stops holding its job only by reporting it, and is reloaded only by being made to hold one. */
  lemma StepRecord(s: State, e: Event, rec: Rec)
    requires Inv(s) && Enabled(s, e)
    ensures var t := Step(s, e);
            && (Has(s, rec) ==> Has(t, rec))
            && (!Has(s, rec) && Has(t, rec) ==> Holds(t, rec))
            && (Has(s, rec) && !Holds(s, rec) && !Holds(t, rec) ==> SlotOf(t, rec).run == SlotOf(s, rec).run)
            && (Holds(s, rec) && !Holds(t, rec) ==> Reports(s, e, rec))
  {
    hide Step, Quiet, Held, ThreadStepped, Ended;
    if Message(e) || ThreadEvent(e) {
      var actor := Actor(e).value;
      hide Inv;
      if ThreadEvent(e) {
        ThreadEffect(s, e, actor);
        ThreadSays(s, Step(s, e), actor, Finishes(s, e, actor));
      } else if Reports(s, e, actor) {
        ReportEffect(s, e, actor);
      } else {
        GoodbyeEffect(s, e, actor);
      }
      OthersSay(s, Step(s, e), actor, rec);
    } else {
      ProxyQuiet(s, e);
      hide Inv;
      QuietSays(s, Step(s, e), rec);
    }
  }

  lemma ThreadSays(s: State, t: State, rec: Rec, finishes: bool)
    requires ThreadStepped(s, t, rec, finishes)
    ensures Has(s, rec) && OthersSame(s, t, rec) && Has(t, rec) && (Holds(t, rec) <==> Holds(s, rec))
    ensures SlotOf(t, rec).run == SlotOf(s, rec).run
  {
  }

  lemma OthersSay(s: State, t: State, actor: Rec, rec: Rec)
    requires OthersSame(s, t, actor)
    ensures Has(s, rec) <==> Has(t, rec)
    ensures rec != actor && Has(s, rec) ==> SlotOf(t, rec) == SlotOf(s, rec) && (Holds(t, rec) <==> Holds(s, rec))
  {
  }

  lemma QuietSays(s: State, t: State, rec: Rec)
    requires Quiet(s, t)
    ensures Has(s, rec) ==> Has(t, rec) && RecFramed(s, t, rec)
    ensures !Has(s, rec) && Has(t, rec) ==> Holds(t, rec)
  {
  }

  /** A report of a job of `b` that deletes `b` leaves exactly the other records that named it. */
  lemma DeletingReport(s: State, e: Event, actor: Rec, rec: Rec, b: nat)
    requires Inv(s) && Enabled(s, e) && Reports(s, e, actor) && Names(s, actor, b) && b !in Step(s, e).batches
    ensures Names(Step(s, e), rec, b) <==> rec != actor && Names(s, rec, b)
  {
    hide Step, Held, Core;
    ReportEffect(s, e, actor);
    hide Ended;
    EndedSays(SlotOf(s, actor).run, s, Step(s, e), SlotOf(Step(s, e), actor).run);
    OthersSay(s, Step(s, e), actor, rec);
  }

  lemma EndedSays(run: RunInfo, s: State, t: State, after: RunInfo)
    requires Ended(run, s, t, after)
    ensures run.BatchRun? ==> after == if run.ref.batch in t.batches then run else ClearedRun
    ensures after.BatchRun? ==> run == after
  {
    hide TablesAfter;
  }

  /** How one step can change what a record names, for a record that holds no job afterwards. */
  lemma NamingStep(s: State, e: Event, rec: Rec, b: nat)
    requires Inv(s) && Enabled(s, e)
    ensures var t := Step(s, e);
            && (Reports(s, e, rec) && Names(s, rec, b) && b in t.batches ==> Names(t, rec, b) && !Holds(t, rec))
            && (!Holds(s, rec) && !Holds(t, rec) && Names(s, rec, b) ==> Names(t, rec, b))
            && (!Holds(t, rec) && Names(t, rec, b) ==>
                  Names(s, rec, b) && (!Holds(s, rec) || (Reports(s, e, rec) && b in t.batches)))
  {
    hide Step, Core, Held, Ended;
    StepRecord(s, e, rec);
    if Reports(s, e, rec) {
      ReportEffect(s, e, rec);
      EndedSays(SlotOf(s, rec).run, s, Step(s, e), SlotOf(Step(s, e), rec).run);
    }
  }

  // ----- runs -----

  /** A record that names a deleted batch holds no job. */
  lemma DeletedRecords(states: seq<State>, events: seq<Event>, i: nat, rec: Rec, b: nat)
    requires IsRun(states, events) && i < |states| && Names(states[i], rec, b) && b !in states[i].batches
    ensures !Holds(states[i], rec)
  {
    RunInvariant(states, events, i);
    hide IsRun, LedgerOk, SettledOk;
    if Holds(states[i], rec) { HolderIsLive(states[i], rec); }
  }

  /** `rec` reported a job of `b` in step `j`, the batch lived on, and `rec` has held nothing since. */
  ghost predicate LeftBehind(states: seq<State>, events: seq<Event>, i: nat, rec: Rec, b: nat, j: nat)
    requires i < |states| == |events| + 1
  {
    && j < i && Reports(states[j], events[j], rec) && Names(states[j], rec, b) && b in states[j + 1].batches
    && forall m | j < m <= i :: !Holds(states[m], rec)
  }

  lemma {:induction false} KeepsNaming(states: seq<State>, events: seq<Event>, i: nat, rec: Rec, b: nat, j: nat)
    requires IsRun(states, events) && i < |states| == |events| + 1 && LeftBehind(states, events, i, rec, b, j)
    ensures Names(states[i], rec, b)
    decreases i
  {
    hide IsRun, Inv, Step, Enabled, Names, Holds, Reports;
    RunStep(states, events, i - 1);
    NamingStep(states[i - 1], events[i - 1], rec, b);
    if i > j + 1 { KeepsNaming(states, events, i - 1, rec, b, j); }
  }

  lemma {:induction false} NamedByReport(states: seq<State>, events: seq<Event>, i: nat, rec: Rec, b: nat) returns (j: nat)
    requires IsRun(states, events) && i < |states| == |events| + 1 && Names(states[i], rec, b) && !Holds(states[i], rec)
    ensures LeftBehind(states, events, i, rec, b, j)
    decreases i
  {
    hide IsRun, Inv, Step, Enabled, Names, Holds, Reports;
    StartNamesNothing(states, events, rec, b);
    RunStep(states, events, i - 1);
    NamingStep(states[i - 1], events[i - 1], rec, b);
    if Holds(states[i - 1], rec) {
      j := i - 1;
    } else {
      j := NamedByReport(states, events, i - 1, rec, b);
    }
  }

  lemma StartNamesNothing(states: seq<State>, events: seq<Event>, rec: Rec, b: nat)
    requires IsRun(states, events)
    ensures !Names(states[0], rec, b)
  {
    hide Step, Enabled;
    assert IsStart(states[0]);
  }

  /**
   In every run, a record names a deleted batch exactly when its thread reported a job of that batch, that
   report did not delete the batch, and the record has not been given a job since.
   */
  lemma StaleExactly(states: seq<State>, events: seq<Event>, i: nat, rec: Rec, b: nat)
    requires IsRun(states, events) && i < |states| == |events| + 1 && b !in states[i].batches
    ensures Names(states[i], rec, b) <==> exists j: nat :: j < i && LeftBehind(states, events, i, rec, b, j)
  {
    hide IsRun, Names, LeftBehind;
    if Names(states[i], rec, b) {
      DeletedRecords(states, events, i, rec, b);
      var j := NamedByReport(states, events, i, rec, b);
      ByEarlier(states, events, i, rec, b, j);
    } else {
      forall j: nat | j < i ensures !LeftBehind(states, events, i, rec, b, j) {
        if LeftBehind(states, events, i, rec, b, j) { KeepsNaming(states, events, i, rec, b, j); }
      }
    }
  }

  lemma ByEarlier(states: seq<State>, events: seq<Event>, i: nat, rec: Rec, b: nat, j: nat)
    requires i < |states| == |events| + 1 && LeftBehind(states, events, i, rec, b, j)
    ensures j < i
  {
  }
}
