/** What a report, a goodbye and a thread's own step do to the record they are about. */
module SchedulerReports {
  import opened Basics
  import opened SchedulerModel
  import opened SchedulerViews
  import opened SchedulerLedger
  import opened SchedulerInvariant
  import opened SchedulerMessages
  import opened SchedulerRuns
  import opened SchedulerFrames

  /** The event is the handling of a RAN from `rec`. */
  predicate Reports(s: State, e: Event, rec: Rec) {
    Message(e) && Actor(e) == Some(rec) && Has(s, rec) && SlotOf(s, rec).outbox != [] && SlotOf(s, rec).outbox[0] == RAN
  }

  /** The event is the end of the job that `rec`'s thread was executing. */
  predicate Finishes(s: State, e: Event, rec: Rec) {
    (e.WorkerFinishes? || e.TaggedFinishes?) && Actor(e) == Some(rec) && Has(s, rec)
  }

  /** No record but `rec` is touched, and none is added. */
  predicate OthersSame(s: State, t: State, rec: Rec): (ok: bool)
    ensures ok ==> |t.workers| == |s.workers| && |t.tagged| == |s.tagged|
  {
    && |t.workers| == |s.workers| && |t.tagged| == |s.tagged|
    && (forall i: nat | i < |s.workers| && rec != Ordinary(i) ::
          t.workers[i] == s.workers[i] && (Holds(t, Ordinary(i)) <==> Holds(s, Ordinary(i))))
    && (forall k: nat | k < |s.tagged| && rec != TaggedRec(k) ::
          t.tagged[k].slot == s.tagged[k].slot && t.tagged[k].busy == s.tagged[k].busy)
  }

  // ----- holders -----

  /** A record that holds a batch job holds one of a live batch. */
  lemma HolderIsLive(s: State, rec: Rec)
    requires Core(s) && Holds(s, rec) && SlotOf(s, rec).run.BatchRun?
    ensures SlotOf(s, rec).run.ref in Refs(s) && SlotOf(s, rec).run.ref.batch in s.batches
  {
    hide ProtocolOk, CountersOk, CapacityOk, FifoOk, TimersOk;
    match rec {
      case Ordinary(w) =>
        assert Held(s)[w] == s.workers[w].run;
        HeldRefsContains(Held(s), w);
      case TaggedRec(k) =>
        assert s.tagged[k].slot.run.ref in TaggedRefsOf(s.tagged[k]);
        GatherContains(TaggedBags(s.tagged), k, s.tagged[k].slot.run.ref);
    }
    assert SlotOf(s, rec).run.ref in LedgerOf(s).refs;
  }

  // ----- reports -----

  /** What a report of `run` leaves: the record is reset exactly when its batch is gone. */
  predicate Ended(run: RunInfo, s: State, t: State, after: RunInfo) {
    match run
    case BatchRun(ref, _) =>
      && ref.batch in s.batches && TablesOf(t) == TablesAfter(TablesOf(s), ref)
      && after == if ref.batch in t.batches then run else ClearedRun
    case CommandRun(_, _) => after == run && t.finished == s.finished && t.batches == s.batches
    case _ => false
  }

  lemma FinishClears(s: State, ref: JobRef, reply: bool)
    requires Shape(s) && ref.batch in s.batches
    ensures var (f, clear) := FinishBatchJob(s, ref, reply); clear <==> ref.batch !in f.batches
  {
  }

  lemma SettleClears(m: State, w: nat)
    requires Shape(m) && w < |m.workers| && m.workers[w].run.BatchRun? && m.workers[w].run.ref.batch in m.batches
    ensures var f, run := SettleJob(m, w), m.workers[w].run;
            f.workers[w].run == if run.ref.batch in f.batches then run else ClearedRun
  {
    hide FinishBatchJob;
    var run := m.workers[w].run;
    var a := SetJobs(m, run.reply, JobQueue(m, run.reply), JobActive(m, run.reply) - 1);
    FinishClears(a, run.ref, run.reply);
    FinishFrame(a, run.ref, run.reply);
    var (f, clear) := FinishBatchJob(a, run.ref, run.reply);
    assert SettleJob(m, w) == SetWorker(f, w, ClearRun(f.workers[w], clear));
    hide SettleJob, SetJobs, Shape;
    assert f.workers[w].run == run;
  }

  lemma WorkerReportFrame(s: State, w: nat)
    requires Shape(s) && ProtocolOk(s) && w < |s.workers| && s.workers[w].outbox != [] && s.workers[w].outbox[0] == RAN
    ensures var t, rec := WorkerMessage(s, w), Ordinary(w);
            && Holds(s, rec) && Loaded(s.workers[w].run) && s.workers[w].outbox == [RAN]
            && OthersSame(s, t, rec) && !Holds(t, rec) && t.workers[w].outbox == [] && t.started == s.started
            && t.workers[w].run == SettleJob(SetWorker(s, w, s.workers[w].(outbox := [])), w).workers[w].run
            && t.batches == SettleJob(SetWorker(s, w, s.workers[w].(outbox := [])), w).batches
  {
    hide SettleJob, WorkerMessage;
    RanFindsBusy(s, w);
    RanIs(s, w);
    hide ProtocolOk;
    SettleFrame(SetWorker(s, w, s.workers[w].(outbox := [])), w);
  }

  lemma WorkerReport(s: State, w: nat)
    requires Core(s) && w < |s.workers| && s.workers[w].outbox != [] && s.workers[w].outbox[0] == RAN
    ensures var t, rec := WorkerMessage(s, w), Ordinary(w);
            && Holds(s, rec) && Loaded(s.workers[w].run) && s.workers[w].outbox == [RAN]
            && OthersSame(s, t, rec) && !Holds(t, rec) && t.workers[w].outbox == []
            && Ended(s.workers[w].run, s, t, t.workers[w].run)
            && t.started == s.started && Held(t) == Held(s)[w := Unloaded]
  {
    hide CountersOk, CapacityOk, FifoOk, LedgerOk, TimersOk, ProtocolOk, SettleJob, WorkerMessage, TablesAfter, OthersSame;
    WorkerReportFrame(s, w);
    RanHeld(s, w);
    hide Held;
    var m := SetWorker(s, w, s.workers[w].(outbox := []));
    if s.workers[w].run.BatchRun? {
      HolderIsLive(s, Ordinary(w));
      SettleClears(m, w);
      var f := RanFinish(s, w);
    } else {
      RanCommandTables(s, w);
      SettleCommand(m, w);
    }
  }

  lemma SettleCommand(m: State, w: nat)
    requires Shape(m) && w < |m.workers| && m.workers[w].run.CommandRun?
    ensures SettleJob(m, w).workers == m.workers
  {
  }

  lemma TaggedReportFrame(s: State, k: nat)
    requires Shape(s) && ProtocolOk(s) && k < |s.tagged|
    requires s.tagged[k].slot.outbox != [] && s.tagged[k].slot.outbox[0] == RAN
    ensures var t, rec := TaggedMessage(s, k), TaggedRec(k);
            && Holds(s, rec) && s.tagged[k].slot.run.BatchRun? && s.tagged[k].slot.outbox == [RAN]
            && OthersSame(s, t, rec) && !Holds(t, rec) && t.tagged[k].slot.outbox == []
            && t.started == s.started && Held(t) == Held(s)
  {
    hide TaggedMessage;
    TaggedRanFindsBusy(s, k);
    TaggedRanFrame(s, k);
    hide ProtocolOk;
    SameHeld(s, TaggedMessage(s, k));
  }

  lemma TaggedReport(s: State, k: nat)
    requires Core(s) && k < |s.tagged| && s.tagged[k].slot.outbox != [] && s.tagged[k].slot.outbox[0] == RAN
    ensures var t, rec := TaggedMessage(s, k), TaggedRec(k);
            && Holds(s, rec) && s.tagged[k].slot.run.BatchRun? && s.tagged[k].slot.outbox == [RAN]
            && OthersSame(s, t, rec) && !Holds(t, rec) && t.tagged[k].slot.outbox == []
            && Ended(s.tagged[k].slot.run, s, t, t.tagged[k].slot.run)
            && t.started == s.started && Held(t) == Held(s)
  {
    hide CountersOk, CapacityOk, FifoOk, LedgerOk, TimersOk, ProtocolOk, TaggedMessage, FinishBatchJob, TablesAfter, OthersSame, Held;
    TaggedReportFrame(s, k);
    TaggedRanOutput(s, k);
    HolderIsLive(s, TaggedRec(k));
    var run, a := s.tagged[k].slot.run, BeforeTaggedFinish(s, k);
    FinishClears(a, run.ref, run.reply);
    FinishTables(a, run.ref, run.reply);
    FinishFrame(a, run.ref, run.reply);
  }

  // ----- goodbyes -----

  lemma WorkerGoodbye(s: State, w: nat)
    requires Core(s) && w < |s.workers| && s.workers[w].outbox != [] && s.workers[w].outbox[0] == QUITTING
    ensures var t, rec := WorkerMessage(s, w), Ordinary(w);
            && s.workers[w].outbox == [QUITTING] && OthersSame(s, t, rec) && !Holds(s, rec) && !Holds(t, rec)
            && t.workers[w].run == s.workers[w].run && t.workers[w].outbox == []
            && t.started == s.started && t.finished == s.finished && t.batches == s.batches && Held(t) == Held(s)
  {
    hide CountersOk, CapacityOk, FifoOk, LedgerOk, TimersOk, WorkerMessage;
    assert WorkerOk(s.workers[w], w in s.idle, s.maxWorkers == 0);
    QuittingIs(s, w);
    SameHeld(s, WorkerMessage(s, w));
  }

  lemma TaggedGoodbye(s: State, k: nat)
    requires Core(s) && k < |s.tagged| && s.tagged[k].slot.outbox != [] && s.tagged[k].slot.outbox[0] == QUITTING
    ensures var t, rec := TaggedMessage(s, k), TaggedRec(k);
            && s.tagged[k].slot.outbox == [QUITTING] && OthersSame(s, t, rec) && !Holds(s, rec) && !Holds(t, rec)
            && t.tagged[k].slot.run == s.tagged[k].slot.run && t.tagged[k].slot.outbox == []
            && t.started == s.started && t.finished == s.finished && t.batches == s.batches && Held(t) == Held(s)
  {
    hide CountersOk, CapacityOk, FifoOk, LedgerOk, TimersOk, TaggedMessage;
    assert TaggedOk(s.tagged[k], s.maxWorkers == 0);
    TaggedQuittingIs(s, k);
    assert Held(TaggedMessage(s, k)) == Held(s);
  }

  // ----- any message, any thread step -----

  /** A report ends the job its record holds. */
  lemma ReportEffect(s: State, e: Event, rec: Rec)
    requires Core(s) && Enabled(s, e) && Reports(s, e, rec)
    ensures var t := Step(s, e);
            && Holds(s, rec) && Loaded(SlotOf(s, rec).run) && SlotOf(s, rec).outbox == [RAN]
            && OthersSame(s, t, rec) && Has(t, rec) && !Holds(t, rec) && SlotOf(t, rec).outbox == []
            && Ended(SlotOf(s, rec).run, s, t, SlotOf(t, rec).run)
            && t.started == s.started
            && Held(t) == (if rec.Ordinary? then Held(s)[rec.i := Unloaded] else Held(s))
            && (rec.TaggedRec? ==> SlotOf(s, rec).run.BatchRun?)
  {
    hide Core, WorkerMessage, TaggedMessage, Ended, OthersSame, Held;
    match rec case Ordinary(w) => WorkerReport(s, w); case TaggedRec(k) => TaggedReport(s, k);
  }

  /** A message that is not a report leaves every record as it is. */
  lemma GoodbyeEffect(s: State, e: Event, rec: Rec)
    requires Core(s) && Enabled(s, e) && Message(e) && Actor(e) == Some(rec) && !Reports(s, e, rec)
    ensures var t := Step(s, e);
            && Has(s, rec) && SlotOf(s, rec).outbox == [QUITTING] && OthersSame(s, t, rec)
            && Has(t, rec) && !Holds(s, rec) && !Holds(t, rec)
            && SlotOf(t, rec).run == SlotOf(s, rec).run && SlotOf(t, rec).outbox == []
            && t.started == s.started && t.finished == s.finished && t.batches == s.batches && Held(t) == Held(s)
  {
    hide Core, WorkerMessage, TaggedMessage, OthersSame, Held;
    match rec case Ordinary(w) => WorkerGoodbye(s, w); case TaggedRec(k) => TaggedGoodbye(s, k);
  }

  lemma WorkerStepEffect(s: State, w: nat, slot: Slot)
    requires w < |s.workers| && slot.run == s.workers[w].run && slot.quits == s.workers[w].quits
    ensures var t := s.(workers := s.workers[w := slot]);
            OthersSame(s, t, Ordinary(w)) && (Holds(t, Ordinary(w)) <==> Holds(s, Ordinary(w))) && Held(t) == Held(s)
  {
    SameHeld(s, s.(workers := s.workers[w := slot]));
  }

  lemma TaggedStepEffect(s: State, k: nat, slot: Slot)
    requires k < |s.tagged|
    ensures var t := s.(tagged := s.tagged[k := s.tagged[k].(slot := slot)]);
            OthersSame(s, t, TaggedRec(k)) && (Holds(t, TaggedRec(k)) <==> Holds(s, TaggedRec(k))) && Held(t) == Held(s)
  {
    SameHeld(s, s.(tagged := s.tagged[k := s.tagged[k].(slot := slot)]));
  }

  /** What a protocol state says about the thread's next own step. */
  lemma WorkerThread(slot: Slot, idle: bool, quitting: bool)
    requires WorkerOk(slot, idle, quitting)
    ensures CanReceive(slot) ==> Receive(slot).run == slot.run && Receive(slot).quits == slot.quits && slot.outbox == []
    ensures CanReceive(slot) ==> Receive(slot).outbox == [] || Receive(slot).outbox == [QUITTING]
    ensures slot.thread == Executing ==> !idle && slot.quits == 0 && Loaded(slot.run) && slot.outbox == []
  {
  }

  lemma TaggedThread(tw: TaggedSlot, quitting: bool)
    requires TaggedOk(tw, quitting)
    ensures CanReceive(tw.slot) ==> Receive(tw.slot).run == tw.slot.run && tw.slot.outbox == []
    ensures CanReceive(tw.slot) ==> Receive(tw.slot).outbox == [] || Receive(tw.slot).outbox == [QUITTING]
    ensures tw.slot.thread == Executing ==> tw.busy && Loaded(tw.slot.run) && tw.slot.outbox == []
  {
  }

  /** The step of a thread: what its record names, and whether it holds it, stay. */
  predicate ThreadStepped(s: State, t: State, rec: Rec, finishes: bool) {
    && Has(s, rec) && OthersSame(s, t, rec) && Has(t, rec) && (Holds(t, rec) <==> Holds(s, rec))
    && SlotOf(t, rec).run == SlotOf(s, rec).run && SlotOf(s, rec).outbox == []
    && (if finishes then Holds(s, rec) && Loaded(SlotOf(s, rec).run) && SlotOf(t, rec).outbox == [RAN]
        else SlotOf(t, rec).outbox == [] || SlotOf(t, rec).outbox == [QUITTING])
    && t.started == s.started && t.finished == s.finished && t.batches == s.batches && Held(t) == Held(s)
  }

  lemma WorkerThreadStep(s: State, e: Event, w: nat)
    requires Shape(s) && ProtocolOk(s) && Enabled(s, e) && (e == WorkerReceives(w) || e == WorkerFinishes(w))
    ensures ThreadStepped(s, Step(s, e), Ordinary(w), e.WorkerFinishes?)
  {
    assert WorkerOk(s.workers[w], w in s.idle, s.maxWorkers == 0);
    WorkerThread(s.workers[w], w in s.idle, s.maxWorkers == 0);
    hide ProtocolOk, WorkerOk, OthersSame, Held, CanReceive, Receive;
    WorkerStepEffect(s, w, if e.WorkerReceives? then Receive(s.workers[w]) else Finish(s.workers[w]));
  }

  lemma TaggedThreadStep(s: State, e: Event, k: nat)
    requires Shape(s) && ProtocolOk(s) && Enabled(s, e) && (e == TaggedReceives(k) || e == TaggedFinishes(k))
    ensures ThreadStepped(s, Step(s, e), TaggedRec(k), e.TaggedFinishes?)
  {
    assert TaggedOk(s.tagged[k], s.maxWorkers == 0);
    TaggedThread(s.tagged[k], s.maxWorkers == 0);
    hide ProtocolOk, TaggedOk, OthersSame, Held, CanReceive, Receive;
    TaggedStepEffect(s, k, if e.TaggedReceives? then Receive(s.tagged[k].slot) else Finish(s.tagged[k].slot));
  }

  /** A thread's own step changes neither what its record holds nor whether it holds it. */
  lemma ThreadEffect(s: State, e: Event, rec: Rec)
    requires Core(s) && Enabled(s, e) && ThreadEvent(e) && Actor(e) == Some(rec)
    ensures ThreadStepped(s, Step(s, e), rec, Finishes(s, e, rec))
  {
    hide CountersOk, CapacityOk, FifoOk, LedgerOk, TimersOk, ProtocolOk, ThreadStepped, Step;
    match rec case Ordinary(w) => WorkerThreadStep(s, e, w); case TaggedRec(k) => TaggedThreadStep(s, e, k);
  }
}
