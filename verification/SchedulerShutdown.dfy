/** The message protocol over whole runs: records are only loaded between jobs, and shutdown reaches every thread once. */
module SchedulerShutdown {
  import opened Basics
  import opened SchedulerModel
  import opened SchedulerViews
  import opened SchedulerLedger
  import opened SchedulerInvariant
  import opened SchedulerSubmits
  import opened SchedulerMessages
  import opened SchedulerRuns
  import opened SchedulerFrames
  import opened SchedulerReports
  import opened SchedulerRecords

  // ----- a thread's record does not change while it holds a job -----

  lemma ExecutingHolds(s: State, rec: Rec)
    requires Inv(s) && Has(s, rec) && SlotOf(s, rec).thread == Executing
    ensures Holds(s, rec)
  {
    assert ProtocolOk(s);
    hide LedgerOk, TimersOk, CountersOk, CapacityOk, FifoOk;
    match rec {
      case Ordinary(w) => assert WorkerOk(s.workers[w], w in s.idle, s.maxWorkers == 0);
      case TaggedRec(k) => assert TaggedOk(s.tagged[k], s.maxWorkers == 0);
    }
  }

  /** A message or a thread step is about one record only. */
  lemma ActorOnly(s: State, e: Event)
    requires Inv(s) && Enabled(s, e) && (Message(e) || ThreadEvent(e))
    ensures OthersSame(s, Step(s, e), Actor(e).value)
  {
    assert Core(s);
    hide Step, Inv, Core, Enabled, OthersSame, Ended, Held, ThreadStepped;
    var actor := Actor(e).value;
    if ThreadEvent(e) {
      ThreadEffect(s, e, actor);
      ThreadSays(s, Step(s, e), actor, Finishes(s, e, actor));
    } else if Reports(s, e, actor) {
      ReportEffect(s, e, actor);
    } else {
      GoodbyeEffect(s, e, actor);
    }
  }

  /**
   From the moment a record is loaded until its thread's report is read, nothing but the thread itself and that
   report touches the record or the channels.
   */
  lemma LoadsOnlyBetweenJobs(s: State, e: Event, rec: Rec)
    requires Inv(s) && Enabled(s, e) && Has(s, rec) && Actor(e) != Some(rec)
    requires Holds(s, rec) || SlotOf(s, rec).thread == Executing
    ensures Has(Step(s, e), rec) && Holds(Step(s, e), rec) && SlotOf(Step(s, e), rec) == SlotOf(s, rec)
  {
    hide Step, Shape, Quiet, Inv, Enabled, OthersSame;
    if !Holds(s, rec) { ExecutingHolds(s, rec); }
    if Message(e) || ThreadEvent(e) {
      ActorOnly(s, e);
      OthersSay(s, Step(s, e), Actor(e).value, rec);
    } else {
      ProxyQuiet(s, e);
      QuietSays(s, Step(s, e), rec);
    }
  }

  // ----- what the channels can hold -----

  /** RUN is only ever in flight to a thread that waits for it (or to a tagged one whose START comes first). */
  predicate RunAwaited(slot: Slot) {
    RUN in slot.inbox ==> At(slot, Waiting, [RUN], []) || At(slot, AwaitingStart, [START, RUN], [])
  }

  /** A thread was joined only after it exited, having been told to quit exactly once. */
  predicate JoinedProperly(slot: Slot) {
    && slot.quits <= 1
    && (!slot.joinable ==> slot.quits == 1 && At(slot, Exited, [], []))
  }

  /** In every run: RUN finds its thread waiting, nobody is told to quit twice, and only exited threads are joined. */
  lemma ProtocolOverRuns(states: seq<State>, events: seq<Event>, i: nat)
    requires IsRun(states, events) && i < |states|
    ensures forall w | 0 <= w < |states[i].workers| :: RunAwaited(states[i].workers[w]) && JoinedProperly(states[i].workers[w])
    ensures forall k | 0 <= k < |states[i].tagged| ::
              RunAwaited(states[i].tagged[k].slot) && JoinedProperly(states[i].tagged[k].slot)
    ensures states[i].maxWorkers != 0 ==>
              && (forall w | 0 <= w < |states[i].workers| :: states[i].workers[w].quits == 0)
              && (forall k | 0 <= k < |states[i].tagged| :: states[i].tagged[k].slot.quits == 0)
  {
    var s := states[i];
    RunInvariant(states, events, i);
    assert ProtocolOk(s);
    hide IsRun, Inv, ProtocolOk;
    ProtocolSays(s);
  }

  lemma ProtocolSays(s: State)
    requires ProtocolOk(s)
    ensures forall w | 0 <= w < |s.workers| :: RunAwaited(s.workers[w]) && JoinedProperly(s.workers[w])
    ensures forall k | 0 <= k < |s.tagged| :: RunAwaited(s.tagged[k].slot) && JoinedProperly(s.tagged[k].slot)
    ensures s.maxWorkers != 0 ==>
              && (forall w | 0 <= w < |s.workers| :: s.workers[w].quits == 0)
              && (forall k | 0 <= k < |s.tagged| :: s.tagged[k].slot.quits == 0)
  {
    forall w: nat | w < |s.workers|
      ensures RunAwaited(s.workers[w]) && JoinedProperly(s.workers[w]) && (s.maxWorkers != 0 ==> s.workers[w].quits == 0)
    {
      assert WorkerOk(s.workers[w], w in s.idle, s.maxWorkers == 0);
    }
    forall k: nat | k < |s.tagged|
      ensures RunAwaited(s.tagged[k].slot) && JoinedProperly(s.tagged[k].slot) && (s.maxWorkers != 0 ==> s.tagged[k].slot.quits == 0)
    {
      assert TaggedOk(s.tagged[k], s.maxWorkers == 0);
    }
  }

  /** The test that lets the proxy finish: no worker thread is left to join. */
  predicate AllJoined(s: State) {
    && (forall w | 0 <= w < |s.workers| :: !s.workers[w].joinable)
    && (forall k | 0 <= k < |s.tagged| :: !s.tagged[k].slot.joinable)
  }

  // ----- shutdown terminates -----

  /** How many more steps a thread takes part in before it is joined. */
  function Left(slot: Slot): nat {
    if !slot.joinable then 0
    else match slot.thread
      case Exited => 1
      case Executing => 4
      case Waiting => if slot.inbox == [QUIT] then 2 else if slot.inbox == [RUN] then 5 else 3
      case AwaitingStart => if slot.inbox == [START, QUIT] then 3 else 6
      case NotSpawned => 0
  }

  function SlotsOf(q: seq<TaggedSlot>): (r: seq<Slot>)
    ensures |r| == |q| && forall k | 0 <= k < |q| :: r[k] == q[k].slot
  {
    seq(|q|, k requires 0 <= k < |q| => q[k].slot)
  }

  function SumLeft(q: seq<Slot>): nat {
    if q == [] then 0 else SumLeft(q[..|q| - 1]) + Left(q[|q| - 1])
  }

  function TotalLeft(s: State): nat {
    SumLeft(s.workers) + SumLeft(SlotsOf(s.tagged))
  }

  lemma {:induction false} SumLeftUpdate(q: seq<Slot>, i: nat, slot: Slot)
    requires i < |q|
    ensures SumLeft(q[i := slot]) == SumLeft(q) - Left(q[i]) + Left(slot)
    decreases |q|
  {
    var n := |q| - 1;
    if i == n {
      assert q[i := slot][..n] == q[..n];
    } else {
      assert q[i := slot][..n] == q[..n][i := slot];
      SumLeftUpdate(q[..n], i, slot);
    }
  }

  lemma {:induction false} SumLeftRest(q: seq<Slot>, i: nat)
    requires i < |q|
    ensures SumLeft(q) >= Left(q[i])
    decreases |q|
  {
    if i < |q| - 1 {
      SumLeftRest(q[..|q| - 1], i);
    }
  }

  /** Only worker w's slot differs among all slots. */
  lemma WorkerLeft(s: State, t: State, w: nat)
    requires w < |s.workers| && |t.workers| == |s.workers| && |t.tagged| == |s.tagged|
    requires forall i: nat | i < |s.workers| && i != w :: t.workers[i] == s.workers[i]
    requires forall k: nat | k < |s.tagged| :: t.tagged[k].slot == s.tagged[k].slot
    ensures TotalLeft(t) == TotalLeft(s) - Left(s.workers[w]) + Left(t.workers[w])
  {
    assert t.workers == s.workers[w := t.workers[w]];
    assert SlotsOf(t.tagged) == SlotsOf(s.tagged);
    SumLeftUpdate(s.workers, w, t.workers[w]);
  }

  lemma TaggedLeft(s: State, t: State, k: nat)
    requires k < |s.tagged| && t.workers == s.workers && |t.tagged| == |s.tagged|
    requires forall j: nat | j < |s.tagged| && j != k :: t.tagged[j].slot == s.tagged[j].slot
    ensures TotalLeft(t) == TotalLeft(s) - Left(s.tagged[k].slot) + Left(t.tagged[k].slot)
  {
    assert SlotsOf(t.tagged) == SlotsOf(s.tagged)[k := t.tagged[k].slot];
    SumLeftUpdate(SlotsOf(s.tagged), k, t.tagged[k].slot);
  }

  lemma WorkerMessageLeft(s: State, w: nat)
    requires Core(s) && s.maxWorkers == 0 && w < |s.workers| && s.workers[w].outbox != []
    ensures TotalLeft(WorkerMessage(s, w)) < TotalLeft(s)
  {
    hide LedgerOk, TimersOk, CountersOk, CapacityOk, FifoOk, WorkerMessage, SettleJob, TotalLeft;
    var t := WorkerMessage(s, w);
    assert WorkerOk(s.workers[w], w in s.idle, true);
    if s.workers[w].outbox[0] == RAN {
      RanIs(s, w);
      SettleFrame(SetWorker(s, w, s.workers[w].(outbox := [])), w);
      assert t.workers[w].inbox == [QUIT];
    } else {
      QuittingIs(s, w);
    }
    WorkerLeft(s, t, w);
  }

  lemma TaggedMessageLeft(s: State, k: nat)
    requires Core(s) && s.maxWorkers == 0 && k < |s.tagged| && s.tagged[k].slot.outbox != []
    ensures TotalLeft(TaggedMessage(s, k)) < TotalLeft(s)
  {
    hide LedgerOk, TimersOk, CountersOk, CapacityOk, FifoOk, TaggedMessage, TotalLeft;
    var t := TaggedMessage(s, k);
    assert TaggedOk(s.tagged[k], true);
    if s.tagged[k].slot.outbox[0] == RAN {
      TaggedRanFindsBusy(s, k);
      TaggedRanFrame(s, k);
      assert t.tagged[k].slot.inbox == [QUIT];
    } else {
      TaggedQuittingIs(s, k);
    }
    TaggedLeft(s, t, k);
  }

  lemma WorkerSlotLeft(slot: Slot, idle: bool)
    requires WorkerOk(slot, idle, true) && (idle ==> slot.inbox == [])
    ensures CanReceive(slot) ==> Left(Receive(slot)) < Left(slot)
    ensures slot.thread == Executing ==> Left(Finish(slot)) < Left(slot)
    ensures slot.joinable && !idle ==> slot.outbox != [] || slot.thread == Executing || CanReceive(slot)
  {
    assert |slot.inbox| == 1 ==> slot.inbox[1..] == [];
  }

  lemma TaggedSlotLeft(tw: TaggedSlot)
    requires TaggedOk(tw, true)
    ensures CanReceive(tw.slot) ==> Left(Receive(tw.slot)) < Left(tw.slot)
    ensures tw.slot.thread == Executing ==> Left(Finish(tw.slot)) < Left(tw.slot)
    ensures tw.slot.joinable ==> tw.slot.outbox != [] || tw.slot.thread == Executing || CanReceive(tw.slot)
  {
    var inbox := tw.slot.inbox;
    assert |inbox| == 1 ==> inbox[1..] == [];
    assert |inbox| == 2 ==> inbox[1..] == [inbox[1]];
  }

  lemma ThreadStepLeft(s: State, e: Event)
    requires Core(s) && s.maxWorkers == 0 && Enabled(s, e) && ThreadEvent(e)
    ensures TotalLeft(Step(s, e)) < TotalLeft(s)
  {
    assert ProtocolOk(s);
    hide Core, TotalLeft, WorkerOk, TaggedOk, Receive, Finish, Left;
    var t := Step(s, e);
    if e.WorkerReceives? || e.WorkerFinishes? {
      assert WorkerOk(s.workers[e.w], e.w in s.idle, true);
      WorkerSlotLeft(s.workers[e.w], e.w in s.idle);
      WorkerLeft(s, t, e.w);
    } else {
      assert TaggedOk(s.tagged[e.k], true);
      TaggedSlotLeft(s.tagged[e.k]);
      TaggedLeft(s, t, e.k);
    }
  }

  predicate Settles(e: Event) {
    ThreadEvent(e) || e.FromWorker? || e.FromTagged?
  }

  /** While quitting, every thread step and every worker message brings shutdown closer. */
  lemma ShutdownAdvances(s: State, e: Event)
    requires Inv(s) && s.maxWorkers == 0 && Enabled(s, e) && Settles(e)
    ensures TotalLeft(Step(s, e)) < TotalLeft(s)
  {
    hide Core, TotalLeft, WorkerMessage, TaggedMessage;
    if e.FromWorker? {
      WorkerMessageLeft(s, e.w);
    } else if e.FromTagged? {
      TaggedMessageLeft(s, e.k);
    } else {
      ThreadStepLeft(s, e);
    }
  }

  /** While quitting, no other event sets it back or lifts the shutdown. */
  lemma ShutdownNeverReverts(s: State, e: Event)
    requires Inv(s) && s.maxWorkers == 0 && Enabled(s, e) && !Settles(e)
    ensures TotalLeft(Step(s, e)) == TotalLeft(s) && Step(s, e).maxWorkers == 0
  {
    hide PushJobs, PushJob, LedgerOk, CountersOk, CapacityOk, FifoOk, Refs, ProtocolOk, FireTimer, TotalLeft;
    var t := Step(s, e);
    match e {
      case Submit(threads, complete, completeIn) =>
        PushJobsRefs(Own(s, NewBatch(threads, complete, completeIn, None)), s.nextBatch, threads, 0);
      case Fire(id) =>
        if Fires(s, id) { FireTimerSubmits(s, id); } else { NoFire(s, id); }
      case _ =>
    }
    SameLeft(s, t);
  }

  lemma SameLeft(s: State, t: State)
    requires t.workers == s.workers && |t.tagged| == |s.tagged|
    requires forall k: nat | k < |s.tagged| :: t.tagged[k].slot == s.tagged[k].slot
    ensures TotalLeft(t) == TotalLeft(s)
  {
    assert SlotsOf(t.tagged) == SlotsOf(s.tagged);
  }

  /** While some thread is not joined, one of those steps is possible as soon as the loop reads worker messages. */
  lemma ShutdownNeverStuck(s: State)
    requires Inv(s) && s.maxWorkers == 0 && !AllJoined(s)
    ensures exists e :: Settles(e) && Enabled(s.(phase := WorkerPhase), e)
  {
    assert ProtocolOk(s);
    hide Inv, WorkerOk, TaggedOk, Enabled;
    if w :| 0 <= w < |s.workers| && s.workers[w].joinable {
      assert WorkerOk(s.workers[w], w in s.idle, true);
      WorkerSlotLeft(s.workers[w], false);
      var e := WorkerMoves(s, w);
    } else {
      var k :| 0 <= k < |s.tagged| && s.tagged[k].slot.joinable;
      assert TaggedOk(s.tagged[k], true);
      TaggedSlotLeft(s.tagged[k]);
      var e := TaggedMoves(s, k);
    }
  }

  lemma WorkerMoves(s: State, w: nat) returns (e: Event)
    requires w < |s.workers|
    requires s.workers[w].outbox != [] || s.workers[w].thread == Executing || CanReceive(s.workers[w])
    ensures Settles(e) && Enabled(s.(phase := WorkerPhase), e)
  {
    e := if s.workers[w].outbox != [] then FromWorker(w)
         else if s.workers[w].thread == Executing then WorkerFinishes(w) else WorkerReceives(w);
  }

  lemma TaggedMoves(s: State, k: nat) returns (e: Event)
    requires k < |s.tagged|
    requires s.tagged[k].slot.outbox != [] || s.tagged[k].slot.thread == Executing || CanReceive(s.tagged[k].slot)
    ensures Settles(e) && Enabled(s.(phase := WorkerPhase), e)
  {
    e := if s.tagged[k].slot.outbox != [] then FromTagged(k)
         else if s.tagged[k].slot.thread == Executing then TaggedFinishes(k) else TaggedReceives(k);
  }

  lemma JoinableLeft(slot: Slot)
    requires WorkerOk(slot, false, true)
    ensures slot.joinable ==> Left(slot) > 0
  {
  }

  lemma TaggedJoinableLeft(tw: TaggedSlot)
    requires TaggedOk(tw, true)
    ensures tw.slot.joinable ==> Left(tw.slot) > 0
  {
  }

  /** The steps run out exactly when every thread has been joined. */
  lemma ShutdownDone(s: State)
    requires Inv(s) && s.maxWorkers == 0
    ensures TotalLeft(s) == 0 <==> AllJoined(s)
  {
    assert ProtocolOk(s);
    hide Inv, WorkerOk, TaggedOk, SumLeft, Left;
    if TotalLeft(s) == 0 {
      forall w: nat | w < |s.workers| ensures !s.workers[w].joinable {
        assert WorkerOk(s.workers[w], w in s.idle, true);
        JoinableLeft(s.workers[w]);
        SumLeftRest(s.workers, w);
      }
      forall k: nat | k < |s.tagged| ensures !s.tagged[k].slot.joinable {
        assert TaggedOk(s.tagged[k], true);
        TaggedJoinableLeft(s.tagged[k]);
        SumLeftRest(SlotsOf(s.tagged), k);
      }
    }
    if AllJoined(s) {
      NoneLeft(s.workers);
      NoneLeft(SlotsOf(s.tagged));
    }
  }

  lemma {:induction false} NoneLeft(q: seq<Slot>)
    requires forall i | 0 <= i < |q| :: !q[i].joinable
    ensures SumLeft(q) == 0
  {
    if q != [] {
      NoneLeft(q[..|q| - 1]);
    }
  }

  // ----- shutdown over runs -----

  /** How many steps from `i` to `j` are thread steps or worker messages. */
  ghost function SettlingSteps(events: seq<Event>, i: nat, j: nat): nat
    requires i <= j <= |events|
  {
    if i == j then 0 else SettlingSteps(events, i, j - 1) + One(Settles(events[j - 1]))
  }

  lemma {:induction false} ShutdownUsesUp(states: seq<State>, events: seq<Event>, i: nat, j: nat)
    requires IsRun(states, events) && |states| == |events| + 1 && i <= j < |states| && states[i].maxWorkers == 0
    ensures states[j].maxWorkers == 0
    ensures SettlingSteps(events, i, j) + TotalLeft(states[j]) <= TotalLeft(states[i])
  {
    hide IsRun, Inv, Step, Enabled, TotalLeft, Settles;
    if i < j {
      ShutdownUsesUp(states, events, i, j - 1);
      RunStep(states, events, j - 1);
      ShutdownStep(states[j - 1], events[j - 1]);
    }
  }

  /** While quitting, a step uses up what is left exactly when it is a thread step or a worker message. */
  lemma ShutdownStep(s: State, e: Event)
    requires Inv(s) && s.maxWorkers == 0 && Enabled(s, e)
    ensures Step(s, e).maxWorkers == 0
    ensures TotalLeft(Step(s, e)) + One(Settles(e)) <= TotalLeft(s)
    ensures !Settles(e) ==> TotalLeft(Step(s, e)) == TotalLeft(s)
  {
    hide Inv, Step, Enabled, TotalLeft, Settles;
    if Settles(e) {
      ShutdownAdvances(s, e);
      StaysQuit(s, e);
    } else {
      ShutdownNeverReverts(s, e);
    }
  }

  /** A thread step or a worker message does not lift the shutdown. */
  lemma StaysQuit(s: State, e: Event)
    requires Inv(s) && s.maxWorkers == 0 && Enabled(s, e) && Settles(e)
    ensures Step(s, e).maxWorkers == 0
  {
    hide Core, WorkerMessage, TaggedMessage;
    if e.FromWorker? {
      StaysQuitWorker(s, e.w);
    } else if e.FromTagged? {
      StaysQuitTagged(s, e.k);
    }
  }

  lemma StaysQuitWorker(s: State, w: nat)
    requires Core(s) && s.maxWorkers == 0 && w < |s.workers| && s.workers[w].outbox != []
    ensures WorkerMessage(s, w).maxWorkers == 0
  {
    hide LedgerOk, TimersOk, CountersOk, CapacityOk, FifoOk, WorkerMessage, SettleJob;
    assert WorkerOk(s.workers[w], w in s.idle, true);
    if s.workers[w].outbox[0] == RAN {
      RanIs(s, w);
    } else {
      QuittingIs(s, w);
    }
  }

  lemma StaysQuitTagged(s: State, k: nat)
    requires Core(s) && s.maxWorkers == 0 && k < |s.tagged| && s.tagged[k].slot.outbox != []
    ensures TaggedMessage(s, k).maxWorkers == 0
  {
    hide LedgerOk, TimersOk, CountersOk, CapacityOk, FifoOk, TaggedMessage;
    assert TaggedOk(s.tagged[k], true);
    if s.tagged[k].slot.outbox[0] == RAN {
      TaggedRanFrame(s, k);
    } else {
      TaggedQuittingIs(s, k);
    }
  }

  /** Every thread has exited and been joined, and was sent QUIT exactly once. */
  predicate AllDone(s: State) {
    && (forall w | 0 <= w < |s.workers| :: !s.workers[w].joinable && s.workers[w].quits == 1 && s.workers[w].thread == Exited)
    && (forall k | 0 <= k < |s.tagged| ::
          !s.tagged[k].slot.joinable && s.tagged[k].slot.quits == 1 && s.tagged[k].slot.thread == Exited)
  }

  lemma JoinedIsDone(states: seq<State>, events: seq<Event>, j: nat)
    requires IsRun(states, events) && j < |states|
    ensures AllJoined(states[j]) <==> AllDone(states[j])
  {
    hide IsRun;
    ProtocolOverRuns(states, events, j);
    assert forall w | 0 <= w < |states[j].workers| :: JoinedProperly(states[j].workers[w]);
    assert forall k | 0 <= k < |states[j].tagged| :: JoinedProperly(states[j].tagged[k].slot);
  }

  /**
   After QUIT a run contains at most `TotalLeft` thread steps and worker messages. Whenever no more of them is
   possible, as the loop reads worker messages, every thread has been joined after exactly one QUIT, which is
   when the proxy quits; and it does quit after that many.
   */
  lemma ShutdownOverRuns(states: seq<State>, events: seq<Event>, i: nat, j: nat)
    requires IsRun(states, events) && |states| == |events| + 1 && i <= j < |states| && states[i].maxWorkers == 0
    ensures SettlingSteps(events, i, j) <= TotalLeft(states[i])
    ensures SettlingSteps(events, i, j) == TotalLeft(states[i]) ==> AllJoined(states[j])
    ensures AllJoined(states[j]) <==> AllDone(states[j])
    ensures (forall e | Settles(e) :: !Enabled(states[j].(phase := WorkerPhase), e)) ==> AllDone(states[j])
  {
    hide IsRun, Inv, Enabled, TotalLeft, SettlingSteps, Settles, AllJoined, AllDone;
    ShutdownUsesUp(states, events, i, j);
    RunInvariant(states, events, j);
    ShutdownDone(states[j]);
    JoinedIsDone(states, events, j);
    if !AllJoined(states[j]) { ShutdownNeverStuck(states[j]); }
  }
}
