/**
 Whole runs of the proxy loop: every interleaving of control messages, worker messages, timers, the
 queue drain, incoming commands and the threads' own steps, in the loop's phase order.
 */
module SchedulerRuns {
  import opened Basics
  import opened SchedulerModel
  import opened SchedulerViews
  import opened SchedulerLedger
  import opened SchedulerInvariant
  import opened SchedulerQueues
  import opened SchedulerSubmits
  import opened SchedulerMessages

  datatype Event =
    | Inject(cat: nat, task: Task)
    | Submit(threads: seq<int>, complete: bool, completeIn: int)
    | ReplyJob
    | NewTimer(id: nat, squelch: bool, thread: int)
    | QuitAll
    | FromWorker(w: nat)
    | FromTagged(k: nat)
    | Fire(id: nat)
    | Command(cat: nat, task: Task)
    | WorkerReceives(w: nat)
    | WorkerFinishes(w: nat)
    | TaggedReceives(k: nat)
    | TaggedFinishes(k: nat)
    | NextPhase

  /** Which events may happen: commands are admitted before QUIT only, each kind in its own phase. */
  predicate Enabled(s: State, e: Event) {
    match e
    case Inject(cat, _) => s.phase == ControlPhase && s.maxWorkers != 0 && cat < |s.cats|
    case Submit(threads, _, completeIn) =>
      s.phase == ControlPhase && ValidThreads(s, threads) && IN_PROXY <= completeIn <= |s.tagged|
    case ReplyJob => s.phase == ControlPhase || s.phase == IncomingPhase
    case NewTimer(id, _, thread) => s.phase == ControlPhase && id !in s.timers && IN_PROXY <= thread <= |s.tagged|
    case QuitAll => s.phase == ControlPhase && s.maxWorkers != 0
    case FromWorker(w) => s.phase == WorkerPhase && w < |s.workers| && s.workers[w].outbox != []
    case FromTagged(k) => s.phase == WorkerPhase && k < |s.tagged| && s.tagged[k].slot.outbox != []
    case Fire(id) => s.phase == TimerPhase && (id in s.timers ==> IN_PROXY <= s.timers[id].thread <= |s.tagged|)
    case Command(cat, _) => s.phase == IncomingPhase && s.maxWorkers != 0 && cat < |s.cats|
    case WorkerReceives(w) => w < |s.workers| && CanReceive(s.workers[w])
    case WorkerFinishes(w) => w < |s.workers| && s.workers[w].thread == Executing
    case TaggedReceives(k) => k < |s.tagged| && CanReceive(s.tagged[k].slot)
    case TaggedFinishes(k) => k < |s.tagged| && s.tagged[k].slot.thread == Executing
    case NextPhase => true
  }

  function Advance(s: State): (t: State)
    requires Shape(s)
    ensures Shape(t)
  {
    match s.phase
    case ControlPhase => s.(phase := WorkerPhase)
    case WorkerPhase => s.(phase := TimerPhase)
    case TimerPhase => ProcessQueue(s).(phase := IncomingPhase)
    case IncomingPhase => s.(phase := ControlPhase)
  }

  function Step(s: State, e: Event): (t: State)
    requires Shape(s) && Enabled(s, e)
    ensures Shape(t)
  {
    match e
    case Inject(cat, task) => Admit(s, cat, task)
    case Submit(threads, complete, completeIn) => SubmitBatch(s, threads, complete, completeIn)
    case ReplyJob => ScheduleReply(s)
    case NewTimer(id, squelch, thread) => AddTimer(s, id, squelch, thread)
    case QuitAll => Quit(s)
    case FromWorker(w) => WorkerMessage(s, w)
    case FromTagged(k) => TaggedMessage(s, k)
    case Fire(id) => FireTimer(s, id)
    case Command(cat, task) => Admit(s, cat, task)
    case WorkerReceives(w) => SetWorker(s, w, Receive(s.workers[w]))
    case WorkerFinishes(w) => SetWorker(s, w, Finish(s.workers[w]))
    case TaggedReceives(k) => SetTagged(s, k, s.tagged[k].(slot := Receive(s.tagged[k].slot)))
    case TaggedFinishes(k) => SetTagged(s, k, s.tagged[k].(slot := Finish(s.tagged[k].slot)))
    case NextPhase => Advance(s)
  }

  // ----- startup -----

  /** Reservations and queue limit of a category, as registered before startup. */
  datatype CategoryConfig = CategoryConfig(reserved: nat, maxQueue: int)

  function Total(cats: seq<CategoryConfig>): nat {
    if cats == [] then 0 else Total(cats[..|cats| - 1]) + cats[|cats| - 1].reserved
  }

  const STARTING: TaggedSlot := TaggedSlot(Slot(Unloaded, true, AwaitingStart, [START], [], 0), false, [])

  /** The state as the loop is entered; a negative reservation stands for the default. */
  function Startup(general: int, batchReserved: int, replyReserved: int, cats: seq<CategoryConfig>, tagged: nat): State {
    var b := if batchReserved < 0 then (general + 1) / 2 else batchReserved;
    var r := if replyReserved < 0 then (general + 7) / 8 else replyReserved;
    var most := general + b + r + Total(cats);
    State(general, b, r, most, most, [], [], seq(tagged, _ => STARTING),
          seq(|cats|, i requires 0 <= i < |cats| => Category(cats[i].reserved, 0, cats[i].maxQueue, 0)),
          [], [], [], 0, 0, map[], 0, map[], ControlPhase,
          seq(|cats|, _ => []), seq(|cats|, _ => []), map[], [])
  }

  lemma {:induction false} StartupLoads(q: seq<Load>, cats: seq<CategoryConfig>)
    requires |q| == |cats| + 2
    requires q[0].active == 0 && q[1].active == 0 && q[0].reserved >= 0 && q[1].reserved >= 0
    requires forall c | 0 <= c < |cats| :: q[c + 2] == Load(0, cats[c].reserved)
    ensures SumActive(q) == 0 && SumExcess(q) == 0
    ensures SumReserved(q) == q[0].reserved + q[1].reserved + Total(cats)
    decreases |cats|
  {
    var n := |q| - 1;
    if cats == [] {
      var p := q[..1];
      assert p[..|p| - 1] == [] && p[0] == q[0] && q[..|q| - 1] == p;
      assert SumReserved(p) == SumReserved([]) + p[0].reserved;
      assert SumActive(p) == SumActive([]) + p[0].active;
      assert SumExcess(p) == SumExcess([]) + Excess(p[0]);
    } else {
      var last := |cats| - 1;
      assert n == last + 2 && q[last + 2] == Load(0, cats[last].reserved);
      StartupLoads(q[..n], cats[..|cats| - 1]);
    }
  }

  lemma StartupInv(general: int, batchReserved: int, replyReserved: int, cats: seq<CategoryConfig>, tagged: nat)
    requires general > 0
    ensures Inv(Startup(general, batchReserved, replyReserved, cats, tagged))
  {
    var s := Startup(general, batchReserved, replyReserved, cats, tagged);
    hide Total;
    StartupLoads(Loads(s), cats);
    assert Held(s) == [];
    StartupRefs(s.tagged);
    assert Refs(s) == multiset{};
    forall c: nat | c < |s.cats|
      ensures FifoAt(s, c)
    {
    }
    forall k: nat | k < |s.tagged|
      ensures TaggedOk(s.tagged[k], false)
    {
      assert s.tagged[k] == STARTING;
    }
  }

  lemma {:induction false} StartupRefs(q: seq<TaggedSlot>)
    requires forall k | 0 <= k < |q| :: q[k] == STARTING
    ensures TaggedRefs(q) == multiset{}
    decreases |q|
  {
    if q != [] {
      StartupRefs(q[..|q| - 1]);
      assert TaggedBags(q)[..|q| - 1] == TaggedBags(q[..|q| - 1]);
    }
  }

  // ----- QUIT -----

  lemma {:induction false} QuitIdleEffect(s: State, i: nat)
    requires Shape(s) && NoDup(s.idle) && i <= |s.idle|
    ensures var t := QuitIdle(s, i);
            && t == s.(workers := t.workers) && |t.workers| == |s.workers|
            && (forall j: nat | j < |s.workers| ::
                  t.workers[j] == if j in s.idle[i..] then SendQuit(s.workers[j]) else s.workers[j])
    decreases |s.idle| - i
  {
    if i < |s.idle| {
      var u := SetWorker(s, s.idle[i], SendQuit(s.workers[s.idle[i]]));
      QuitIdleEffect(u, i + 1);
      assert s.idle[i..] == [s.idle[i]] + s.idle[i + 1..];
      assert s.idle[i] !in s.idle[i + 1..];
    }
  }

  function QuitTaggedSlot(tw: TaggedSlot): TaggedSlot {
    if tw.busy then tw else tw.(slot := SendQuit(tw.slot))
  }

  lemma {:induction false} QuitTaggedEffect(s: State, k: nat)
    requires Shape(s) && k <= |s.tagged|
    ensures var t := QuitTagged(s, k);
            && t == s.(tagged := t.tagged) && |t.tagged| == |s.tagged|
            && (forall j: nat | j < |s.tagged| :: t.tagged[j] == if j >= k then QuitTaggedSlot(s.tagged[j]) else s.tagged[j])
    decreases |s.tagged| - k
  {
    if k < |s.tagged| {
      var tw := s.tagged[k];
      var u := if tw.busy then s else SetTagged(s, k, tw.(slot := SendQuit(tw.slot)));
      QuitTaggedEffect(u, k + 1);
    }
  }

  /** QUIT goes once to every idle worker and to every tagged worker that is not busy, and to nobody else. */
  lemma QuitEffect(s: State)
    requires Shape(s) && NoDup(s.idle)
    ensures var t := Quit(s);
            && t == s.(maxWorkers := 0, idle := [], workers := t.workers, tagged := t.tagged)
            && |t.workers| == |s.workers| && |t.tagged| == |s.tagged|
            && (forall j: nat | j < |s.workers| ::
                  t.workers[j] == if j in s.idle then SendQuit(s.workers[j]) else s.workers[j])
            && (forall j: nat | j < |s.tagged| :: t.tagged[j] == QuitTaggedSlot(s.tagged[j]))
  {
    var a := s.(maxWorkers := 0);
    QuitIdleEffect(a, 0);
    assert a.idle[0..] == s.idle;
    QuitTaggedEffect(QuitIdle(a, 0).(idle := []), 0);
  }

  lemma QuitKeepsCore(s: State)
    requires Core(s) && s.maxWorkers != 0
    ensures Core(Quit(s))
  {
    hide Quit, LedgerOk, TimersOk, Refs;
    var t := Quit(s);
    QuitEffect(s);
    assert ProtocolOk(t) by { QuitProtocol(s, t); }
    QuitHeld(s, t);
    assert Loads(t) == Loads(s);
    assert Refs(t) == Refs(s) by { QuitRefs(s, t); }
    forall c: nat | c < |t.cats|
      ensures FifoAt(t, c)
    {
      assert FifoAt(s, c);
    }
  }

  predicate QuitSent(s: State, t: State) {
    && t == s.(maxWorkers := 0, idle := [], workers := t.workers, tagged := t.tagged)
    && |t.workers| == |s.workers| && |t.tagged| == |s.tagged|
    && (forall j: nat | j < |s.workers| :: t.workers[j] == if j in s.idle then SendQuit(s.workers[j]) else s.workers[j])
    && (forall j: nat | j < |s.tagged| :: t.tagged[j] == QuitTaggedSlot(s.tagged[j]))
  }

  lemma QuitProtocol(s: State, t: State)
    requires ProtocolOk(s) && s.maxWorkers != 0 && QuitSent(s, t)
    ensures ProtocolOk(t)
  {
    forall i: nat | i < |t.workers|
      ensures WorkerOk(t.workers[i], false, true)
    {
      assert WorkerOk(s.workers[i], i in s.idle, false);
    }
    forall k: nat | k < |t.tagged|
      ensures TaggedOk(t.tagged[k], true)
    {
      assert TaggedOk(s.tagged[k], false);
    }
  }

  lemma QuitHeld(s: State, t: State)
    requires QuitSent(s, t)
    ensures Held(t) == Held(s)
  {
    forall i: nat | i < |s.workers|
      ensures HeldBy(t, i) == HeldBy(s, i)
    {
    }
  }

  lemma QuitRefs(s: State, t: State)
    requires QuitSent(s, t)
    ensures Refs(t) == Refs(s)
  {
    QuitHeld(s, t);
    assert TaggedBags(t.tagged) == TaggedBags(s.tagged) by {
      forall k: nat | k < |s.tagged|
        ensures TaggedRefsOf(t.tagged[k]) == TaggedRefsOf(s.tagged[k])
      {
      }
    }
  }

  // ----- every step keeps the invariant -----

  lemma PhaseBeside(s: State, p: Phase)
    requires Core(s)
    ensures Core(s.(phase := p))
  {
    hide LedgerOk, TimersOk, Refs;
    var t := s.(phase := p);
    SameHeld(s, t);
    RefsParts(s, t);
    assert Loads(t) == Loads(s);
    forall c: nat | c < |t.cats|
      ensures FifoAt(t, c)
    {
      assert FifoAt(s, c);
    }
  }

  lemma AdvanceKeepsInv(s: State)
    requires Inv(s)
    ensures Inv(Advance(s))
    ensures s.phase == TimerPhase && s.maxWorkers != 0 ==> AllSettled(Advance(s))
  {
    hide Core, ProcessQueue;
    match s.phase
    case TimerPhase =>
      if s.maxWorkers == 0 {
        QuittingDrain(s);
        PhaseBeside(s, IncomingPhase);
      } else {
        DrainIsWorkConserving(s);
        PhaseBeside(ProcessQueue(s), IncomingPhase);
      }
    case ControlPhase => PhaseBeside(s, WorkerPhase);
    case WorkerPhase => PhaseBeside(s, TimerPhase);
    case IncomingPhase => PhaseBeside(s, ControlPhase);
  }

  lemma QuittingDrain(s: State)
    requires Shape(s) && s.maxWorkers == 0
    ensures ProcessQueue(s) == s
  {
  }

  lemma SamePhase(s: State, e: Event)
    requires Core(s) && Enabled(s, e) && (e.FromWorker? || e.FromTagged?)
    ensures Step(s, e).phase == s.phase
  {
    hide FinishBatchJob, LedgerOk, TimersOk, CountersOk, CapacityOk, FifoOk;
    match e
    case FromWorker(w) =>
      if s.workers[w].outbox[0] == RAN {
        RanIs(s, w);
        SettleFrame(SetWorker(s, w, s.workers[w].(outbox := [])), w);
      }
    case FromTagged(k) =>
      if s.tagged[k].slot.outbox[0] == RAN {
        TaggedRanFrame(s, k);
      }
  }

  /** The induction step: any enabled event keeps the invariant. */
  lemma StepKeepsInv(s: State, e: Event)
    requires Inv(s) && Enabled(s, e)
    ensures Inv(Step(s, e))
  {
    hide Core, Admit, SubmitBatch, ScheduleReply, AddTimer, FireTimer, WorkerMessage, TaggedMessage, Quit, Advance;
    match e
    case Inject(cat, task) => AdmitKeepsCore(s, cat, task);
    case Submit(threads, complete, completeIn) => SubmitBatchKeepsCore(s, threads, complete, completeIn);
    case ReplyJob => ScheduleReplyKeepsCore(s);
    case NewTimer(id, squelch, thread) => AddTimerKeepsCore(s, id, squelch, thread);
    case QuitAll =>
      QuitKeepsCore(s);
      QuitIsQuitting(s);
    case FromWorker(w) =>
      WorkerMessageKeepsCore(s, w);
      SamePhase(s, e);
    case FromTagged(k) =>
      TaggedMessageKeepsCore(s, k);
      SamePhase(s, e);
    case Fire(id) => FireTimerKeepsCore(s, id);
    case Command(cat, task) => AdmitKeepsCore(s, cat, task);
    case WorkerReceives(w) => WorkerReceiveKeepsCore(s, w);
    case WorkerFinishes(w) => WorkerFinishKeepsCore(s, w);
    case TaggedReceives(k) => TaggedReceiveKeepsCore(s, k);
    case TaggedFinishes(k) => TaggedFinishKeepsCore(s, k);
    case NextPhase => AdvanceKeepsInv(s);
  }

  lemma QuitIsQuitting(s: State)
    requires Core(s)
    ensures Quit(s).maxWorkers == 0
  {
    QuitEffect(s);
  }

  // ----- runs -----

  ghost predicate IsStart(s: State) {
    exists general, batchReserved, replyReserved, cats, tagged ::
      general > 0 && s == Startup(general, batchReserved, replyReserved, cats, tagged)
  }

  /** `states` is a run from startup driven by `events`. */
  ghost predicate IsRun(states: seq<State>, events: seq<Event>) {
    && |states| == |events| + 1
    && IsStart(states[0])
    && (forall i | 0 <= i < |events| ::
          Shape(states[i]) && Enabled(states[i], events[i]) && states[i + 1] == Step(states[i], events[i]))
  }

  /** Every state of every run satisfies the invariant. */
  lemma {:induction false} RunInvariant(states: seq<State>, events: seq<Event>, i: nat)
    requires IsRun(states, events) && i < |states|
    ensures Inv(states[i])
    decreases i
  {
    hide Inv, Step, Enabled, Startup;
    if i == 0 {
      var general, batchReserved, replyReserved, cats, tagged :|
        general > 0 && states[0] == Startup(general, batchReserved, replyReserved, cats, tagged);
      StartupInv(general, batchReserved, replyReserved, cats, tagged);
    } else {
      RunInvariant(states, events, i - 1);
      StepKeepsInv(states[i - 1], events[i - 1]);
    }
  }

  /** A run goes on with any event that can happen. */
  lemma Extend(states: seq<State>, events: seq<Event>, e: Event, t: State) returns (longer: seq<State>, more: seq<Event>)
    requires IsRun(states, events) && states != [] && Shape(states[|states| - 1]) && Enabled(states[|states| - 1], e)
    requires t == Step(states[|states| - 1], e)
    ensures longer == states + [t] && more == events + [e] && IsRun(longer, more)
  {
    longer, more := states + [t], events + [e];
    hide Step, Enabled, Shape, IsStart;
    forall i | 0 <= i < |more|
      ensures Shape(longer[i]) && Enabled(longer[i], more[i]) && longer[i + 1] == Step(longer[i], more[i])
    {
      assert i < |events| ==> longer[i] == states[i] && longer[i + 1] == states[i + 1] && more[i] == events[i];
    }
  }

  lemma RunStep(states: seq<State>, events: seq<Event>, i: nat)
    requires IsRun(states, events) && i < |events|
    ensures |states| == |events| + 1 && Inv(states[i]) && Enabled(states[i], events[i])
    ensures states[i + 1] == Step(states[i], events[i])
  {
    RunInvariant(states, events, i);
    hide Inv, Step, Enabled, IsStart;
  }
}
