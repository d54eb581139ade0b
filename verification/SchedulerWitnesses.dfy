/** Concrete runs that reach the states in which natural claims about the scheduler fail. */
module SchedulerWitnesses {
  import opened Basics
  import opened SchedulerModel
  import opened SchedulerRuns
  import opened SchedulerFrames
  import opened SchedulerRecords

  // ----- building runs -----

  lemma Begin(general: int, batchReserved: int, replyReserved: int, cats: seq<CategoryConfig>, tagged: nat)
    returns (states: seq<State>, events: seq<Event>)
    requires general > 0
    ensures IsRun(states, events) && |states| == 1
    ensures states[0] == Startup(general, batchReserved, replyReserved, cats, tagged)
  {
    states, events := [Startup(general, batchReserved, replyReserved, cats, tagged)], [];
  }

  // ----- a batch with a job on a tagged thread and a job on an ordinary worker -----

  const FIRST: JobRef := JobRef(0, 0)
  const SECOND: JobRef := JobRef(0, 1)

  function TwoJobs(outstanding: int): Batch {
    Batch([1, 0], false, 0, outstanding, None)
  }

  function Tag(thread: Thread, inbox: seq<Control>, outbox: seq<Report>, busy: bool): TaggedSlot {
    TaggedSlot(Slot(BatchRun(FIRST, false), true, thread, inbox, outbox, 0), busy, [])
  }

  function Job(thread: Thread, outbox: seq<Report>, run: RunInfo): Slot {
    Slot(run, true, thread, [], outbox, 0)
  }

  function At0(): State {
    State(1, 0, 0, 1, 1, [], [], [STARTING], [], [], [], [], 0, 0, map[], 0, map[], ControlPhase, [], [], map[], [])
  }

  function At1(): State {
    At0().(batches := map[0 := TwoJobs(2)], submitted := map[0 := TwoJobs(2)], nextBatch := 1,
           tagged := [STARTING.(queue := [FIRST])], batchJobs := [SECOND])
  }

  function At2(): State { At1().(phase := WorkerPhase) }
  function At3(): State { At1().(phase := TimerPhase) }

  /** Both jobs have been handed out by the drain. */
  function At4(): State {
    At1().(phase := IncomingPhase, tagged := [Tag(AwaitingStart, [START, RUN], [], true)],
           workers := [Job(Executing, [], BatchRun(SECOND, false))], batchJobs := [], batchActive := 1)
  }

  function At5(): State { At4().(tagged := [Tag(Waiting, [RUN], [], true)]) }
  function At6(): State { At4().(tagged := [Tag(Executing, [], [], true)]) }
  function At7(): State { At4().(tagged := [Tag(Waiting, [], [RAN], true)]) }
  function At8(): State { At7().(workers := [Job(Waiting, [RAN], BatchRun(SECOND, false))]) }
  function At9(): State { At8().(phase := ControlPhase) }

  /** Both jobs have run, and neither report has been read. */
  function At10(): State { At8().(phase := WorkerPhase) }

  lemma Start0()
    ensures Startup(1, 0, 0, [], 1) == At0()
  {
    assert Startup(1, 0, 0, [], 1).tagged == [STARTING];
  }

  function Owned1(): State { At0().(batches := map[0 := TwoJobs(2)], submitted := map[0 := TwoJobs(2)], nextBatch := 1) }
  function Pushed1(): State { Owned1().(tagged := [STARTING.(queue := [FIRST])]) }

  lemma Pushes1()
    ensures Shape(Owned1()) && PushJob(Owned1(), 1, FIRST) == Pushed1() && PushJob(Pushed1(), 0, SECOND) == At1()
  {
    assert [] + [FIRST] == [FIRST] && [] + [SECOND] == [SECOND];
    assert PushJob(Owned1(), 1, FIRST).tagged == Pushed1().tagged;
  }

  lemma Submitted1()
    ensures Shape(At0()) && Enabled(At0(), Submit([1, 0], false, 0)) && Step(At0(), Submit([1, 0], false, 0)) == At1()
  {
    assert NewBatch([1, 0], false, 0, None) == TwoJobs(2);
    assert Own(At0(), TwoJobs(2)) == Owned1();
    Pushes1();
    hide PushJob;
    assert PushJobs(At1(), 0, [1, 0], 2) == At1();
    assert PushJobs(Pushed1(), 0, [1, 0], 1) == At1();
  }

  /** After the tagged thread's job has been started. */
  function Drain4(): State { At3().(tagged := [Tag(AwaitingStart, [START, RUN], [], true)]) }

  lemma DrainedTagged4()
    ensures Shape(At3()) && Shape(Drain4()) && DrainTagged(At3(), 0) == Drain4()
  {
    var s := At3();
    assert [START] + [RUN] == [START, RUN] && [FIRST][1..] == [];
    assert StartTagged(s.tagged[0]) == Tag(AwaitingStart, [START, RUN], [], true);
    assert SetTagged(s, 0, StartTagged(s.tagged[0])).tagged == Drain4().tagged;
    assert DrainTagged(Drain4(), 1) == Drain4();
  }

  lemma DrainedJob4()
    ensures Shape(Drain4()) && JobQueue(Drain4(), false) != [] && StartBatchJob(Drain4(), false) == At4().(phase := TimerPhase)
  {
    assert [SECOND][1..] == [];
    var b := StartBatchJob(Drain4(), false);
    assert b.workers == [Job(Executing, [], BatchRun(SECOND, false))];
  }

  lemma Drained4()
    ensures Shape(At3()) && Step(At3(), NextPhase) == At4()
  {
    DrainedTagged4();
    DrainedJob4();
    hide DrainTagged, StartBatchJob, DrainJobs, DrainCommands;
    Drained4Rest(Drain4(), At4().(phase := TimerPhase));
  }

  lemma Drained4Rest(a: State, b: State)
    requires Shape(a) && JobQueue(a, false) == [SECOND] && a.idle == [] && a.workers == [] && a.maxWorkers == 1 && a.general == 1
    requires b == StartBatchJob(a, false) && b.batchJobs == [] && b.replyJobs == [] && b.pending == []
    ensures DrainCommands(DrainJobs(DrainJobs(a, false), true), 0) == b
  {
    hide StartBatchJob;
  }

  lemma Tagged5()
    ensures Shape(At4()) && Enabled(At4(), TaggedReceives(0)) && Step(At4(), TaggedReceives(0)) == At5()
  {
    assert [START, RUN][1..] == [RUN];
    assert Step(At4(), TaggedReceives(0)).tagged == At5().tagged;
  }

  lemma Tagged6()
    ensures Shape(At5()) && Enabled(At5(), TaggedReceives(0)) && Step(At5(), TaggedReceives(0)) == At6()
  {
    assert [RUN][1..] == [];
    assert Step(At5(), TaggedReceives(0)).tagged == At6().tagged;
  }

  lemma Tagged7()
    ensures Shape(At6()) && Enabled(At6(), TaggedFinishes(0)) && Step(At6(), TaggedFinishes(0)) == At7()
  {
    assert [] + [RAN] == [RAN];
    assert Step(At6(), TaggedFinishes(0)).tagged == At7().tagged;
  }

  lemma Worker8()
    ensures Shape(At7()) && Enabled(At7(), WorkerFinishes(0)) && Step(At7(), WorkerFinishes(0)) == At8()
  {
    assert [] + [RAN] == [RAN];
    assert Step(At7(), WorkerFinishes(0)).workers == At8().workers;
  }

  lemma Phases()
    ensures Shape(At1()) && Step(At1(), NextPhase) == At2() && Shape(At2()) && Step(At2(), NextPhase) == At3()
    ensures Shape(At8()) && Step(At8(), NextPhase) == At9() && Shape(At9()) && Step(At9(), NextPhase) == At10()
  {
  }

  lemma HandedOut() returns (states: seq<State>, events: seq<Event>)
    ensures IsRun(states, events) && states != [] && states[|states| - 1] == At4()
  {
    hide IsRun, Step, Enabled, Startup, Shape, At0, At1, At2, At3, At4, At5, At6, At7, At8, At9, At10;
    Start0();
    Submitted1();
    Phases();
    Drained4();
    Anywhere();
    states, events := Begin(1, 0, 0, [], 1);
    states, events := Extend(states, events, Submit([1, 0], false, 0), At1());
    states, events := Extend(states, events, NextPhase, At2());
    states, events := Extend(states, events, NextPhase, At3());
    states, events := Extend(states, events, NextPhase, At4());
  }

  /** A run in which both jobs have finished and both reports wait to be read. */
  lemma BothRan() returns (states: seq<State>, events: seq<Event>)
    ensures IsRun(states, events) && states != [] && states[|states| - 1] == At10()
  {
    hide IsRun, Step, Enabled, Startup, Shape, At0, At1, At2, At3, At4, At5, At6, At7, At8, At9, At10;
    Tagged5();
    Tagged6();
    Tagged7();
    Worker8();
    Phases();
    Anywhere();
    states, events := HandedOut();
    states, events := Extend(states, events, TaggedReceives(0), At5());
    states, events := Extend(states, events, TaggedReceives(0), At6());
    states, events := Extend(states, events, TaggedFinishes(0), At7());
    states, events := Extend(states, events, WorkerFinishes(0), At8());
    states, events := Extend(states, events, NextPhase, At9());
    states, events := Extend(states, events, NextPhase, At10());
  }

  lemma Anywhere()
    ensures forall s: State :: Enabled(s, NextPhase)
  {
  }

  // ----- either report can be the one that deletes the batch -----

  function TaggedFirst(): State {
    At10().(tagged := [Tag(Waiting, [], [], false)], batches := map[0 := TwoJobs(1)], finished := [FIRST])
  }

  function TaggedStale(): State {
    TaggedFirst().(workers := [Job(Waiting, [], ClearedRun)], idle := [0], batchActive := 0, batches := map[],
                   finished := [FIRST, SECOND])
  }

  function WorkerFirst(): State {
    At10().(workers := [Job(Waiting, [], BatchRun(SECOND, false))], idle := [0], batchActive := 0,
            batches := map[0 := TwoJobs(1)], finished := [SECOND])
  }

  function WorkerStale(): State {
    WorkerFirst().(tagged := [TaggedSlot(Slot(ClearedRun, true, Waiting, [], [], 0), false, [])], batches := map[],
                   finished := [SECOND, FIRST])
  }

  /** The first report of the two lowers the count, the second deletes the batch. */
  lemma FinishOne(s: State, ref: JobRef, n: int)
    requires Shape(s) && s.batches == map[0 := TwoJobs(n)] && (ref == FIRST || ref == SECOND) && (n == 1 || n == 2)
    ensures FinishBatchJob(s, ref, false) == (Log(s, ref).(batches := if n == 2 then map[0 := TwoJobs(1)] else map[]), n == 1)
  {
    assert map[0 := TwoJobs(n)][0 := TwoJobs(n - 1)] == map[0 := TwoJobs(n - 1)];
    assert map[0 := TwoJobs(n - 1)] - {0} == map[];
  }

  /** Handling a RAN, before QUIT, in terms of what settling the job leaves. */
  lemma WorkerRan(s: State, w: nat, m: State, f: State)
    requires Shape(s) && w < |s.workers| && s.workers[w].outbox == [RAN] && s.maxWorkers != 0
    requires m == s.(workers := s.workers[w := s.workers[w].(outbox := [])]) && Shape(m) && f == SettleJob(m, w)
    ensures WorkerMessage(s, w) == f.(idle := f.idle + [w])
  {
    hide SettleJob;
    assert [RAN][1..] == [];
  }

  lemma TaggedRan(s: State, k: nat, m: State, f: State)
    requires Shape(s) && k < |s.tagged| && s.tagged[k].slot.outbox == [RAN] && s.maxWorkers != 0
    requires m == s.(tagged := s.tagged[k := s.tagged[k].(slot := s.tagged[k].slot.(outbox := []))])
    requires Shape(m) && f == SettleTagged(m, k)
    ensures TaggedMessage(s, k) == f
  {
    hide SettleTagged;
    assert [RAN][1..] == [];
  }

  /** Settling one of the two jobs on the ordinary worker. */
  lemma SettleOne(m: State, n: int)
    requires Shape(m) && m.workers == [Job(Waiting, [], BatchRun(SECOND, false))] && m.batches == map[0 := TwoJobs(n)]
    requires n == 1 || n == 2
    ensures SettleJob(m, 0) ==
              m.(workers := [Job(Waiting, [], if n == 1 then ClearedRun else BatchRun(SECOND, false))],
                 batchActive := m.batchActive - 1, finished := m.finished + [SECOND],
                 batches := if n == 2 then map[0 := TwoJobs(1)] else map[])
  {
    FinishOne(m.(batchActive := m.batchActive - 1), SECOND, n);
    hide FinishBatchJob;
  }

  /** Settling one of the two jobs on the tagged thread. */
  lemma SettleOneTagged(m: State, n: int)
    requires Shape(m) && m.tagged == [Tag(Waiting, [], [], true)] && m.batches == map[0 := TwoJobs(n)]
    requires n == 1 || n == 2
    ensures SettleTagged(m, 0) ==
              m.(tagged := [if n == 1 then TaggedSlot(Slot(ClearedRun, true, Waiting, [], [], 0), false, [])
                            else Tag(Waiting, [], [], false)],
                 finished := m.finished + [FIRST], batches := if n == 2 then map[0 := TwoJobs(1)] else map[])
  {
    var a := SetTagged(m, 0, m.tagged[0].(busy := false));
    assert a.tagged == [Tag(Waiting, [], [], false)];
    FinishOne(a, FIRST, n);
    hide FinishBatchJob;
    assert SettleTagged(m, 0).tagged == [if n == 1 then TaggedSlot(Slot(ClearedRun, true, Waiting, [], [], 0), false, [])
                                         else Tag(Waiting, [], [], false)];
  }

  lemma TaggedReportsFirst()
    ensures Shape(At10()) && Enabled(At10(), FromTagged(0)) && Step(At10(), FromTagged(0)) == TaggedFirst()
  {
    hide TaggedMessage, SettleTagged;
    var s := At10();
    var m := s.(tagged := s.tagged[0 := s.tagged[0].(slot := s.tagged[0].slot.(outbox := []))]);
    assert m.tagged == [Tag(Waiting, [], [], true)] && [] + [FIRST] == [FIRST];
    SettleOneTagged(m, 2);
    TaggedRan(s, 0, m, SettleTagged(m, 0));
  }

  lemma WorkerReportsFirst()
    ensures Shape(At10()) && Enabled(At10(), FromWorker(0)) && Step(At10(), FromWorker(0)) == WorkerFirst()
  {
    hide WorkerMessage, SettleJob;
    var s := At10();
    var m := s.(workers := s.workers[0 := s.workers[0].(outbox := [])]);
    assert m.workers == [Job(Waiting, [], BatchRun(SECOND, false))] && [] + [SECOND] == [SECOND] && [] + [0] == [0];
    SettleOne(m, 2);
    WorkerRan(s, 0, m, SettleJob(m, 0));
  }

  lemma WorkerReportsSecond()
    ensures Shape(TaggedFirst()) && Enabled(TaggedFirst(), FromWorker(0)) && Step(TaggedFirst(), FromWorker(0)) == TaggedStale()
  {
    hide WorkerMessage, SettleJob;
    var s := TaggedFirst();
    var m := s.(workers := s.workers[0 := s.workers[0].(outbox := [])]);
    assert m.workers == [Job(Waiting, [], BatchRun(SECOND, false))] && [FIRST] + [SECOND] == [FIRST, SECOND] && [] + [0] == [0];
    SettleOne(m, 1);
    WorkerRan(s, 0, m, SettleJob(m, 0));
  }

  lemma TaggedReportsSecond()
    ensures Shape(WorkerFirst()) && Enabled(WorkerFirst(), FromTagged(0)) && Step(WorkerFirst(), FromTagged(0)) == WorkerStale()
  {
    hide TaggedMessage, SettleTagged;
    var s := WorkerFirst();
    var m := s.(tagged := s.tagged[0 := s.tagged[0].(slot := s.tagged[0].slot.(outbox := []))]);
    assert m.tagged == [Tag(Waiting, [], [], true)] && [SECOND] + [FIRST] == [SECOND, FIRST];
    SettleOneTagged(m, 1);
    TaggedRan(s, 0, m, SettleTagged(m, 0));
  }

  /** A run after which the batch is deleted and a tagged thread's record still names it. */
  lemma StaleTaggedRecord() returns (states: seq<State>, events: seq<Event>)
    ensures IsRun(states, events) && states != []
    ensures var s := states[|states| - 1];
            0 in s.submitted && 0 !in s.batches && Names(s, TaggedRec(0), 0) && !Holds(s, TaggedRec(0))
  {
    hide IsRun, Step, Enabled, Shape;
    TaggedReportsFirst();
    WorkerReportsSecond();
    states, events := BothRan();
    states, events := Extend(states, events, FromTagged(0), TaggedFirst());
    states, events := Extend(states, events, FromWorker(0), TaggedStale());
  }

  /** A run after which the batch is deleted and an idle worker's record still names it. */
  lemma StaleWorkerRecord() returns (states: seq<State>, events: seq<Event>)
    ensures IsRun(states, events) && states != []
    ensures var s := states[|states| - 1];
            0 in s.submitted && 0 !in s.batches && Names(s, Ordinary(0), 0) && 0 in s.idle
  {
    hide IsRun, Step, Enabled, Shape;
    WorkerReportsFirst();
    TaggedReportsSecond();
    states, events := BothRan();
    states, events := Extend(states, events, FromWorker(0), WorkerFirst());
    states, events := Extend(states, events, FromTagged(0), WorkerStale());
  }

  // ----- an admission after QUIT that needs more worker records than were reserved -----

  const TASK: Task := Task(0, false)

  function OneJob(): Batch {
    Batch([0], false, 0, 1, None)
  }

  function Quit0(): State {
    State(1, 0, 0, 2, 2, [], [], [], [Category(1, 0, -1, 0)], [], [], [], 0, 0, map[], 0, map[], ControlPhase,
          [[]], [[]], map[], [])
  }

  function Quit1(): State {
    Quit0().(batches := map[0 := OneJob()], submitted := map[0 := OneJob()], nextBatch := 1, batchJobs := [FIRST])
  }

  function Quit2(): State { Quit1().(phase := WorkerPhase) }
  function Quit3(): State { Quit1().(phase := TimerPhase) }

  function Quit4(): State {
    Quit1().(phase := IncomingPhase, batchJobs := [], batchActive := 1, workers := [Job(Executing, [], BatchRun(FIRST, false))])
  }

  function Quit5(): State {
    Quit4().(workers := [Job(Executing, [], BatchRun(FIRST, false)), Job(Executing, [], CommandRun(0, TASK))],
             cats := [Category(1, 1, -1, 0)], accepted := [[TASK]], started := [[TASK]])
  }

  function Quit6(): State {
    Quit5().(workers := [Job(Waiting, [RAN], BatchRun(FIRST, false)), Job(Executing, [], CommandRun(0, TASK))])
  }

  function Quit7(): State {
    Quit5().(workers := [Job(Waiting, [RAN], BatchRun(FIRST, false)), Job(Waiting, [RAN], CommandRun(0, TASK))])
  }

  function Quit8(): State { Quit7().(phase := ControlPhase) }
  function Quit9(): State { Quit7().(phase := WorkerPhase) }

  function Quit10(): State {
    Quit9().(workers := [Job(Waiting, [], ClearedRun), Job(Waiting, [RAN], CommandRun(0, TASK))], idle := [0],
             batchActive := 0, batches := map[], finished := [FIRST])
  }

  function Quit11(): State {
    Quit10().(workers := [Job(Waiting, [], ClearedRun), Job(Waiting, [], CommandRun(0, TASK))], idle := [0, 1],
              cats := [Category(1, 0, -1, 0)])
  }

  function Quit12(): State { Quit11().(phase := TimerPhase) }
  function Quit13(): State { Quit11().(phase := IncomingPhase) }
  function Quit14(): State { Quit11().(phase := ControlPhase) }

  lemma QuitStart()
    ensures Startup(1, 0, 0, [CategoryConfig(1, -1)], 0) == Quit0()
  {
    var cats := [CategoryConfig(1, -1)];
    assert cats[..0] == [];
    assert Total(cats) == 1;
    var s := Startup(1, 0, 0, cats, 0);
    assert s.tagged == [] && s.cats == [Category(1, 0, -1, 0)] && s.accepted == [[]] && s.started == [[]];
  }

  lemma QuitSubmit()
    ensures Shape(Quit0()) && Enabled(Quit0(), Submit([0], false, 0)) && Step(Quit0(), Submit([0], false, 0)) == Quit1()
  {
    assert [] + [FIRST] == [FIRST];
    assert PushJobs(Quit1(), 0, [0], 1) == Quit1();
  }

  lemma QuitDrain()
    ensures Shape(Quit3()) && Step(Quit3(), NextPhase) == Quit4()
  {
    assert [FIRST][1..] == [];
    var s, t := Quit3(), Quit4().(phase := TimerPhase);
    assert DrainTagged(s, 0) == s;
    var b := StartBatchJob(s, false);
    assert b.workers == t.workers;
    assert b == t;
    hide StartBatchJob;
    assert DrainJobs(t, false) == t && DrainJobs(s, false) == t && DrainJobs(t, true) == t && DrainCommands(t, 0) == t;
  }

  lemma QuitCommand()
    ensures Shape(Quit4()) && Enabled(Quit4(), Command(0, TASK)) && Step(Quit4(), Command(0, TASK)) == Quit5()
  {
    var t := Step(Quit4(), Command(0, TASK));
    assert [] + [TASK] == [TASK];
    assert t.workers == Quit5().workers && t.cats == Quit5().cats && t.accepted == [[TASK]] && t.started == [[TASK]];
  }

  lemma QuitFinish()
    ensures Shape(Quit5()) && Enabled(Quit5(), WorkerFinishes(0)) && Step(Quit5(), WorkerFinishes(0)) == Quit6()
    ensures Shape(Quit6()) && Enabled(Quit6(), WorkerFinishes(1)) && Step(Quit6(), WorkerFinishes(1)) == Quit7()
  {
    assert [] + [RAN] == [RAN];
    assert Step(Quit5(), WorkerFinishes(0)).workers == Quit6().workers;
    assert Step(Quit6(), WorkerFinishes(1)).workers == Quit7().workers;
  }

  lemma QuitSettleJob(m: State)
    requires m == Quit9().(workers := [Job(Waiting, [], BatchRun(FIRST, false)), Job(Waiting, [RAN], CommandRun(0, TASK))])
    ensures Shape(m) && SettleJob(m, 0) == Quit10().(idle := [])
  {
    assert [] + [FIRST] == [FIRST];
    assert map[0 := OneJob()][0 := OneJob().(outstanding := 0)] - {0} == map[];
    assert SettleJob(m, 0).workers == Quit10().workers;
  }

  lemma QuitSettleCommand(m: State)
    requires m == Quit10().(workers := Quit11().workers)
    ensures Shape(m) && SettleJob(m, 1) == Quit11().(idle := [0])
  {
    assert SettleJob(m, 1).cats == Quit11().cats;
  }

  lemma QuitFirstReport()
    ensures Shape(Quit9()) && Enabled(Quit9(), FromWorker(0)) && Step(Quit9(), FromWorker(0)) == Quit10()
  {
    hide WorkerMessage, SettleJob;
    var s := Quit9();
    var m := s.(workers := s.workers[0 := s.workers[0].(outbox := [])]);
    assert m.workers == [Job(Waiting, [], BatchRun(FIRST, false)), Job(Waiting, [RAN], CommandRun(0, TASK))] && [] + [0] == [0];
    QuitSettleJob(m);
    WorkerRan(s, 0, m, SettleJob(m, 0));
  }

  lemma QuitSecondReport()
    ensures Shape(Quit10()) && Enabled(Quit10(), FromWorker(1)) && Step(Quit10(), FromWorker(1)) == Quit11()
  {
    hide WorkerMessage, SettleJob;
    var s := Quit10();
    var m := s.(workers := s.workers[1 := s.workers[1].(outbox := [])]);
    assert m.workers == Quit11().workers && [0] + [1] == [0, 1];
    QuitSettleCommand(m);
    WorkerRan(s, 1, m, SettleJob(m, 1));
  }

  lemma QuitIdleDrain()
    ensures Shape(Quit12()) && Step(Quit12(), NextPhase) == Quit13()
  {
    var s := Quit12();
    assert DrainTagged(s, 0) == s && DrainJobs(s, false) == s && DrainJobs(s, true) == s && DrainCommands(s, 0) == s;
  }

  lemma QuitPhases()
    ensures Shape(Quit1()) && Step(Quit1(), NextPhase) == Quit2() && Shape(Quit2()) && Step(Quit2(), NextPhase) == Quit3()
    ensures Shape(Quit7()) && Step(Quit7(), NextPhase) == Quit8() && Shape(Quit8()) && Step(Quit8(), NextPhase) == Quit9()
    ensures Shape(Quit11()) && Step(Quit11(), NextPhase) == Quit12() && Shape(Quit13()) && Step(Quit13(), NextPhase) == Quit14()
  {
    assert Shape(Quit1()) && Shape(Quit7()) && Shape(Quit11());
    hide Shape, ProcessQueue;
    Onward(Quit1());
    Onward(Quit2());
    Onward(Quit7());
    Onward(Quit8());
    Onward(Quit11());
    Onward(Quit13());
  }

  /** Without a drain only the phase changes. */
  lemma Onward(s: State)
    requires s.phase != TimerPhase
    ensures var p := if s.phase == ControlPhase then WorkerPhase else if s.phase == WorkerPhase then TimerPhase else ControlPhase;
            Shape(s.(phase := p)) == Shape(s) && (Shape(s) ==> Step(s, NextPhase) == s.(phase := p))
  {
  }

  lemma QuitWorking() returns (states: seq<State>, events: seq<Event>)
    ensures IsRun(states, events) && states != [] && states[|states| - 1] == Quit7()
  {
    hide IsRun, Step, Enabled, Startup, Shape, Quit0, Quit1, Quit2, Quit3, Quit4, Quit5, Quit6, Quit7, Quit8, Quit9, Quit11, Quit12, Quit13, Quit14;
    QuitStart();
    QuitSubmit();
    QuitPhases();
    QuitDrain();
    QuitCommand();
    QuitFinish();
    Anywhere();
    states, events := Begin(1, 0, 0, [CategoryConfig(1, -1)], 0);
    states, events := Extend(states, events, Submit([0], false, 0), Quit1());
    states, events := Extend(states, events, NextPhase, Quit2());
    states, events := Extend(states, events, NextPhase, Quit3());
    states, events := Extend(states, events, NextPhase, Quit4());
    states, events := Extend(states, events, Command(0, TASK), Quit5());
    states, events := Extend(states, events, WorkerFinishes(0), Quit6());
    states, events := Extend(states, events, WorkerFinishes(1), Quit7());
  }

  lemma QuitIdleAll() returns (states: seq<State>, events: seq<Event>)
    ensures IsRun(states, events) && states != [] && states[|states| - 1] == Quit14()
  {
    hide IsRun, Step, Enabled, Startup, Shape, Quit7, Quit8, Quit9, Quit10, Quit11, Quit12, Quit13, Quit14;
    QuitPhases();
    QuitFirstReport();
    QuitSecondReport();
    QuitIdleDrain();
    Anywhere();
    states, events := QuitWorking();
    states, events := Extend(states, events, NextPhase, Quit8());
    states, events := Extend(states, events, NextPhase, Quit9());
    states, events := Extend(states, events, FromWorker(0), Quit10());
    states, events := Extend(states, events, FromWorker(1), Quit11());
    states, events := Extend(states, events, NextPhase, Quit12());
    states, events := Extend(states, events, NextPhase, Quit13());
    states, events := Extend(states, events, NextPhase, Quit14());
  }

  /** A run to QUIT after which one more command needs a third worker record where two were reserved. */
  lemma AdmissionOverflows() returns (states: seq<State>, events: seq<Event>)
    ensures IsRun(states, events) && states != []
    ensures var s := states[|states| - 1];
            && s.maxWorkers == 0 && |s.cats| == 1 && |s.workers| == s.capacity == 2 && Shape(s)
            && |Admit(s, 0, Task(1, false)).workers| == 3
  {
    QuitSends();
    hide IsRun, Step, Enabled, Shape, Admit, Quit14;
    states, events := QuitIdleAll();
    states, events := Extend(states, events, QuitAll, Step(Quit14(), QuitAll));
  }

  lemma QuitSends()
    ensures Shape(Quit14()) && Enabled(Quit14(), QuitAll)
    ensures var t := Step(Quit14(), QuitAll);
            && t.maxWorkers == 0 && |t.cats| == 1 && |t.workers| == t.capacity == 2 && Shape(t)
            && |Admit(t, 0, Task(1, false)).workers| == 3
  {
    var s := Quit14();
    var t := Step(s, QuitAll);
    assert NoDup(s.idle);
    QuitEffect(s);
    hide Quit;
    assert |t.workers| == 2 && t.idle == [] && t.cats == s.cats;
    OneRecordMore(t, Task(1, false));
  }

  lemma OneRecordMore(t: State, task: Task)
    requires Shape(t) && t.idle == [] && t.cats == [Category(1, 0, -1, 0)]
    ensures |Admit(t, 0, task).workers| == |t.workers| + 1
  {
  }
}
