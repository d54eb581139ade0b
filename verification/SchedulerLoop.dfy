/** The proxy loop: passes over control messages, worker messages, timers, the queues and incoming messages. */
module SchedulerLoop {
  import opened Basics
  import opened SchedulerModel
  import opened SchedulerRuns
  import opened SchedulerShutdown
  import opened SchedulerProxy

  /** `es` can happen one after another from `s`. */
  ghost predicate Possible(s: State, es: seq<Event>)
    requires Shape(s)
    decreases |es|
  {
    es == [] || (Enabled(s, es[0]) && Possible(Step(s, es[0]), es[1..]))
  }

  ghost function After(s: State, es: seq<Event>): (t: State)
    requires Shape(s) && Possible(s, es)
    ensures Shape(t)
    decreases |es|
  {
    if es == [] then s else After(Step(s, es[0]), es[1..])
  }

  lemma {:induction false} AfterBoth(s: State, first: seq<Event>, second: seq<Event>)
    requires Shape(s)
    ensures Possible(s, first + second) <==> Possible(s, first) && Possible(After(s, first), second)
    ensures Possible(s, first + second) ==> After(s, first + second) == After(After(s, first), second)
    decreases |first|
  {
    hide Shape, Enabled, Step;
    if first == [] {
      assert first + second == second;
    } else {
      assert (first + second)[0] == first[0] && (first + second)[1..] == first[1..] + second;
      if Enabled(s, first[0]) { AfterBoth(Step(s, first[0]), first[1..], second); }
    }
  }

  lemma AfterOne(s: State, e: Event)
    requires Shape(s)
    ensures Possible(s, [e]) <==> Enabled(s, e)
    ensures Possible(s, [e]) ==> After(s, [e]) == Step(s, e)
  {
    hide Shape, Enabled, Step;
    assert [e][1..] == [];
  }

  /** Some run from startup ends in `s`. */
  ghost predicate Reachable(s: State) {
    exists states, events :: IsRun(states, events) && states != [] && states[|states| - 1] == s
  }

  lemma StartReachable(general: int, batchReserved: int, replyReserved: int, configs: seq<CategoryConfig>, tagged: nat)
    requires general > 0
    ensures Reachable(Startup(general, batchReserved, replyReserved, configs, tagged))
  {
    var states := [Startup(general, batchReserved, replyReserved, configs, tagged)];
    assert IsRun(states, []) && states[|states| - 1] == states[0];
  }

  lemma StepReachable(s: State, e: Event)
    requires Reachable(s) && Shape(s) && Enabled(s, e)
    ensures Reachable(Step(s, e))
  {
    hide IsRun, Step, Shape, Enabled;
    var states, events :| IsRun(states, events) && states != [] && states[|states| - 1] == s;
    var longer, more := Extend(states, events, e, Step(s, e));
    assert longer[|longer| - 1] == Step(s, e);
  }

  lemma {:induction false} AfterReachable(s: State, es: seq<Event>)
    requires Reachable(s) && Shape(s) && Possible(s, es)
    ensures Reachable(After(s, es))
    decreases |es|
  {
    hide Reachable, Step, Shape, Enabled;
    if es != [] {
      StepReachable(s, es[0]);
      AfterReachable(Step(s, es[0]), es[1..]);
    }
  }

  /** What one pass of the loop does, in order; the third change of phase drains the queues. */
  function Pass(control: seq<Event>, worker: seq<Event>, fired: seq<Event>, incoming: seq<Event>): seq<Event> {
    control + [NextPhase] + worker + [NextPhase] + fired + [NextPhase] + incoming + [NextPhase]
  }

  /** Only the loop itself moves on to its next phase. */
  lemma PhaseKept(s: State, e: Event)
    requires Shape(s) && Enabled(s, e) && !e.NextPhase?
    ensures Step(s, e).phase == s.phase
  {
    hide Shape, SubmitBatch, Quit, WorkerMessage, TaggedMessage;
    match e
    case Submit(threads, complete, completeIn) => SubmitKeepsPhase(s, threads, complete, completeIn);
    case QuitAll => QuitKeepsPhase(s);
    case FromWorker(w) => WorkerMessageKeepsPhase(s, w);
    case FromTagged(k) => TaggedMessageKeepsPhase(s, k);
    case _ =>
  }

  lemma SubmitKeepsPhase(s: State, threads: seq<int>, complete: bool, completeIn: int)
    requires Shape(s) && ValidThreads(s, threads)
    ensures SubmitBatch(s, threads, complete, completeIn).phase == s.phase
  {
    PushKeepsPhase(Own(s, NewBatch(threads, complete, completeIn, None)), s.nextBatch, threads, 0);
  }

  lemma QuitKeepsPhase(s: State)
    requires Shape(s)
    ensures Quit(s).phase == s.phase
  {
    var m := s.(maxWorkers := 0);
    QuitIdleKeepsPhase(m, 0);
    QuitTaggedKeepsPhase(QuitIdle(m, 0).(idle := []), 0);
  }

  lemma FinishKeepsPhase(s: State, ref: JobRef, reply: bool)
    requires Shape(s)
    ensures FinishBatchJob(s, ref, reply).0.phase == s.phase
  {
  }

  lemma SettleKeepsPhase(s: State, w: nat)
    requires Shape(s) && w < |s.workers|
    ensures SettleJob(s, w).phase == s.phase
  {
    hide FinishBatchJob;
    if s.workers[w].run.BatchRun? {
      var reply := s.workers[w].run.reply;
      FinishKeepsPhase(SetJobs(s, reply, JobQueue(s, reply), JobActive(s, reply) - 1), s.workers[w].run.ref, reply);
    }
  }

  lemma WorkerMessageKeepsPhase(s: State, w: nat)
    requires Shape(s) && w < |s.workers| && s.workers[w].outbox != []
    ensures WorkerMessage(s, w).phase == s.phase
  {
    hide SettleJob;
    SettleKeepsPhase(SetWorker(s, w, s.workers[w].(outbox := s.workers[w].outbox[1..])), w);
  }

  lemma TaggedMessageKeepsPhase(s: State, k: nat)
    requires Shape(s) && k < |s.tagged| && s.tagged[k].slot.outbox != []
    ensures TaggedMessage(s, k).phase == s.phase
  {
    hide FinishBatchJob;
    var m := SetTagged(s, k, s.tagged[k].(slot := s.tagged[k].slot.(outbox := s.tagged[k].slot.outbox[1..])));
    if m.tagged[k].slot.run.BatchRun? {
      FinishKeepsPhase(SetTagged(m, k, m.tagged[k].(busy := false)), m.tagged[k].slot.run.ref, m.tagged[k].slot.run.reply);
    }
  }

  lemma {:induction false} PushKeepsPhase(s: State, id: nat, threads: seq<int>, i: nat)
    requires Shape(s) && i <= |threads| && ValidThreads(s, threads)
    ensures PushJobs(s, id, threads, i).phase == s.phase
    decreases |threads| - i
  {
    if i < |threads| { PushKeepsPhase(PushJob(s, threads[i], JobRef(id, i)), id, threads, i + 1); }
  }

  lemma {:induction false} QuitIdleKeepsPhase(s: State, i: nat)
    requires Shape(s) && i <= |s.idle|
    ensures QuitIdle(s, i).phase == s.phase
    decreases |s.idle| - i
  {
    if i < |s.idle| { QuitIdleKeepsPhase(SetWorker(s, s.idle[i], SendQuit(s.workers[s.idle[i]])), i + 1); }
  }

  lemma {:induction false} QuitTaggedKeepsPhase(s: State, k: nat)
    requires Shape(s) && k <= |s.tagged|
    ensures QuitTagged(s, k).phase == s.phase
    decreases |s.tagged| - k
  {
    if k < |s.tagged| {
      QuitTaggedKeepsPhase(if s.tagged[k].busy then s else SetTagged(s, k, s.tagged[k].(slot := SendQuit(s.tagged[k].slot))), k + 1);
    }
  }

  predicate Messages(es: seq<Event>) {
    forall i | 0 <= i < |es| :: !es[i].NextPhase?
  }

  /** Whether no thread is left to wait for. */
  method NoneJoinable(p: Proxy) returns (none: bool)
    ensures none <==> AllJoined(p.View())
  {
    for w := 0 to |p.workers|
      invariant forall i | 0 <= i < w :: !p.workers[i].joinable
    {
      if p.workers[w].joinable {
        return false;
      }
    }
    for k := 0 to |p.tagged|
      invariant forall i | 0 <= i < k :: !p.tagged[i].slot.joinable
    {
      if p.tagged[k].slot.joinable {
        return false;
      }
    }
    return true;
  }

  method HandleAll(p: Proxy, es: seq<Event>)
    requires Shape(p.View()) && Messages(es) && Possible(p.View(), es)
    modifies p
    ensures p.View() == After(old(p.View()), es) && p.phase == old(p.phase)
  {
    hide Shape, Enabled, Step;
    for i := 0 to |es|
      invariant Shape(p.View()) && Possible(p.View(), es[i..]) && p.phase == old(p.phase)
      invariant After(p.View(), es[i..]) == After(old(p.View()), es)
    {
      assert es[i..][0] == es[i] && es[i..][1..] == es[i + 1..];
      PhaseKept(p.View(), es[i]);
      p.Handle(es[i]);
    }
  }

  method HandlePhase(p: Proxy, es: seq<Event>)
    requires Shape(p.View()) && Messages(es) && Possible(p.View(), es) && p.phase != TimerPhase
    modifies p
    ensures p.View() == Advance(After(old(p.View()), es))
    ensures old(p.phase) == ControlPhase ==> p.phase == WorkerPhase
    ensures old(p.phase) == WorkerPhase ==> p.phase == TimerPhase
  {
    hide Shape, Possible, After, Messages;
    HandleAll(p, es);
    p.phase := Advance(p.View()).phase;
  }

  /** The queues are drained between the timers and the incoming messages. */
  method HandleTimers(p: Proxy, es: seq<Event>)
    requires Shape(p.View()) && Messages(es) && Possible(p.View(), es) && p.phase == TimerPhase
    modifies p
    ensures p.View() == Advance(After(old(p.View()), es)) && p.phase == IncomingPhase
  {
    hide Shape, Possible, After, Messages, ProcessQueue;
    HandleAll(p, es);
    p.DrainQueues();
    p.phase := IncomingPhase;
  }

  lemma PassSplits(s: State, control: seq<Event>, worker: seq<Event>, fired: seq<Event>, incoming: seq<Event>)
    requires Shape(s) && Possible(s, Pass(control, worker, fired, incoming))
    ensures Possible(s, control)
    ensures var a := Advance(After(s, control));
            Possible(a, worker) &&
            var b := Advance(After(a, worker));
            Possible(b, fired) &&
            var c := Advance(After(b, fired));
            Possible(c, incoming) && After(s, Pass(control, worker, fired, incoming)) == Advance(After(c, incoming))
  {
    hide Shape, Enabled, Possible, After, Advance;
    var upToWorker := control + [NextPhase] + worker + [NextPhase];
    assert Pass(control, worker, fired, incoming) == upToWorker + fired + [NextPhase] + incoming + [NextPhase];
    PhaseSplits(s, upToWorker + fired + [NextPhase], incoming);
    PhaseSplits(s, upToWorker, fired);
    PhaseSplits(s, control + [NextPhase], worker);
    assert [] + control == control;
    PhaseSplits(s, [], control);
    NothingAfter(s);
  }

  lemma NothingAfter(s: State)
    requires Shape(s)
    ensures Possible(s, []) && After(s, []) == s
  {
  }

  lemma PhaseSplits(s: State, before: seq<Event>, es: seq<Event>)
    requires Shape(s) && Possible(s, before + es + [NextPhase])
    ensures Possible(s, before) && Possible(After(s, before), es)
    ensures After(s, before + es + [NextPhase]) == Advance(After(After(s, before), es))
  {
    hide Shape, Enabled, Possible, After, Advance;
    AfterBoth(s, before + es, [NextPhase]);
    AfterBoth(s, before, es);
    AfterOne(After(s, before + es), NextPhase);
  }

  /**
   One pass of the loop, given the messages that are waiting in each phase (and the thread steps taken meanwhile).
   While quitting it first looks for threads that have not been joined, and stops for good when there is none.
   */
  method LoopPass(p: Proxy, control: seq<Event>, worker: seq<Event>, fired: seq<Event>, incoming: seq<Event>)
    returns (quit: bool)
    requires Shape(p.View()) && p.phase == ControlPhase
    requires Messages(control) && Messages(worker) && Messages(fired) && Messages(incoming)
    requires Possible(p.View(), Pass(control, worker, fired, incoming))
    modifies p
    ensures quit <==> old(p.maxWorkers) == 0 && AllJoined(old(p.View()))
    ensures p.View() == if quit then old(p.View()) else After(old(p.View()), Pass(control, worker, fired, incoming))
    ensures Reachable(old(p.View())) ==> Reachable(p.View())
  {
    quit := false;
    if p.maxWorkers == 0 {
      quit := NoneJoinable(p);
      if quit {
        return;
      }
    }
    hide Shape, Possible, After, Pass, Advance, Reachable;
    PassSplits(p.View(), control, worker, fired, incoming);
    if Reachable(p.View()) { AfterReachable(p.View(), Pass(control, worker, fired, incoming)); }
    HandlePhase(p, control);
    HandlePhase(p, worker);
    HandleTimers(p, fired);
    HandlePhase(p, incoming);
  }
}
