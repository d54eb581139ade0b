/** New batches, reply jobs and timers: queueing them keeps every invariant. */
module SchedulerSubmits {
  import opened Basics
  import opened SchedulerModel
  import opened SchedulerViews
  import opened SchedulerLedger
  import opened SchedulerInvariant

  /** Only the batch queues, the batch and timer tables and the batch histories differ. */
  predicate SameThreads(s: State, t: State) {
    && t == s.(batchJobs := t.batchJobs, replyJobs := t.replyJobs, tagged := t.tagged, batches := t.batches,
               submitted := t.submitted, nextBatch := t.nextBatch, timers := t.timers, finished := t.finished)
    && |t.tagged| == |s.tagged|
    && forall k: nat | k < |s.tagged| :: t.tagged[k].slot == s.tagged[k].slot && t.tagged[k].busy == s.tagged[k].busy
  }

  lemma FrameThreads(s: State, t: State)
    requires SameThreads(s, t)
    ensures Held(t) == Held(s) && Loads(t) == Loads(s)
    ensures Shape(t) == Shape(s)
    ensures ProtocolOk(s) ==> ProtocolOk(t)
    ensures CountersOk(s) ==> CountersOk(t)
    ensures CapacityOk(s) ==> CapacityOk(t)
    ensures Shape(s) && FifoOk(s) ==> FifoOk(t)
    ensures Shape(s) && SettledOk(s) ==> SettledOk(t)
  {
    assert Held(t) == Held(s);
    if ProtocolOk(s) {
      forall k: nat | k < |t.tagged|
        ensures TaggedOk(t.tagged[k], t.maxWorkers == 0)
      {
        assert TaggedOk(s.tagged[k], s.maxWorkers == 0);
      }
    }
    if Shape(s) && FifoOk(s) {
      forall c: nat | c < |t.cats|
        ensures FifoAt(t, c)
      {
        assert FifoAt(s, c);
      }
    }
  }

  // ----- where the references go -----

  lemma PushTaggedRefs(s: State, thread: nat, ref: JobRef)
    requires Shape(s) && 1 <= thread <= |s.tagged|
    ensures Refs(PushTagged(s, thread, ref)) == Refs(s) + multiset{ref}
    ensures SameThreads(s, PushTagged(s, thread, ref))
  {
    hide TaggedRefs, HeldRefs;
    var t := PushTagged(s, thread, ref);
    var tw := s.tagged[thread - 1];
    TaggedUpdate(s.tagged, thread - 1, t.tagged[thread - 1]);
    AddRight(TaggedRefs(t.tagged), TaggedRefs(s.tagged), TaggedRefsOf(tw), multiset{ref});
    assert Held(t) == Held(s);
    AddThird(multiset(s.batchJobs) + multiset(s.replyJobs), TaggedRefs(s.tagged), HeldRefs(Held(s)), multiset{ref});
  }

  lemma AddRight<T>(a: multiset<T>, b: multiset<T>, x: multiset<T>, y: multiset<T>)
    requires a + x == b + (x + y)
    ensures a == b + y
  {
    assert (a + x) - x == a;
    assert (b + (x + y)) - x == b + y;
  }

  lemma AddThird<T>(a: multiset<T>, b: multiset<T>, c: multiset<T>, y: multiset<T>)
    ensures a + (b + y) + c == a + b + c + y
  {
  }

  lemma AddFirst<T>(a: multiset<T>, b: multiset<T>, c: multiset<T>, d: multiset<T>, y: multiset<T>)
    ensures (a + y) + b + c + d == a + b + c + d + y
    ensures a + (b + y) + c + d == a + b + c + d + y
  {
  }

  lemma PushQueueRefs(s: State, reply: bool, ref: JobRef)
    requires Shape(s)
    ensures var t := SetJobs(s, reply, JobQueue(s, reply) + [ref], JobActive(s, reply));
            Refs(t) == Refs(s) + multiset{ref} && SameThreads(s, t)
  {
    hide TaggedRefs, HeldRefs;
    var t := SetJobs(s, reply, JobQueue(s, reply) + [ref], JobActive(s, reply));
    assert Held(t) == Held(s);
    assert multiset(JobQueue(s, reply) + [ref]) == multiset(JobQueue(s, reply)) + multiset{ref};
    AddFirst(multiset(s.batchJobs), multiset(s.replyJobs), TaggedRefs(s.tagged), HeldRefs(Held(s)), multiset{ref});
  }

  lemma PushJobRefs(s: State, thread: int, ref: JobRef)
    requires Shape(s) && 0 <= thread <= |s.tagged|
    ensures Refs(PushJob(s, thread, ref)) == Refs(s) + multiset{ref}
    ensures SameThreads(s, PushJob(s, thread, ref))
    ensures var t := PushJob(s, thread, ref); t == s.(batchJobs := t.batchJobs, tagged := t.tagged)
  {
    hide Refs, PushTagged;
    if thread > 0 {
      PushTaggedRefs(s, thread, ref);
      assert PushTagged(s, thread, ref) == PushJob(s, thread, ref);
      PushTaggedOnly(s, thread, ref);
    } else {
      PushQueueRefs(s, false, ref);
    }
  }

  lemma PushTaggedOnly(s: State, thread: nat, ref: JobRef)
    requires Shape(s) && 1 <= thread <= |s.tagged|
    ensures var t := PushTagged(s, thread, ref); t == s.(tagged := t.tagged)
  {
  }

  /** Queueing jobs i.. of a batch adds exactly their references. */
  lemma {:induction false} PushJobsRefs(s: State, id: nat, threads: seq<int>, i: nat)
    requires Shape(s) && i <= |threads|
    requires forall j | 0 <= j < |threads| :: 0 <= threads[j] <= |s.tagged|
    ensures var t := PushJobs(s, id, threads, i);
            && SameThreads(s, t) && t == s.(batchJobs := t.batchJobs, tagged := t.tagged)
            && forall r: JobRef :: Refs(t)[r] == Refs(s)[r] + One(r.batch == id && i <= r.jobno < |threads|)
    decreases |threads| - i
  {
    hide Refs, PushJob;
    if i < |threads| {
      var u := PushJob(s, threads[i], JobRef(id, i));
      PushJobRefs(s, threads[i], JobRef(id, i));
      PushJobsRefs(u, id, threads, i + 1);
      forall r: JobRef
        ensures Refs(PushJobs(s, id, threads, i))[r] == Refs(s)[r] + One(r.batch == id && i <= r.jobno < |threads|)
      {
        assert Refs(u)[r] == Refs(s)[r] + One(r == JobRef(id, i));
      }
    }
  }

  lemma OwnSame(s: State, b: Batch)
    requires Shape(s)
    ensures SameThreads(s, Own(s, b)) && Refs(Own(s, b)) == Refs(s)
  {
    assert Held(Own(s, b)) == Held(s);
  }

  // ----- timers -----

  lemma AddPlainBatch(timers: map<nat, Timer>, batches: map<nat, Batch>, tagged: nat, id: nat, b: Batch)
    requires TimersOk(timers, batches, tagged) && id !in batches && ThreadsOk(b, tagged) && b.timer.None?
    ensures TimersOk(timers, batches[id := b], tagged)
  {
    forall t | t in timers && timers[t].running
      ensures HasBatch(batches[id := b], t)
    {
      var x :| x in batches && batches[x].timer == Some(t);
      assert x in batches[id := b] && batches[id := b][x].timer == Some(t);
    }
  }

  lemma AddTimerBatch(timers: map<nat, Timer>, batches: map<nat, Batch>, tagged: nat, id: nat, b: Batch, t: nat)
    requires TimersOk(timers, batches, tagged) && id !in batches && ThreadsOk(b, tagged)
    requires t in timers && timers[t].squelch && !timers[t].running
    requires b.timer == Some(t) && |b.threads| == 1 && b.complete && b.completeIn == IN_PROXY
    ensures TimersOk(timers[t := timers[t].(running := true)], batches[id := b], tagged)
  {
    var timers' := timers[t := timers[t].(running := true)];
    var batches' := batches[id := b];
    forall x | x in batches
      ensures batches[x].timer != Some(t)
    {
      assert TimerBatchOk(batches[x], timers);
    }
    forall u | u in timers' && timers'[u].running
      ensures HasBatch(batches', u)
    {
      if u == t {
        assert id in batches' && batches'[id].timer == Some(u);
      } else {
        var x :| x in batches && batches[x].timer == Some(u);
        assert x in batches' && batches'[x].timer == Some(u);
      }
    }
    forall x | x in batches'
      ensures ThreadsOk(batches'[x], tagged) && TimerBatchOk(batches'[x], timers')
    {
      if x != id {
        assert TimerBatchOk(batches[x], timers);
      }
    }
  }

  // ----- the actions -----

  lemma FreshId(s: State)
    requires LedgerOk(LedgerOf(s))
    ensures s.nextBatch !in s.batches
  {
    hide Refs;
    var l := LedgerOf(s);
    forall b | b in s.batches
      ensures b < s.nextBatch
    {
      assert BatchOk(l.refs, b, l.batches[b], l.submitted);
    }
  }

  /** Combines a submission's effect on references, timers and threads. */
  lemma SubmittedKeepsCore(s: State, t: State, b: Batch)
    requires Core(s) && SameThreads(s, t)
    requires Submitted(LedgerOf(s), LedgerOf(t), b) && b.threads != [] && b.outstanding == |b.threads|
    requires TimersOk(t.timers, t.batches, |t.tagged|)
    ensures Core(t)
    ensures SettledOk(s) ==> SettledOk(t)
  {
    hide LedgerOk, TimersOk, ProtocolOk, CountersOk, CapacityOk, FifoOk, Submitted, LedgerOf, SettledOk;
    FrameThreads(s, t);
    SubmitKeepsLedger(LedgerOf(s), LedgerOf(t), b);
  }

  lemma SubmitBatchKeepsCore(s: State, threads: seq<int>, complete: bool, completeIn: int)
    requires Core(s) && ValidThreads(s, threads) && IN_PROXY <= completeIn <= |s.tagged|
    ensures Core(SubmitBatch(s, threads, complete, completeIn))
    ensures SettledOk(s) ==> SettledOk(SubmitBatch(s, threads, complete, completeIn))
  {
    hide LedgerOk, TimersOk, ProtocolOk, CountersOk, CapacityOk, FifoOk, Refs, PushJobs, SettledOk;
    var b := NewBatch(threads, complete, completeIn, None);
    FreshId(s);
    OwnSame(s, b);
    PushJobsRefs(Own(s, b), s.nextBatch, threads, 0);
    AddPlainBatch(s.timers, s.batches, |s.tagged|, s.nextBatch, b);
    SubmittedKeepsCore(s, SubmitBatch(s, threads, complete, completeIn), b);
  }

  lemma ScheduleReplyKeepsCore(s: State)
    requires Core(s)
    ensures Core(ScheduleReply(s))
    ensures SettledOk(s) ==> SettledOk(ScheduleReply(s))
  {
    hide LedgerOk, TimersOk, ProtocolOk, CountersOk, CapacityOk, FifoOk, Refs, SettledOk;
    var b := NewBatch([0], false, 0, None);
    var o := Own(s, b);
    FreshId(s);
    OwnSame(s, b);
    PushQueueRefs(o, true, JobRef(s.nextBatch, 0));
    AddPlainBatch(s.timers, s.batches, |s.tagged|, s.nextBatch, b);
    OneJob(Refs(s), s.nextBatch);
    SubmittedKeepsCore(s, ScheduleReply(s), b);
  }

  lemma OneJob(refs: multiset<JobRef>, id: nat)
    ensures forall r: JobRef :: (refs + multiset{JobRef(id, 0)})[r] == refs[r] + One(r.batch == id && 0 <= r.jobno < 1)
  {
  }

  predicate Fires(s: State, id: nat) {
    id in s.timers && !(s.timers[id].squelch && s.timers[id].running) && s.timers[id].thread != IN_PROXY
  }

  function TimerBatch(tm: Timer, id: nat): Batch {
    NewBatch([tm.thread], tm.squelch, if tm.squelch then IN_PROXY else 0, if tm.squelch then Some(id) else None)
  }

  lemma FireTimerSubmits(s: State, id: nat)
    requires Shape(s) && Fires(s, id) && IN_PROXY <= s.timers[id].thread <= |s.tagged|
    ensures var t := FireTimer(s, id);
            && SameThreads(s, t) && Submitted(LedgerOf(s), LedgerOf(t), TimerBatch(s.timers[id], id))
            && t.batches == s.batches[s.nextBatch := TimerBatch(s.timers[id], id)]
            && t.timers == if s.timers[id].squelch then s.timers[id := s.timers[id].(running := true)] else s.timers
  {
    hide Refs, PushJob;
    var tm := s.timers[id];
    var m := if tm.squelch then s.(timers := s.timers[id := tm.(running := true)]) else s;
    var b := TimerBatch(tm, id);
    TimersBeside(s, m.timers);
    OwnSame(m, b);
    PushJobRefs(Own(m, b), tm.thread, JobRef(s.nextBatch, 0));
    OneJob(Refs(s), s.nextBatch);
  }

  lemma NoFire(s: State, id: nat)
    requires Shape(s) && !Fires(s, id) && (id in s.timers ==> IN_PROXY <= s.timers[id].thread <= |s.tagged|)
    ensures FireTimer(s, id) == s
  {
  }

  lemma FireTimerKeepsCore(s: State, id: nat)
    requires Core(s)
    ensures Core(FireTimer(s, id))
    ensures SettledOk(s) ==> SettledOk(FireTimer(s, id))
  {
    assert id in s.timers ==> IN_PROXY <= s.timers[id].thread <= |s.tagged|;
    hide FireTimer, SettledOk;
    if Fires(s, id) {
      FireTimerSubmits(s, id);
      FiredKeepsCore(s, FireTimer(s, id), id);
    } else {
      NoFire(s, id);
    }
  }

  lemma FiredKeepsCore(s: State, t: State, id: nat)
    requires Core(s) && Fires(s, id) && SameThreads(s, t)
    requires Submitted(LedgerOf(s), LedgerOf(t), TimerBatch(s.timers[id], id))
    requires t.batches == s.batches[s.nextBatch := TimerBatch(s.timers[id], id)]
    requires t.timers == if s.timers[id].squelch then s.timers[id := s.timers[id].(running := true)] else s.timers
    ensures Core(t)
    ensures SettledOk(s) ==> SettledOk(t)
  {
    assert IN_PROXY <= s.timers[id].thread <= |s.tagged|;
    hide LedgerOk, TimersOk, ProtocolOk, CountersOk, CapacityOk, FifoOk, LedgerOf, Submitted, SettledOk, SameThreads;
    var b := TimerBatch(s.timers[id], id);
    FreshId(s);
    FrameThreads(s, t);
    SameTagged(s, t);
    if s.timers[id].squelch {
      AddTimerBatch(s.timers, s.batches, |s.tagged|, s.nextBatch, b, id);
    } else {
      AddPlainBatch(s.timers, s.batches, |s.tagged|, s.nextBatch, b);
    }
    SubmittedKeepsCore(s, t, b);
  }

  lemma SameTagged(s: State, t: State)
    requires SameThreads(s, t)
    ensures |t.tagged| == |s.tagged|
  {
  }

  lemma TimersBeside(s: State, timers: map<nat, Timer>)
    ensures Refs(s.(timers := timers)) == Refs(s)
  {
    assert Held(s.(timers := timers)) == Held(s);
  }

  lemma AddTimerKeepsCore(s: State, id: nat, squelch: bool, thread: int)
    requires Core(s) && id !in s.timers && IN_PROXY <= thread <= |s.tagged|
    ensures Core(AddTimer(s, id, squelch, thread))
    ensures SettledOk(s) ==> SettledOk(AddTimer(s, id, squelch, thread))
  {
    hide LedgerOk, ProtocolOk, CountersOk, CapacityOk, FifoOk, Refs, SettledOk;
    var t := AddTimer(s, id, squelch, thread);
    FrameThreads(s, t);
    TimersBeside(s, t.timers);
    forall x | x in s.batches
      ensures TimerBatchOk(s.batches[x], t.timers)
    {
      assert TimerBatchOk(s.batches[x], s.timers);
    }
  }
}
