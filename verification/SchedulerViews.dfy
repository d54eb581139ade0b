/**
 Projections of the scheduler state that the invariants speak about: the job each worker holds, the
 load of each class, and the multiset of batch-job references in queues and workers.
 */
module SchedulerViews {
  import opened SchedulerModel

  datatype Class = BatchClass | ReplyClass | CatClass(cat: nat)

  predicate Belongs(r: RunInfo, k: Class) {
    match k
    case BatchClass => r.BatchRun? && !r.reply
    case ReplyClass => r.BatchRun? && r.reply
    case CatClass(c) => r.CommandRun? && r.cat == c
  }

  function One(b: bool): nat {
    if b then 1 else 0
  }

  function RefOf(r: RunInfo): multiset<JobRef> {
    if r.BatchRun? then multiset{r.ref} else multiset{}
  }

  /** The sum of a sequence of multisets. */
  function Gather<T>(q: seq<multiset<T>>): multiset<T> {
    if q == [] then multiset{} else Gather(q[..|q| - 1]) + q[|q| - 1]
  }

  lemma {:induction false} GatherUpdate<T>(q: seq<multiset<T>>, i: nat, m: multiset<T>)
    requires i < |q|
    ensures Gather(q[i := m]) + q[i] == Gather(q) + m
    decreases |q|
  {
    var n := |q| - 1;
    if i == n {
      assert q[i := m][..n] == q[..n];
    } else {
      assert q[i := m][..n] == q[..n][i := m];
      GatherUpdate(q[..n], i, m);
      calc {
        Gather(q[i := m]) + q[i];
        (Gather(q[..n][i := m]) + q[..n][i]) + q[n];
        (Gather(q[..n]) + m) + q[n];
        Gather(q) + m;
      }
    }
  }

  lemma {:induction false} GatherContains<T>(q: seq<multiset<T>>, i: nat, x: T)
    requires i < |q| && x in q[i]
    ensures x in Gather(q)
    decreases |q|
  {
    if i < |q| - 1 {
      GatherContains(q[..|q| - 1], i, x);
    }
  }

  // ----- what the ordinary workers hold -----

  /** The job worker i holds, or `Unloaded` when it is idle or has been told to quit. */
  function HeldBy(s: State, i: nat): RunInfo
    requires i < |s.workers|
  {
    if i in s.idle || s.workers[i].quits > 0 then Unloaded else s.workers[i].run
  }

  function Held(s: State): (h: seq<RunInfo>)
    ensures |h| == |s.workers|
    ensures forall i | 0 <= i < |h| :: h[i] == HeldBy(s, i)
  {
    seq(|s.workers|, i requires 0 <= i < |s.workers| => HeldBy(s, i))
  }

  function Count(h: seq<RunInfo>, k: Class): nat {
    if h == [] then 0 else Count(h[..|h| - 1], k) + One(Belongs(h[|h| - 1], k))
  }

  function HeldBags(h: seq<RunInfo>): (b: seq<multiset<JobRef>>)
    ensures |b| == |h|
    ensures forall i | 0 <= i < |h| :: b[i] == RefOf(h[i])
  {
    seq(|h|, i requires 0 <= i < |h| => RefOf(h[i]))
  }

  function HeldRefs(h: seq<RunInfo>): multiset<JobRef> {
    Gather(HeldBags(h))
  }

  lemma {:induction false} CountUpdate(h: seq<RunInfo>, i: nat, r: RunInfo, k: Class)
    requires i < |h|
    ensures Count(h[i := r], k) == Count(h, k) - One(Belongs(h[i], k)) + One(Belongs(r, k))
    decreases |h|
  {
    var n := |h| - 1;
    if i == n {
      assert h[i := r][..n] == h[..n];
    } else {
      assert h[i := r][..n] == h[..n][i := r];
      CountUpdate(h[..n], i, r, k);
    }
  }

  lemma HeldRefsUpdate(h: seq<RunInfo>, i: nat, r: RunInfo)
    requires i < |h|
    ensures HeldRefs(h[i := r]) + RefOf(h[i]) == HeldRefs(h) + RefOf(r)
  {
    assert HeldBags(h[i := r]) == HeldBags(h)[i := RefOf(r)];
    GatherUpdate(HeldBags(h), i, RefOf(r));
  }

  lemma CountAppend(h: seq<RunInfo>, r: RunInfo, k: Class)
    ensures Count(h + [r], k) == Count(h, k) + One(Belongs(r, k))
  {
    assert (h + [r])[..|h|] == h;
  }

  lemma HeldRefsAppend(h: seq<RunInfo>, r: RunInfo)
    ensures HeldRefs(h + [r]) == HeldRefs(h) + RefOf(r)
  {
    assert HeldBags(h + [r]) == HeldBags(h) + [RefOf(r)];
    assert (HeldBags(h) + [RefOf(r)])[..|h|] == HeldBags(h);
  }

  lemma HeldRefsContains(h: seq<RunInfo>, i: nat)
    requires i < |h| && h[i].BatchRun?
    ensures h[i].ref in HeldRefs(h)
  {
    GatherContains(HeldBags(h), i, h[i].ref);
  }

  // ----- what the tagged workers hold and have queued -----

  function TaggedRefsOf(tw: TaggedSlot): multiset<JobRef> {
    multiset(tw.queue) + (if tw.busy then RefOf(tw.slot.run) else multiset{})
  }

  function TaggedBags(q: seq<TaggedSlot>): (b: seq<multiset<JobRef>>)
    ensures |b| == |q|
    ensures forall i | 0 <= i < |q| :: b[i] == TaggedRefsOf(q[i])
  {
    seq(|q|, i requires 0 <= i < |q| => TaggedRefsOf(q[i]))
  }

  function TaggedRefs(q: seq<TaggedSlot>): multiset<JobRef> {
    Gather(TaggedBags(q))
  }

  lemma TaggedUpdate(q: seq<TaggedSlot>, i: nat, tw: TaggedSlot)
    requires i < |q|
    ensures TaggedRefs(q[i := tw]) + TaggedRefsOf(q[i]) == TaggedRefs(q) + TaggedRefsOf(tw)
  {
    assert TaggedBags(q[i := tw]) == TaggedBags(q)[i := TaggedRefsOf(tw)];
    GatherUpdate(TaggedBags(q), i, TaggedRefsOf(tw));
  }

  /** Every batch-job reference in a queue or held by a working thread, with multiplicity. */
  function Refs(s: State): multiset<JobRef> {
    multiset(s.batchJobs) + multiset(s.replyJobs) + TaggedRefs(s.tagged) + HeldRefs(Held(s))
  }

  lemma HeadAndTail<T>(q: seq<T>)
    requires q != []
    ensures multiset(q) == multiset{q[0]} + multiset(q[1..])
  {
    assert q == [q[0]] + q[1..];
  }

  // ----- class loads -----

  datatype Load = Load(active: int, reserved: int)

  function Excess(l: Load): nat {
    if l.active > l.reserved then l.active - l.reserved else 0
  }

  function SumActive(q: seq<Load>): int {
    if q == [] then 0 else SumActive(q[..|q| - 1]) + q[|q| - 1].active
  }

  function SumReserved(q: seq<Load>): int {
    if q == [] then 0 else SumReserved(q[..|q| - 1]) + q[|q| - 1].reserved
  }

  function SumExcess(q: seq<Load>): nat {
    if q == [] then 0 else SumExcess(q[..|q| - 1]) + Excess(q[|q| - 1])
  }

  lemma {:induction false} SumUpdate(q: seq<Load>, i: nat, l: Load)
    requires i < |q|
    ensures SumActive(q[i := l]) == SumActive(q) - q[i].active + l.active
    ensures SumReserved(q[i := l]) == SumReserved(q) - q[i].reserved + l.reserved
    ensures SumExcess(q[i := l]) == SumExcess(q) - Excess(q[i]) + Excess(l)
    decreases |q|
  {
    var n := |q| - 1;
    if i == n {
      assert q[i := l][..n] == q[..n];
    } else {
      assert q[i := l][..n] == q[..n][i := l];
      SumUpdate(q[..n], i, l);
    }
  }

  /** No class is busier than its reservation plus its excess; with non-negative loads, excess is part of active. */
  lemma {:induction false} SumBounds(q: seq<Load>)
    requires forall i | 0 <= i < |q| :: q[i].active >= 0 && q[i].reserved >= 0
    ensures SumActive(q) <= SumReserved(q) + SumExcess(q)
    ensures SumExcess(q) <= SumActive(q)
    ensures SumReserved(q) >= 0
  {
    if q != [] {
      SumBounds(q[..|q| - 1]);
    }
  }

  /** The loads of all classes: batch jobs, reply jobs, then each category. */
  function Loads(s: State): (q: seq<Load>)
    ensures |q| == |s.cats| + 2
    ensures q[0] == Load(s.batchActive, s.batchReserved) && q[1] == Load(s.replyActive, s.replyReserved)
    ensures forall c | 0 <= c < |s.cats| :: q[c + 2] == Load(s.cats[c].active, s.cats[c].reserved)
  {
    [Load(s.batchActive, s.batchReserved), Load(s.replyActive, s.replyReserved)]
      + seq(|s.cats|, c requires 0 <= c < |s.cats| => Load(s.cats[c].active, s.cats[c].reserved))
  }

  function IndexOf(k: Class): nat {
    match k case BatchClass => 0 case ReplyClass => 1 case CatClass(c) => c + 2
  }
}
