/**
 Bookkeeping of batches, independent of where their jobs are: `refs` is the multiset of job
 references in queues and working threads, `finished` the jobs that have run, in order.
 */
module SchedulerLedger {
  import opened Basics
  import opened SchedulerModel
  import opened SchedulerViews

  datatype Ledger = Ledger(refs: multiset<JobRef>, batches: map<nat, Batch>, submitted: map<nat, Batch>,
                           finished: seq<JobRef>, next: nat)

  /** A reference names a job of the batch, or the completion it is about to run. */
  predicate RefOk(b: Batch, jobno: int) {
    || 0 <= jobno < |b.threads|
    || (jobno == COMPLETION && b.complete && b.completeIn != IN_PROXY && b.outstanding == 0)
  }

  ghost function OpenJobs(refs: multiset<JobRef>, id: nat, n: nat): set<int> {
    set i | 0 <= i < n && JobRef(id, i) in refs
  }

  /** A live batch counts exactly its open jobs, and is never left without an open job or completion. */
  ghost predicate BatchOk(refs: multiset<JobRef>, id: nat, b: Batch, submitted: map<nat, Batch>) {
    && b.threads != []
    && id in submitted && b == submitted[id].(outstanding := b.outstanding)
    && b.outstanding == |OpenJobs(refs, id, |b.threads|)|
    && (b.outstanding == 0 ==> JobRef(id, COMPLETION) in refs)
  }

  /** No reference occurs twice, and each belongs to a live batch. */
  ghost predicate RefsOk(l: Ledger) {
    forall r | r in l.refs :: l.refs[r] == 1 && r.batch in l.batches && RefOk(l.batches[r.batch], r.jobno)
  }

  ghost predicate BatchesOk(l: Ledger) {
    && (forall b: nat :: b in l.submitted <==> b < l.next)
    && (forall b | b in l.batches :: BatchOk(l.refs, b, l.batches[b], l.submitted))
  }

  predicate IsJob(l: Ledger, r: JobRef) {
    r.batch in l.submitted && 0 <= r.jobno < |l.submitted[r.batch].threads|
  }

  /** A job of a submitted batch has finished or is open, never both. */
  ghost predicate OpenXorFinished(l: Ledger) {
    forall r: JobRef | IsJob(l, r) :: r in l.finished <==> r !in l.refs
  }

  predicate IsCompletion(l: Ledger, r: JobRef) {
    r.batch in l.submitted && r.jobno == COMPLETION && l.submitted[r.batch].complete
  }

  /** A completion has finished exactly when its batch has been deleted. */
  ghost predicate CompletionsOk(l: Ledger) {
    && (forall r | r in l.finished :: IsJob(l, r) || IsCompletion(l, r))
    && (forall r: JobRef | IsCompletion(l, r) :: r in l.finished <==> r.batch !in l.batches)
  }

  ghost predicate AllJobsIn(submitted: map<nat, Batch>, b: nat, finished: seq<JobRef>)
    requires b in submitted
  {
    forall i | 0 <= i < |submitted[b].threads| :: JobRef(b, i) in finished
  }

  /** Nothing finishes twice, and a completion finishes after every job of its batch. */
  ghost predicate HistoryOk(submitted: map<nat, Batch>, finished: seq<JobRef>) {
    && NoDup(finished)
    && (forall p | 0 <= p < |finished| && finished[p].jobno == COMPLETION && finished[p].batch in submitted ::
          AllJobsIn(submitted, finished[p].batch, finished[..p]))
  }

  ghost predicate LedgerOk(l: Ledger) {
    RefsOk(l) && BatchesOk(l) && OpenXorFinished(l) && CompletionsOk(l) && HistoryOk(l.submitted, l.finished)
  }

  // ----- submitting -----

  function UpTo(n: nat): (q: set<int>)
    ensures |q| == n
    ensures forall i :: i in q <==> 0 <= i < n
  {
    if n == 0 then {} else UpTo(n - 1) + {n - 1}
  }

  lemma FrameBatch(refs: multiset<JobRef>, refs': multiset<JobRef>, id: nat, b: Batch,
                   submitted: map<nat, Batch>, submitted': map<nat, Batch>)
    requires BatchOk(refs, id, b, submitted)
    requires forall r: JobRef | r.batch == id :: r in refs' <==> r in refs
    requires id in submitted' && submitted'[id] == submitted[id]
    ensures BatchOk(refs', id, b, submitted')
  {
    assert OpenJobs(refs', id, |b.threads|) == OpenJobs(refs, id, |b.threads|);
  }

  /** `m` is `l` after batch `b` was taken on with all its jobs queued. */
  ghost predicate Submitted(l: Ledger, m: Ledger, b: Batch) {
    && m == Ledger(m.refs, l.batches[l.next := b], l.submitted[l.next := b], l.finished, l.next + 1)
    && forall r: JobRef :: m.refs[r] == l.refs[r] + One(r.batch == l.next && 0 <= r.jobno < |b.threads|)
  }

  lemma SubmitKeepsRefs(l: Ledger, m: Ledger, b: Batch)
    requires RefsOk(l) && BatchesOk(l) && Submitted(l, m, b)
    ensures RefsOk(m)
    ensures l.next !in l.batches
  {
    forall b | b in l.batches
      ensures b < l.next
    {
      assert BatchOk(l.refs, b, l.batches[b], l.submitted);
    }
    forall r | r in m.refs
      ensures m.refs[r] == 1 && r.batch in m.batches && RefOk(m.batches[r.batch], r.jobno)
    {
      assert m.refs[r] > 0;
      if r.batch != l.next {
        assert r in l.refs;
      }
    }
  }

  lemma AllOpen(refs: multiset<JobRef>, id: nat, n: nat)
    requires forall i | 0 <= i < n :: JobRef(id, i) in refs
    ensures |OpenJobs(refs, id, n)| == n
  {
    assert OpenJobs(refs, id, n) == UpTo(n);
  }

  lemma SubmitKeepsBatches(l: Ledger, m: Ledger, b: Batch)
    requires BatchesOk(l) && Submitted(l, m, b)
    requires l.next !in l.batches
    requires b.threads != [] && b.outstanding == |b.threads|
    ensures BatchesOk(m)
  {
    var n := |b.threads|;
    forall x | x in l.batches
      ensures BatchOk(m.refs, x, m.batches[x], m.submitted)
    {
      assert BatchOk(l.refs, x, l.batches[x], l.submitted);
      FrameBatch(l.refs, m.refs, x, l.batches[x], l.submitted, m.submitted);
    }
    forall i | 0 <= i < n
      ensures JobRef(l.next, i) in m.refs
    {
      assert m.refs[JobRef(l.next, i)] >= 1;
    }
    AllOpen(m.refs, l.next, n);
    assert BatchOk(m.refs, l.next, b, m.submitted);
  }

  lemma SubmitKeepsHistory(l: Ledger, m: Ledger, b: Batch)
    requires LedgerOk(l) && Submitted(l, m, b)
    ensures OpenXorFinished(m) && CompletionsOk(m) && HistoryOk(m.submitted, m.finished)
  {
    forall r | r in l.finished
      ensures r.batch < l.next
    {
      assert IsJob(l, r) || IsCompletion(l, r);
    }
    forall r: JobRef | IsJob(m, r)
      ensures r in m.finished <==> r !in m.refs
    {
      assert m.refs[r] == l.refs[r] + One(r.batch == l.next);
      if r.batch != l.next {
        assert IsJob(l, r);
      }
    }
    forall p | 0 <= p < |l.finished| && l.finished[p].jobno == COMPLETION && l.finished[p].batch in m.submitted
      ensures AllJobsIn(m.submitted, l.finished[p].batch, l.finished[..p])
    {
      assert l.finished[p] in l.finished;
      assert AllJobsIn(l.submitted, l.finished[p].batch, l.finished[..p]);
    }
    forall r | r in m.finished
      ensures IsJob(m, r) || IsCompletion(m, r)
    {
      assert IsJob(l, r) || IsCompletion(l, r);
    }
    forall r: JobRef | IsCompletion(m, r)
      ensures r in m.finished <==> r.batch !in m.batches
    {
      if r.batch != l.next {
        assert IsCompletion(l, r);
      }
    }
  }

  lemma SubmitKeepsLedger(l: Ledger, m: Ledger, b: Batch)
    requires LedgerOk(l) && Submitted(l, m, b)
    requires b.threads != [] && b.outstanding == |b.threads|
    ensures LedgerOk(m)
  {
    SubmitKeepsRefs(l, m, b);
    SubmitKeepsBatches(l, m, b);
    SubmitKeepsHistory(l, m, b);
  }

  // ----- finishing -----

  lemma CloseJob(refs: multiset<JobRef>, refs': multiset<JobRef>, r: JobRef, n: nat)
    requires 0 <= r.jobno < n && r in refs
    requires forall x: JobRef | 0 <= x.jobno && x.batch == r.batch :: x in refs' <==> x in refs && x != r
    ensures |OpenJobs(refs', r.batch, n)| == |OpenJobs(refs, r.batch, n)| - 1
  {
    assert OpenJobs(refs', r.batch, n) == OpenJobs(refs, r.batch, n) - {r.jobno};
  }

  lemma AppendFinished(submitted: map<nat, Batch>, finished: seq<JobRef>, r: JobRef)
    requires HistoryOk(submitted, finished) && r !in finished
    requires r.jobno == COMPLETION && r.batch in submitted ==> AllJobsIn(submitted, r.batch, finished)
    ensures HistoryOk(submitted, finished + [r])
  {
    var f := finished + [r];
    forall p | 0 <= p < |f| && f[p].jobno == COMPLETION && f[p].batch in submitted
      ensures AllJobsIn(submitted, f[p].batch, f[..p])
    {
      if p < |finished| {
        assert f[..p] == finished[..p];
        assert f[p] == finished[p];
      } else {
        assert f[..p] == finished;
      }
    }
  }

  /** Job `r` has finished and its batch lives on; `c` is the completion this puts in a queue, if `queued`. */
  ghost predicate JobClosed(l: Ledger, m: Ledger, r: JobRef, queued: bool)
    requires r.batch in l.batches
  {
    && m == Ledger(m.refs, l.batches[r.batch := l.batches[r.batch].(outstanding := l.batches[r.batch].outstanding - 1)],
                   l.submitted, l.finished + [r], l.next)
    && forall x: JobRef :: m.refs[x] ==
         if x == r then 0 else l.refs[x] + One(queued && x == JobRef(r.batch, COMPLETION))
  }

  lemma JobKeepsRefs(l: Ledger, m: Ledger, r: JobRef, queued: bool)
    requires LedgerOk(l) && r in l.refs && r.jobno != COMPLETION && JobClosed(l, m, r, queued)
    requires var b := l.batches[r.batch];
             queued ==> b.outstanding == 1 && b.complete && b.completeIn != IN_PROXY
    ensures RefsOk(m)
  {
    var b := l.batches[r.batch];
    assert BatchOk(l.refs, r.batch, b, l.submitted);
    assert r.jobno in OpenJobs(l.refs, r.batch, |b.threads|);
    forall x | x in m.refs
      ensures m.refs[x] == 1 && x.batch in m.batches && RefOk(m.batches[x.batch], x.jobno)
    {
      assert m.refs[x] > 0;
      if x in l.refs {
        assert RefOk(l.batches[x.batch], x.jobno);
      }
    }
  }

  lemma JobKeepsBatches(l: Ledger, m: Ledger, r: JobRef, queued: bool)
    requires LedgerOk(l) && r in l.refs && r.jobno != COMPLETION && JobClosed(l, m, r, queued)
    requires l.batches[r.batch].outstanding > 1 || queued
    ensures BatchesOk(m)
  {
    var b := l.batches[r.batch];
    var c := JobRef(r.batch, COMPLETION);
    assert BatchOk(l.refs, r.batch, b, l.submitted);
    assert m.refs[c] == l.refs[c] + One(queued);
    forall x: JobRef | 0 <= x.jobno && x.batch == r.batch
      ensures x in m.refs <==> x in l.refs && x != r
    {
      assert m.refs[x] == if x == r then 0 else l.refs[x];
    }
    CloseJob(l.refs, m.refs, r, |b.threads|);
    forall x | x in m.batches
      ensures BatchOk(m.refs, x, m.batches[x], m.submitted)
    {
      if x != r.batch {
        assert BatchOk(l.refs, x, l.batches[x], l.submitted);
        FrameBatch(l.refs, m.refs, x, l.batches[x], l.submitted, m.submitted);
      }
    }
  }

  lemma FinishKeepsOpen(l: Ledger, m: Ledger, r: JobRef)
    requires OpenXorFinished(l) && CompletionsOk(l) && IsJob(l, r)
    requires m.submitted == l.submitted && m.finished == l.finished + [r]
    requires forall x: JobRef | 0 <= x.jobno :: x in m.refs <==> x in l.refs && x != r
    ensures OpenXorFinished(m)
    ensures forall x | x in m.finished :: IsJob(m, x) || IsCompletion(m, x)
  {
    forall x: JobRef | IsJob(m, x)
      ensures x in m.finished <==> x !in m.refs
    {
      assert IsJob(l, x);
    }
    forall x | x in m.finished
      ensures IsJob(m, x) || IsCompletion(m, x)
    {
      if x != r {
        assert x in l.finished;
        assert IsJob(l, x) || IsCompletion(l, x);
      } else {
        assert IsJob(m, x);
      }
    }
  }

  lemma JobKeepsLedger(l: Ledger, m: Ledger, r: JobRef, queued: bool)
    requires LedgerOk(l) && r in l.refs && r.jobno != COMPLETION && JobClosed(l, m, r, queued)
    requires var b := l.batches[r.batch];
             if queued then b.outstanding == 1 && b.complete && b.completeIn != IN_PROXY else b.outstanding > 1
    ensures LedgerOk(m)
  {
    JobKeepsRefs(l, m, r, queued);
    JobKeepsBatches(l, m, r, queued);
    assert BatchOk(l.refs, r.batch, l.batches[r.batch], l.submitted);
    assert IsJob(l, r);
    AppendFinished(l.submitted, l.finished, r);
    forall x: JobRef | 0 <= x.jobno
      ensures x in m.refs <==> x in l.refs && x != r
    {
      assert m.refs[x] == if x == r then 0 else l.refs[x];
    }
    FinishKeepsOpen(l, m, r);
    forall x: JobRef | IsCompletion(m, x)
      ensures x in m.finished <==> x.batch !in m.batches
    {
      assert IsCompletion(l, x);
    }
  }

  /** The last reference of a batch goes, and the batch with it; `tail` is what that finishes. */
  ghost predicate BatchClosed(l: Ledger, m: Ledger, r: JobRef, tail: seq<JobRef>) {
    && m == Ledger(m.refs, l.batches - {r.batch}, l.submitted, l.finished + tail, l.next)
    && forall x: JobRef :: m.refs[x] == if x == r then 0 else l.refs[x]
  }

  lemma DropKeepsBatches(l: Ledger, m: Ledger, r: JobRef, tail: seq<JobRef>)
    requires RefsOk(l) && BatchesOk(l) && r in l.refs && BatchClosed(l, m, r, tail)
    requires forall x | x in l.refs && x.batch == r.batch :: x == r
    ensures RefsOk(m) && BatchesOk(m)
  {
    forall x | x in m.refs
      ensures m.refs[x] == 1 && x.batch in m.batches && RefOk(m.batches[x.batch], x.jobno)
    {
      assert m.refs[x] > 0;
      assert x in l.refs && x != r;
    }
    forall x | x in m.batches
      ensures BatchOk(m.refs, x, m.batches[x], m.submitted)
    {
      assert BatchOk(l.refs, x, l.batches[x], l.submitted);
      FrameBatch(l.refs, m.refs, x, l.batches[x], l.submitted, m.submitted);
    }
  }

  /** With one job outstanding, the batch has no other reference and every other job has finished. */
  lemma LastReference(l: Ledger, r: JobRef)
    requires LedgerOk(l) && r in l.refs && r.jobno != COMPLETION && l.batches[r.batch].outstanding == 1
    ensures IsJob(l, r)
    ensures forall x | x in l.refs && x.batch == r.batch :: x == r
    ensures AllJobsIn(l.submitted, r.batch, l.finished + [r])
  {
    var b := l.batches[r.batch];
    assert BatchOk(l.refs, r.batch, b, l.submitted);
    var open := OpenJobs(l.refs, r.batch, |b.threads|);
    assert r.jobno in open;
    assert |open - {r.jobno}| == 0;
    forall x | x in l.refs && x.batch == r.batch
      ensures x == r
    {
      assert RefOk(b, x.jobno);
      assert x.jobno in open;
      assert x.jobno !in open - {r.jobno};
    }
    forall i | 0 <= i < |b.threads|
      ensures JobRef(r.batch, i) in l.finished + [r]
    {
      assert IsJob(l, JobRef(r.batch, i));
      assert i !in open - {r.jobno};
    }
  }

  lemma LastJobKeepsLedger(l: Ledger, m: Ledger, r: JobRef)
    requires LedgerOk(l) && r in l.refs && r.jobno != COMPLETION && l.batches[r.batch].outstanding == 1
    requires !l.batches[r.batch].complete && BatchClosed(l, m, r, [r])
    ensures LedgerOk(m)
  {
    LastReference(l, r);
    DropKeepsBatches(l, m, r, [r]);
    AppendFinished(l.submitted, l.finished, r);
    RefsClosed(l, m, r);
    FinishKeepsOpen(l, m, r);
    assert BatchOk(l.refs, r.batch, l.batches[r.batch], l.submitted);
    forall x: JobRef | IsCompletion(m, x)
      ensures x in m.finished <==> x.batch !in m.batches
    {
      assert IsCompletion(l, x);
    }
  }

  lemma RefsClosed(l: Ledger, m: Ledger, r: JobRef)
    requires forall x: JobRef :: m.refs[x] == if x == r then 0 else l.refs[x]
    ensures forall x: JobRef :: x in m.refs <==> x in l.refs && x != r
  {
    forall x: JobRef
      ensures x in m.refs <==> x in l.refs && x != r
    {
      assert m.refs[x] == if x == r then 0 else l.refs[x];
    }
  }

  lemma CompletionAdded(l: Ledger, m: Ledger, m2: Ledger, c: JobRef)
    requires CompletionsOk(l) && OpenXorFinished(m) && IsCompletion(l, c)
    requires forall x | x in m.finished :: IsJob(m, x) || IsCompletion(m, x)
    requires forall x: JobRef | x.jobno == COMPLETION :: x in m.finished <==> x in l.finished
    requires m2 == m.(finished := m.finished + [c], batches := l.batches - {c.batch}) && m.submitted == l.submitted
    ensures OpenXorFinished(m2) && CompletionsOk(m2)
  {
    forall x: JobRef | IsJob(m2, x)
      ensures x in m2.finished <==> x !in m2.refs
    {
      assert IsJob(m, x);
    }
    forall x | x in m2.finished
      ensures IsJob(m2, x) || IsCompletion(m2, x)
    {
      if x != c {
        assert x in m.finished;
        assert IsJob(m, x) || IsCompletion(m, x);
      }
    }
    forall x: JobRef | IsCompletion(m2, x)
      ensures x in m2.finished <==> x.batch !in m2.batches
    {
      assert IsCompletion(l, x);
    }
  }

  /** The last job finishes and the completion runs in the proxy at once. */
  lemma InProxyKeepsLedger(l: Ledger, m: Ledger, r: JobRef)
    requires LedgerOk(l) && r in l.refs && r.jobno != COMPLETION && l.batches[r.batch].outstanding == 1
    requires l.batches[r.batch].complete && BatchClosed(l, m, r, [r, JobRef(r.batch, COMPLETION)])
    ensures LedgerOk(m)
  {
    var c := JobRef(r.batch, COMPLETION);
    LastReference(l, r);
    DropKeepsBatches(l, m, r, [r, c]);
    assert BatchOk(l.refs, r.batch, l.batches[r.batch], l.submitted);
    assert IsCompletion(l, c);
    var f := l.finished + [r];
    assert m.finished == f + [c];
    AppendFinished(l.submitted, l.finished, r);
    AppendFinished(l.submitted, f, c);
    RefsClosed(l, m, r);
    var mid := m.(finished := f);
    FinishKeepsOpen(l, mid, r);
    CompletionAdded(l, mid, m, c);
  }

  /** A completion that was queued has run: its batch is deleted. */
  lemma CompletionKeepsLedger(l: Ledger, m: Ledger, r: JobRef)
    requires LedgerOk(l) && r in l.refs && r.jobno == COMPLETION && BatchClosed(l, m, r, [r])
    ensures LedgerOk(m)
  {
    var b := l.batches[r.batch];
    var n := |b.threads|;
    assert RefOk(b, r.jobno) && BatchOk(l.refs, r.batch, b, l.submitted);
    var open := OpenJobs(l.refs, r.batch, n);
    assert |open| == 0;
    assert IsCompletion(l, r);
    forall x | x in l.refs && x.batch == r.batch
      ensures x == r
    {
      assert RefOk(b, x.jobno);
      assert x.jobno !in open;
    }
    DropKeepsBatches(l, m, r, [r]);
    forall i | 0 <= i < n
      ensures JobRef(r.batch, i) in l.finished
    {
      assert IsJob(l, JobRef(r.batch, i));
      assert i !in open;
    }
    AppendFinished(l.submitted, l.finished, r);
    RefsClosed(l, m, r);
    var mid := m.(finished := l.finished);
    forall x: JobRef | IsJob(mid, x)
      ensures x in mid.finished <==> x !in mid.refs
    {
      assert IsJob(l, x);
    }
    forall x | x in mid.finished
      ensures IsJob(mid, x) || IsCompletion(mid, x)
    {
      assert IsJob(l, x) || IsCompletion(l, x);
    }
    CompletionAdded(l, mid, m, r);
  }
}
