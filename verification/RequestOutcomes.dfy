/** What becomes of every request: which events settle it, and how. */
module RequestOutcomes {
  import opened ConnectionModel
  import opened RequestModel
  import opened RequestRuns

  // ----- messages -----

  /** The message consists of `parts`, after a route if it came in on a listener. */
  predicate Consists(m: Message, parts: seq<string>) {
    if m.incoming then m.parts != [] && m.parts[1..] == parts else m.parts == parts
  }

  predicate IsReply(m: Message, tag: string, data: seq<string>) {
    Consists(m, ["REPLY", tag] + data)
  }

  predicate IsRefusal(m: Message, tag: string, cmd: string) {
    cmd in {"FORBIDDEN", "FORBIDDEN_SN", "NOT_A_SERVICE_NODE", "UNKNOWNCOMMAND", "NO_REPLY_TAG"} && Consists(m, [cmd, "REPLY", tag])
  }

  /** What a message does to the request it answers: success with the data, or failure with the error. */
  datatype Answer = Success(data: seq<string>) | Refusal(cmd: string)

  predicate Gives(m: Message, tag: string, a: Answer) {
    match a
    case Success(data) => IsReply(m, tag, data)
    case Refusal(cmd) => IsRefusal(m, tag, cmd)
  }

  function Outcome(r: Request, a: Answer): Fired {
    match a
    case Success(data) => Fired(r.tag, r.callback, true, data)
    case Refusal(cmd) => Fired(r.tag, r.callback, false, [cmd])
  }

  predicate Distinct(pending: seq<Request>) {
    forall j, k | 0 <= j < k < |pending| :: pending[j].tag != pending[k].tag
  }

  lemma FindIs(pending: seq<Request>, k: nat)
    requires Distinct(pending) && k < |pending|
    ensures Find(pending, pending[k].tag, 0) == k
  {
  }

  /** The body of a message that answers, as `Handle` reads it. */
  lemma GivesBody(m: Message, tag: string, a: Answer)
    requires Gives(m, tag, a)
    ensures match a
            case Success(data) => Body(m) == ["REPLY", tag] + data && Body(m)[2..] == data
            case Refusal(cmd) => Body(m) == [cmd, "REPLY", tag] && IsError(cmd) && cmd != "REPLY"
  {
  }

  /** An answer settles exactly the waiting request whose tag it bears, as the answer says. */
  lemma AnswerSettles(s: State, m: Message, k: nat, a: Answer)
    requires Distinct(s.pending) && k < |s.pending| && Gives(m, s.pending[k].tag, a)
    ensures Handle(s, m) == State(RemoveAt(s.pending, k), s.fired + [Outcome(s.pending[k], a)], s.issued, s.received + [m])
  {
    GivesBody(m, s.pending[k].tag, a);
    FindIs(s.pending, k);
    hide Find, Gives, IsError;
  }

  /** A message that answers no waiting request changes none of them. */
  lemma OtherwiseSilent(s: State, m: Message)
    requires forall k: nat, a | k < |s.pending| :: !Gives(m, s.pending[k].tag, a)
    ensures Handle(s, m) == s.(received := s.received + [m])
  {
    var body := Body(m);
    if |body| >= 2 && body[0] == "REPLY" {
      assert body == ["REPLY", body[1]] + body[2..];
      assert Gives(m, body[1], Success(body[2..]));
    } else if |body| == 3 && IsError(body[0]) && body[1] == "REPLY" {
      assert body == [body[0], "REPLY", body[2]];
      assert Gives(m, body[2], Refusal(body[0]));
    }
  }

  // ----- one event -----

  /** The event hands over a callback with outcome `f`. */
  ghost predicate Fires(s: State, e: Event, f: Fired) {
    match e
    case SendEvent(r, sent) => !sent && f == Fired(r.tag, r.callback, false, ["TIMEOUT"])
    case MessageEvent(m) => exists k: nat, a :: k < |s.pending| && Gives(m, s.pending[k].tag, a) && f == Outcome(s.pending[k], a)
    case ExpireEvent(now) =>
      exists k: nat :: k < |s.pending| && Late(s.pending[k], now) && f == Fired(s.pending[k].tag, s.pending[k].callback, false, ["TIMEOUT"])
  }

  predicate Late(r: Request, now: int) {
    r.deadline < now
  }

  lemma {:induction false} WaitingMember(q: seq<Request>, now: int, r: Request)
    ensures r in Waiting(q, now) <==> r in q && !Late(r, now)
  {
    if q != [] {
      WaitingMember(q[1..], now, r);
      assert q == [q[0]] + q[1..];
    }
  }

  lemma {:induction false} OverdueMember(q: seq<Request>, now: int, f: Fired)
    ensures f in Overdue(q, now) <==>
            exists k: nat :: k < |q| && Late(q[k], now) && f == Fired(q[k].tag, q[k].callback, false, ["TIMEOUT"])
  {
    if q != [] {
      OverdueMember(q[1..], now, f);
      if k: nat :| k < |q| && Late(q[k], now) && f == Fired(q[k].tag, q[k].callback, false, ["TIMEOUT"]) {
        if k > 0 { assert q[1..][k - 1] == q[k]; }
      }
      if k: nat :| k < |q[1..]| && Late(q[1..][k], now) && f == Fired(q[1..][k].tag, q[1..][k].callback, false, ["TIMEOUT"]) {
        assert q[k + 1] == q[1..][k];
      }
    }
  }

  /** The event takes the request `r` off the waiting ones. */
  ghost predicate Ends(s: State, e: Event, r: Request) {
    exists f :: Fires(s, e, f) && f.tag == r.tag
  }

  lemma ExpireFires(s: State, now: int, f: Fired)
    ensures f in Expire(s, 0, now).fired <==> f in s.fired || Fires(s, ExpireEvent(now), f)
  {
    ExpireExact(s, 0, now);
    assert s.pending[0..] == s.pending;
    hide Expire, Waiting, Overdue;
    OverdueMember(s.pending, now, f);
  }

  lemma ExpireLeaves(s: State, now: int, r: Request)
    requires Distinct(s.pending)
    ensures r in Expire(s, 0, now).pending <==> r in s.pending && !Ends(s, ExpireEvent(now), r)
  {
    ExpireExact(s, 0, now);
    assert s.pending[0..] == s.pending && s.pending[..0] == [];
    hide Expire, Waiting, Overdue;
    WaitingMember(s.pending, now, r);
    if r in s.pending { EndsWhenLate(s, now, r); }
  }

  lemma EndsWhenLate(s: State, now: int, r: Request)
    requires Distinct(s.pending) && r in s.pending
    ensures Ends(s, ExpireEvent(now), r) <==> Late(r, now)
  {
    var k :| 0 <= k < |s.pending| && s.pending[k] == r;
    if Late(r, now) {
      assert Fires(s, ExpireEvent(now), Fired(r.tag, r.callback, false, ["TIMEOUT"]));
    }
    if f :| Fires(s, ExpireEvent(now), f) && f.tag == r.tag {
      var j: nat :| j < |s.pending| && Late(s.pending[j], now) && f == Fired(s.pending[j].tag, s.pending[j].callback, false, ["TIMEOUT"]);
      assert j == k;
    }
  }

  lemma MessageFires(s: State, m: Message, f: Fired, r: Request)
    requires Distinct(s.pending)
    ensures f in Handle(s, m).fired <==> f in s.fired || Fires(s, MessageEvent(m), f)
    ensures r in Handle(s, m).pending <==> r in s.pending && !Ends(s, MessageEvent(m), r)
  {
    if k: nat, a :| k < |s.pending| && Gives(m, s.pending[k].tag, a) {
      AnswerSettles(s, m, k, a);
      OneAnswer(s, m, k, a);
      hide Handle, Gives;
      assert Fires(s, MessageEvent(m), Outcome(s.pending[k], a));
      RemovedMember(s.pending, k, r);
    } else {
      OtherwiseSilent(s, m);
    }
  }

  lemma RemovedMember(q: seq<Request>, k: nat, r: Request)
    requires Distinct(q) && k < |q|
    ensures r in RemoveAt(q, k) <==> r in q && r.tag != q[k].tag
  {
    var p := RemoveAt(q, k);
    if r in q && r.tag != q[k].tag {
      var j :| 0 <= j < |q| && q[j] == r;
      assert p[if j < k then j else j - 1] == r;
    }
    if r in p {
      var j :| 0 <= j < |p| && p[j] == r;
      assert r == q[if j < k then j else j + 1];
    }
  }

  /** A message answers one request in one way. */
  lemma OneAnswer(s: State, m: Message, k: nat, a: Answer)
    requires Distinct(s.pending) && k < |s.pending| && Gives(m, s.pending[k].tag, a)
    ensures forall j: nat, b | j < |s.pending| && Gives(m, s.pending[j].tag, b) :: j == k && b == a
  {
    forall j: nat, b | j < |s.pending| && Gives(m, s.pending[j].tag, b) ensures j == k && b == a {
      GivesBody(m, s.pending[k].tag, a);
      GivesBody(m, s.pending[j].tag, b);
      assert Body(m)[0] == Body(m)[0] && Body(m)[1] == Body(m)[1];
      assert |Body(m)| == 3 ==> Body(m)[2] == Body(m)[2];
    }
  }

  /** Which callbacks an event hands over and which requests wait afterwards. */
  lemma StepFires(s: State, e: Event, f: Fired, r: Request)
    requires Inv(s) && Enabled(s, e)
    ensures f in Step(s, e).fired <==> f in s.fired || Fires(s, e, f)
    ensures r in Step(s, e).pending <==> (r in s.pending && !Ends(s, e, r)) || e == SendEvent(r, true)
  {
    assert Distinct(s.pending);
    match e {
      case SendEvent(q, sent) => FreshIsFree(s, q.tag);
      case MessageEvent(m) =>
        hide Inv;
        MessageFires(s, m, f, r);
      case ExpireEvent(now) =>
        hide Inv;
        ExpireFires(s, now, f);
        ExpireLeaves(s, now, r);
    }
  }

  // ----- runs -----

  ghost predicate FiredBy(run: seq<State>, events: seq<Event>, n: nat, f: Fired)
    requires n <= |events| < |run|
  {
    exists j :: 0 <= j < n && Fires(run[j], events[j], f)
  }

  /**
   Over any run, the callbacks handed over are exactly those of requests that were not sent, that got an answer while
   they waited, or that were found late, each with the outcome that belongs to it.
   */
  lemma {:induction false} OutcomesOverRuns(run: seq<State>, events: seq<Event>, n: nat, f: Fired)
    requires IsRun(run, events) && |run| == |events| + 1 && n <= |events|
    ensures f in run[n].fired <==> FiredBy(run, events, n, f)
  {
    hide Inv, Step, Enabled, Fires;
    if n > 0 {
      OutcomesOverRuns(run, events, n - 1, f);
      RunKeeps(run, events, n - 1);
      StepFires(run[n - 1], events[n - 1], f, Request("", 0, 0));
      assert FiredBy(run, events, n, f) <==> FiredBy(run, events, n - 1, f) || Fires(run[n - 1], events[n - 1], f);
    }
  }

  ghost predicate SentBefore(events: seq<Event>, n: nat, r: Request)
    requires n <= |events|
  {
    exists j :: 0 <= j < n && events[j] == SendEvent(r, true)
  }

  ghost predicate HasFired(s: State, tag: string) {
    exists f :: f in s.fired && f.tag == tag
  }

  /** Over any run, the waiting requests are exactly those that were sent and whose callback has not been handed over. */
  lemma {:induction false} WaitingOverRuns(run: seq<State>, events: seq<Event>, n: nat, r: Request)
    requires IsRun(run, events) && |run| == |events| + 1 && n <= |events|
    ensures r in run[n].pending <==> SentBefore(events, n, r) && !HasFired(run[n], r.tag)
  {
    hide Inv, Step, Fires;
    if n > 0 {
      var s, e := run[n - 1], events[n - 1];
      WaitingOverRuns(run, events, n - 1, r);
      RunKeeps(run, events, n - 1);
      RunKeeps(run, events, n);
      assert SentBefore(events, n, r) <==> SentBefore(events, n - 1, r) || e == SendEvent(r, true);
      StepWaiting(s, e, r);
    }
  }

  lemma StepWaiting(s: State, e: Event, r: Request)
    requires Inv(s) && Enabled(s, e)
    ensures r in Step(s, e).pending <==> (r in s.pending && !Ends(s, e, r)) || e == SendEvent(r, true)
    ensures HasFired(Step(s, e), r.tag) <==> HasFired(s, r.tag) || Ends(s, e, r)
    ensures e == SendEvent(r, true) ==> !HasFired(Step(s, e), r.tag)
  {
    var t := Step(s, e);
    StepFires(s, e, Fired("", 0, false, []), r);
    if f :| f in t.fired && f.tag == r.tag { StepFires(s, e, f, r); }
    if f :| f in s.fired && f.tag == r.tag { StepFires(s, e, f, r); }
    if f :| Fires(s, e, f) && f.tag == r.tag { StepFires(s, e, f, r); }
    if e == SendEvent(r, true) {
      FreshIsFree(s, r.tag);
      assert t.fired == s.fired;
    }
  }

  /** A sent request succeeds if and only if a REPLY with its tag arrives while it waits, and then with that data. */
  lemma SuccessExactly(run: seq<State>, events: seq<Event>, n: nat, r: Request, data: seq<string>)
    requires IsRun(run, events) && |run| == |events| + 1 && n <= |events| && SentBefore(events, n, r)
    ensures Fired(r.tag, r.callback, true, data) in run[n].fired <==>
            exists j :: 0 <= j < n && r in run[j].pending && Replies(events[j], r.tag, data)
  {
    var f := Fired(r.tag, r.callback, true, data);
    hide IsRun, Inv, Step, Enabled;
    OutcomesOverRuns(run, events, n, f);
    if f in run[n].fired {
      var j :| 0 <= j < n && Fires(run[j], events[j], f);
      assert events[j].MessageEvent?;
      var k: nat, a :| k < |run[j].pending| && Gives(events[j].message, run[j].pending[k].tag, a) && f == Outcome(run[j].pending[k], a);
      OwnRequest(run, events, j, n, run[j].pending[k], r);
      assert r in run[j].pending && Replies(events[j], r.tag, data);
    }
    if j :| 0 <= j < n && r in run[j].pending && Replies(events[j], r.tag, data) {
      var k :| 0 <= k < |run[j].pending| && run[j].pending[k] == r;
      assert Gives(events[j].message, run[j].pending[k].tag, Success(data)) && f == Outcome(run[j].pending[k], Success(data));
      assert Fires(run[j], events[j], f);
    }
  }

  predicate Replies(e: Event, tag: string, data: seq<string>) {
    e.MessageEvent? && IsReply(e.message, tag, data)
  }

  /** Tags tell requests apart. */
  lemma OwnRequest(run: seq<State>, events: seq<Event>, j: nat, n: nat, q: Request, r: Request)
    requires IsRun(run, events) && |run| == |events| + 1 && j <= n <= |events| && q in run[j].pending
    requires SentBefore(events, n, r) && q.tag == r.tag
    ensures q == r
  {
    WaitingOverRuns(run, events, j, q);
    var a :| 0 <= a < j && events[a] == SendEvent(q, true);
    var b :| 0 <= b < n && events[b] == SendEvent(r, true);
    hide IsRun, Step;
    if a < b { SentOnce(run, events, a, b); } else if b < a { SentOnce(run, events, b, a); }
  }

  lemma SentOnce(run: seq<State>, events: seq<Event>, a: nat, b: nat)
    requires IsRun(run, events) && |run| == |events| + 1 && a < b < |events| && events[a].SendEvent? && events[b].SendEvent?
    ensures events[a].request.tag != events[b].request.tag
  {
    hide IsRun, Step;
    StepAt(run, events, a);
    IssuedStays(run, events, a + 1, b, events[a].request);
    StepAt(run, events, b);
  }

  lemma StepAt(run: seq<State>, events: seq<Event>, i: nat)
    requires IsRun(run, events) && i < |events|
    ensures |run| == |events| + 1 && Enabled(run[i], events[i]) && run[i + 1] == Step(run[i], events[i])
    ensures events[i].SendEvent? ==> events[i].request in run[i + 1].issued
  {
  }

  lemma {:induction false} IssuedStays(run: seq<State>, events: seq<Event>, i: nat, j: nat, r: Request)
    requires IsRun(run, events) && |run| == |events| + 1 && i <= j <= |events| && r in run[i].issued
    ensures r in run[j].issued
  {
    if i < j {
      IssuedStays(run, events, i, j - 1, r);
      StepAt(run, events, j - 1);
      hide IsRun;
      StepIssues(run[j - 1], events[j - 1]);
    }
  }

  lemma StepIssues(s: State, e: Event)
    ensures s.issued <= Step(s, e).issued
  {
    if e.ExpireEvent? { ExpireIssues(s, 0, e.now); }
  }

  lemma {:induction false} ExpireIssues(s: State, k: nat, now: int)
    requires k <= |s.pending|
    ensures Expire(s, k, now).issued == s.issued
    decreases |s.pending| - k
  {
    if k < |s.pending| {
      if s.pending[k].deadline < now {
        ExpireIssues(Settle(s, k, false, ["TIMEOUT"]), k, now);
      } else {
        ExpireIssues(s, k + 1, now);
      }
    }
  }
}
