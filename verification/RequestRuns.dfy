/** Every request callback is waiting or has been handed to exactly one job, over whole runs. */
module RequestRuns {
  import opened ConnectionModel
  import opened RequestModel

  function CallbackList(s: seq<Request>): seq<nat> {
    seq(|s|, i requires 0 <= i < |s| => s[i].callback)
  }

  function FiredList(s: seq<Fired>): seq<nat> {
    seq(|s|, i requires 0 <= i < |s| => s[i].callback)
  }

  function Callbacks(s: seq<Request>): multiset<nat> {
    multiset(CallbackList(s))
  }

  function FiredCallbacks(s: seq<Fired>): multiset<nat> {
    multiset(FiredList(s))
  }

  /** Nothing is lost and nothing is used twice. */
  predicate Conserved(s: State) {
    Callbacks(s.issued) == Callbacks(s.pending) + FiredCallbacks(s.fired)
  }

  /** Each tag is in one place only, and belongs to a request that was made. */
  predicate TagsOk(s: State) {
    && (forall j, k | 0 <= j < k < |s.pending| :: s.pending[j].tag != s.pending[k].tag)
    && (forall j, k | 0 <= j < k < |s.fired| :: s.fired[j].tag != s.fired[k].tag)
    && (forall j, k | 0 <= j < |s.pending| && 0 <= k < |s.fired| :: s.pending[j].tag != s.fired[k].tag)
    && (forall k | 0 <= k < |s.pending| :: s.pending[k] in s.issued)
  }

  predicate Bears(m: Message, tag: string, data: seq<string>) {
    var body := Body(m);
    |body| >= 2 && body[0] == "REPLY" && body[1] == tag && body[2..] == data
  }

  /** A callback fires for its own request, and with success only on a reply with that tag and that data. */
  predicate FiredOk(s: State, f: Fired) {
    && (exists k | 0 <= k < |s.issued| :: s.issued[k].tag == f.tag && s.issued[k].callback == f.callback)
    && (f.success ==> exists k | 0 <= k < |s.received| :: Bears(s.received[k], f.tag, f.data))
  }

  predicate Inv(s: State) {
    Conserved(s) && TagsOk(s) && forall k | 0 <= k < |s.fired| :: FiredOk(s, s.fired[k])
  }

  // ----- counting callbacks -----

  lemma CallbacksAdd(s: seq<Request>, r: Request)
    ensures Callbacks(s + [r]) == Callbacks(s) + multiset{r.callback}
  {
    assert CallbackList(s + [r]) == CallbackList(s) + [r.callback];
  }

  lemma FiredAdd(s: seq<Fired>, f: Fired)
    ensures FiredCallbacks(s + [f]) == FiredCallbacks(s) + multiset{f.callback}
  {
    assert FiredList(s + [f]) == FiredList(s) + [f.callback];
  }

  lemma CallbacksRemove(s: seq<Request>, n: nat)
    requires n < |s|
    ensures Callbacks(s) == Callbacks(RemoveAt(s, n)) + multiset{s[n].callback}
  {
    var c := CallbackList(s);
    assert CallbackList(RemoveAt(s, n)) == c[..n] + c[n + 1..];
    hide CallbackList;
    TakenOut(c, n);
  }

  lemma TakenOut(c: seq<nat>, n: nat)
    requires n < |c|
    ensures multiset(c) == multiset(c[..n] + c[n + 1..]) + multiset{c[n]}
  {
    var a, x, b := c[..n], c[n], c[n + 1..];
    assert c == a + ([x] + b);
  }

  // ----- one outcome -----

  lemma SettleKeeps(s: State, n: nat, success: bool, data: seq<string>)
    requires Inv(s) && n < |s.pending|
    requires success ==> exists k | 0 <= k < |s.received| :: Bears(s.received[k], s.pending[n].tag, data)
    ensures Inv(Settle(s, n, success, data))
  {
    var r, u := s.pending[n], Settle(s, n, success, data);
    var f := Fired(r.tag, r.callback, success, data);
    CallbacksRemove(s.pending, n);
    FiredAdd(s.fired, f);
    assert Conserved(u);
    assert r in s.issued;
    SettleTags(s, n, f);
    hide Callbacks, FiredCallbacks, Bears;
    forall k | 0 <= k < |u.fired| ensures FiredOk(u, u.fired[k]) {
      if k < |s.fired| { assert FiredOk(s, s.fired[k]); }
    }
  }

  lemma SettleTags(s: State, n: nat, f: Fired)
    requires TagsOk(s) && n < |s.pending| && f.tag == s.pending[n].tag
    ensures TagsOk(s.(pending := RemoveAt(s.pending, n), fired := s.fired + [f]))
  {
  }

  lemma SettleTagKeeps(s: State, tag: string, success: bool, data: seq<string>)
    requires Inv(s) && (success ==> exists k | 0 <= k < |s.received| :: Bears(s.received[k], tag, data))
    ensures Inv(SettleTag(s, tag, success, data))
  {
    hide Inv, Settle;
    var n := Find(s.pending, tag, 0);
    if n < |s.pending| { SettleKeeps(s, n, success, data); }
  }

  // ----- the operations -----

  /** With an untaken tag nothing is lost; a sent request under a taken tag loses its callback. */
  lemma SendConserves(s: State, r: Request, sent: bool)
    requires Conserved(s)
    ensures Conserved(Send(s, r, sent)) <==> !(sent && IsPending(s, r.tag))
  {
    CallbacksAdd(s.issued, r);
    CallbacksAdd(s.pending, r);
    FiredAdd(s.fired, Fired(r.tag, r.callback, false, ["TIMEOUT"]));
    hide Callbacks, FiredCallbacks, IsPending;
    OneMore(Callbacks(s.pending) + FiredCallbacks(s.fired), r.callback);
  }

  /** Two requests sent under one tag: the second one's callback is neither waiting nor fired. */
  lemma SharedTagLoses(tag: string, first: nat, second: nat)
    ensures var s := Send(Send(State([], [], [], []), Request(tag, 0, first), true), Request(tag, 0, second), true);
            && !Conserved(s)
            && Callbacks(s.issued) == multiset{first, second}
            && Callbacks(s.pending) == multiset{first} && FiredCallbacks(s.fired) == multiset{}
  {
    var a := Request(tag, 0, first);
    var t := Send(State([], [], [], []), a, true);
    assert t.pending == [a] && t.issued == [a];
    assert t.pending[0].tag == tag;
    SendConserves(t, Request(tag, 0, second), true);
    assert CallbackList([a]) == [first];
    assert CallbackList([a] + [Request(tag, 0, second)]) == [first, second];
  }

  lemma OneMore(m: multiset<nat>, c: nat)
    ensures m + multiset{c} != m
  {
    assert (m + multiset{c})[c] == m[c] + 1;
  }

  predicate FreshTag(s: State, tag: string) {
    forall k | 0 <= k < |s.issued| :: s.issued[k].tag != tag
  }

  lemma FreshIsFree(s: State, tag: string)
    requires Inv(s) && FreshTag(s, tag)
    ensures !IsPending(s, tag) && forall k | 0 <= k < |s.fired| :: s.fired[k].tag != tag
  {
    hide Conserved, Callbacks, FiredCallbacks, Bears;
    forall k | 0 <= k < |s.pending| ensures s.pending[k].tag != tag {
      assert s.pending[k] in s.issued;
    }
    forall k | 0 <= k < |s.fired| ensures s.fired[k].tag != tag {
      assert FiredOk(s, s.fired[k]);
    }
  }

  lemma SendKeeps(s: State, r: Request, sent: bool)
    requires Inv(s) && FreshTag(s, r.tag)
    ensures Inv(Send(s, r, sent))
  {
    FreshIsFree(s, r.tag);
    SendConserves(s, r, sent);
    SendTags(s, r, sent);
    hide Conserved, IsPending, FreshTag, TagsOk, FiredOk;
    var u := Send(s, r, sent);
    forall k | 0 <= k < |u.fired| ensures FiredOk(u, u.fired[k]) {
      if k < |s.fired| { StillFired(s, u, s.fired[k]); } else { FailedSend(u, r); }
    }
  }

  /** The failure of the request just issued is its own. */
  lemma FailedSend(u: State, r: Request)
    requires u.issued != [] && u.issued[|u.issued| - 1] == r
    ensures FiredOk(u, Fired(r.tag, r.callback, false, ["TIMEOUT"]))
  {
  }

  lemma StillFired(s: State, u: State, f: Fired)
    requires FiredOk(s, f) && s.issued <= u.issued && s.received <= u.received
    ensures FiredOk(u, f)
  {
    hide Bears;
    var k :| 0 <= k < |s.issued| && s.issued[k].tag == f.tag && s.issued[k].callback == f.callback;
    assert u.issued[k] == s.issued[k];
    if f.success {
      var j :| 0 <= j < |s.received| && Bears(s.received[j], f.tag, f.data);
      assert u.received[j] == s.received[j];
    }
  }

  lemma SendTags(s: State, r: Request, sent: bool)
    requires TagsOk(s) && !IsPending(s, r.tag) && forall k | 0 <= k < |s.fired| :: s.fired[k].tag != r.tag
    ensures TagsOk(Send(s, r, sent))
  {
  }

  lemma ReceiveKeeps(s: State, m: Message)
    requires Inv(s)
    ensures Inv(s.(received := s.received + [m]))
  {
    hide Conserved, Bears;
    var u := s.(received := s.received + [m]);
    assert Conserved(u) by { SameCallbacks(s, u); }
    forall k | 0 <= k < |u.fired| ensures FiredOk(u, u.fired[k]) { StillFired(s, u, s.fired[k]); }
  }

  lemma SameCallbacks(s: State, u: State)
    requires Conserved(s) && s.issued == u.issued && s.pending == u.pending && s.fired == u.fired
    ensures Conserved(u)
  {
  }

  lemma HandleKeeps(s: State, m: Message)
    requires Inv(s)
    ensures Inv(Handle(s, m))
  {
    ReceiveKeeps(s, m);
    var u, body := s.(received := s.received + [m]), Body(m);
    if |body| >= 2 && body[0] == "REPLY" {
      assert Bears(u.received[|s.received|], body[1], body[2..]);
      SettleTagKeeps(u, body[1], true, body[2..]);
    } else if |body| == 3 && body[1] == "REPLY" {
      SettleTagKeeps(u, body[2], false, [body[0]]);
    }
    hide Inv, SettleTag, IsError;
  }

  lemma {:induction false} ExpireKeeps(s: State, k: nat, now: int)
    requires Inv(s) && k <= |s.pending|
    ensures Inv(Expire(s, k, now))
    decreases |s.pending| - k
  {
    hide Inv;
    if k < |s.pending| {
      if s.pending[k].deadline < now {
        SettleKeeps(s, k, false, ["TIMEOUT"]);
        ExpireKeeps(Settle(s, k, false, ["TIMEOUT"]), k, now);
      } else {
        ExpireKeeps(s, k + 1, now);
      }
    }
  }

  // ----- what expiry does -----

  function Waiting(s: seq<Request>, now: int): seq<Request> {
    if s == [] then [] else if s[0].deadline < now then Waiting(s[1..], now) else [s[0]] + Waiting(s[1..], now)
  }

  function Overdue(s: seq<Request>, now: int): seq<Fired> {
    if s == [] then []
    else if s[0].deadline < now then [Fired(s[0].tag, s[0].callback, false, ["TIMEOUT"])] + Overdue(s[1..], now)
    else Overdue(s[1..], now)
  }

  /** Exactly the overdue requests fail, each once and in order. */
  lemma {:induction false} ExpireExact(s: State, k: nat, now: int)
    requires k <= |s.pending|
    ensures Expire(s, k, now).pending == s.pending[..k] + Waiting(s.pending[k..], now)
    ensures Expire(s, k, now).fired == s.fired + Overdue(s.pending[k..], now)
    decreases |s.pending| - k
  {
    var p := s.pending;
    if k == |p| {
      assert p[..k] == p && p[k..] == [];
    } else {
      assert p[k..][0] == p[k] && p[k..][1..] == p[k + 1..];
      if p[k].deadline < now {
        ExpireExact(Settle(s, k, false, ["TIMEOUT"]), k, now);
        assert RemoveAt(p, k)[..k] == p[..k] && RemoveAt(p, k)[k..] == p[k + 1..];
        var f, more := [Fired(p[k].tag, p[k].callback, false, ["TIMEOUT"])], Overdue(p[k + 1..], now);
        assert s.fired + f + more == s.fired + (f + more);
      } else {
        ExpireExact(s, k + 1, now);
        assert p[..k + 1] == p[..k] + [p[k]];
      }
    }
  }

  // ----- runs -----

  datatype Event = SendEvent(request: Request, sent: bool) | MessageEvent(message: Message) | ExpireEvent(now: int)

  /** Tags are random; a run is one in which no two requests drew the same. */
  predicate Enabled(s: State, e: Event) {
    e.SendEvent? ==> FreshTag(s, e.request.tag)
  }

  function Step(s: State, e: Event): State {
    match e
    case SendEvent(r, sent) => Send(s, r, sent)
    case MessageEvent(m) => Handle(s, m)
    case ExpireEvent(now) => Expire(s, 0, now)
  }

  predicate IsRun(run: seq<State>, events: seq<Event>) {
    && |run| == |events| + 1 && run[0] == State([], [], [], [])
    && forall i | 0 <= i < |events| :: Enabled(run[i], events[i]) && run[i + 1] == Step(run[i], events[i])
  }

  lemma StepKeeps(s: State, e: Event)
    requires Inv(s) && Enabled(s, e)
    ensures Inv(Step(s, e))
  {
    hide Inv, Send, Handle, Expire;
    match e {
      case SendEvent(r, sent) => SendKeeps(s, r, sent);
      case MessageEvent(m) => HandleKeeps(s, m);
      case ExpireEvent(now) => ExpireKeeps(s, 0, now);
    }
  }

  lemma {:induction false} RunKeeps(run: seq<State>, events: seq<Event>, n: nat)
    requires IsRun(run, events) && n < |run|
    ensures Inv(run[n])
  {
    if n > 0 {
      hide Inv, Step;
      RunKeeps(run, events, n - 1);
      StepKeeps(run[n - 1], events[n - 1]);
    }
  }

  /**
   In every state of a run: each callback is either still waiting or was handed to exactly one job, no tag
   fires twice, and a success carries the data of a received REPLY with the request's own tag.
   */
  lemma CallbacksOverRuns(run: seq<State>, events: seq<Event>, n: nat)
    requires IsRun(run, events) && n < |run|
    ensures Callbacks(run[n].issued) == Callbacks(run[n].pending) + FiredCallbacks(run[n].fired)
    ensures forall j, k | 0 <= j < k < |run[n].fired| :: run[n].fired[j].tag != run[n].fired[k].tag
    ensures forall j, k | 0 <= j < |run[n].pending| && 0 <= k < |run[n].fired| :: run[n].pending[j].tag != run[n].fired[k].tag
    ensures forall k | 0 <= k < |run[n].fired| :: FiredOk(run[n], run[n].fired[k])
  {
    RunKeeps(run, events, n);
    hide IsRun;
  }
}
