/** Requests that wait for a reply, and the callbacks that were handed to jobs. */
module RequestModel {
  import opened ConnectionModel

  datatype Request = Request(tag: string, deadline: int, callback: nat)

  /** A callback handed to a job, with its outcome. */
  datatype Fired = Fired(tag: string, callback: nat, success: bool, data: seq<string>)

  /** A message on a connection; on an incoming one the first part is the route. */
  datatype Message = Message(incoming: bool, parts: seq<string>)

  /** `issued` and `received` record everything that was requested and everything that came in. */
  datatype State = State(pending: seq<Request>, fired: seq<Fired>, issued: seq<Request>, received: seq<Message>)

  function Find(pending: seq<Request>, tag: string, k: nat): (n: nat)
    requires k <= |pending|
    ensures k <= n <= |pending| && (n < |pending| ==> pending[n].tag == tag)
    ensures forall j | k <= j < n :: pending[j].tag != tag
    decreases |pending| - k
  {
    if k == |pending| || pending[k].tag == tag then k else Find(pending, tag, k + 1)
  }

  predicate IsPending(s: State, tag: string) {
    exists k | 0 <= k < |s.pending| :: s.pending[k].tag == tag
  }

  /** A sent request waits under its tag unless the tag is taken; one that was not sent fails at once. */
  function Send(s: State, r: Request, sent: bool): State {
    var u := s.(issued := s.issued + [r]);
    if !sent then u.(fired := s.fired + [Fired(r.tag, r.callback, false, ["TIMEOUT"])])
    else if IsPending(s, r.tag) then u
    else u.(pending := s.pending + [r])
  }

  /** The request at `n` gets its outcome. */
  function Settle(s: State, n: nat, success: bool, data: seq<string>): State
    requires n < |s.pending|
  {
    var r := s.pending[n];
    s.(pending := RemoveAt(s.pending, n), fired := s.fired + [Fired(r.tag, r.callback, success, data)])
  }

  function SettleTag(s: State, tag: string, success: bool, data: seq<string>): State {
    var n := Find(s.pending, tag, 0);
    if n == |s.pending| then s else Settle(s, n, success, data)
  }

  predicate IsError(cmd: string) {
    cmd == "FORBIDDEN" || cmd == "FORBIDDEN_SN" || cmd == "NOT_A_SERVICE_NODE" || cmd == "UNKNOWNCOMMAND" || cmd == "NO_REPLY_TAG"
  }

  /** The message's parts from the command on. */
  function Body(m: Message): seq<string> {
    if !m.incoming then m.parts else if m.parts == [] then [] else m.parts[1..]
  }

  function Handle(s: State, m: Message): State {
    var u, body := s.(received := s.received + [m]), Body(m);
    if body == [] then u
    else if body[0] == "REPLY" then
      if |body| <= 1 then u else SettleTag(u, body[1], true, body[2..])
    else if IsError(body[0]) && |body| == 3 && body[1] == "REPLY" then SettleTag(u, body[2], false, [body[0]])
    else u
  }

  /** Fails the requests whose time has run out. */
  function Expire(s: State, k: nat, now: int): State
    requires k <= |s.pending|
    decreases |s.pending| - k
  {
    if k == |s.pending| then s
    else if s.pending[k].deadline < now then Expire(Settle(s, k, false, ["TIMEOUT"]), k, now)
    else Expire(s, k + 1, now)
  }
}
