/** The table of waiting requests as the proxy keeps it. */
module RequestProxy {
  import opened ConnectionModel
  import opened RequestModel

  class Requests {
    var pendingRequests: seq<Request>
    var fired: seq<Fired>
    ghost var issued: seq<Request>
    ghost var received: seq<Message>

    ghost function View(): State
      reads this
    {
      State(pendingRequests, fired, issued, received)
    }

    constructor ()
      ensures View() == State([], [], [], [])
    {
      pendingRequests, fired, issued, received := [], [], [], [];
    }

    method FindRequest(tag: string) returns (it: nat)
      ensures it == Find(pendingRequests, tag, 0)
    {
      it := 0;
      while it < |pendingRequests| && pendingRequests[it].tag != tag
        invariant 0 <= it <= |pendingRequests| && Find(pendingRequests, tag, it) == Find(pendingRequests, tag, 0)
      {
        it := it + 1;
      }
    }

    /** The end of a send: the request waits if its message went out, and fails otherwise. */
    method FinishSend(r: Request, sent: bool)
      modifies this
      ensures View() == Send(old(View()), r, sent)
    {
      issued := issued + [r];
      if sent {
        var it := FindRequest(r.tag);
        if it == |pendingRequests| {
          pendingRequests := pendingRequests + [r];
        }
      } else {
        fired := fired + [Fired(r.tag, r.callback, false, ["TIMEOUT"])];
      }
    }

    method SettleRequest(tag: string, success: bool, data: seq<string>)
      modifies this
      ensures View() == SettleTag(old(View()), tag, success, data)
    {
      var it := FindRequest(tag);
      if it != |pendingRequests| {
        fired := fired + [Fired(pendingRequests[it].tag, pendingRequests[it].callback, success, data)];
        pendingRequests := RemoveAt(pendingRequests, it);
      }
    }

    /** REPLY and error responses; any other message leaves the requests alone. */
    method HandleMessage(m: Message)
      modifies this
      ensures View() == Handle(old(View()), m)
    {
      hide SettleTag, IsError;
      received := received + [m];
      var first := if m.incoming then 1 else 0;
      if |m.parts| < 1 + first {
        return;
      }
      var cmd := m.parts[first];
      if cmd == "REPLY" {
        if |m.parts| <= 1 + first {
          return;
        }
        var data: seq<string> := [];
        for i := 2 + first to |m.parts|
          invariant data == m.parts[2 + first..i]
          invariant View() == old(View()).(received := old(received) + [m])
        {
          data := data + [m.parts[i]];
        }
        assert data == Body(m)[2..];
        SettleRequest(m.parts[1 + first], true, data);
      } else if IsError(cmd) {
        if |m.parts| == 3 + first && m.parts[1 + first] == "REPLY" {
          SettleRequest(m.parts[2 + first], false, [cmd]);
        }
      }
    }

    method ExpireRequests(now: int)
      modifies this
      ensures View() == Expire(old(View()), 0, now)
    {
      var it := 0;
      while it < |pendingRequests|
        invariant 0 <= it <= |pendingRequests| && Expire(View(), it, now) == Expire(old(View()), 0, now)
        decreases |pendingRequests| - it
      {
        var r := pendingRequests[it];
        if r.deadline < now {
          fired := fired + [Fired(r.tag, r.callback, false, ["TIMEOUT"])];
          pendingRequests := RemoveAt(pendingRequests, it);
        } else {
          it := it + 1;
        }
      }
    }
  }
}
