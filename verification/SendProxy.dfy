/** Building a control dict option by option, and reading it back with a dict consumer. */
module SendProxy {
  import opened Basics
  import opened BencodeModel
  import opened BencodeSeek
  import opened BencodeConsumers
  import opened SendOptions

  method BuildControl(to: Destination, cmd: string, opts: seq<SendOption>) returns (control: seq<Entry>)
    ensures control == BuildSend(to, cmd, opts, NoRequest)
  {
    hide Put;
    control := [];
    var parts := [View(cmd)];
    for i := 0 to |opts|
      invariant control == ApplyOptions(opts[..i]) && parts == [View(cmd)] + Parts(opts[..i])
    {
      assert opts[..i + 1][..i] == opts[..i];
      match opts[i] {
        case Part(text) => parts := parts + [View(text)];
        case _ => control := Put(control, Setting(opts[i]).value.key, Setting(opts[i]).value.value);
      }
    }
    assert opts[..|opts|] == opts;
    if to.ServiceNode? {
      control := Put(control, "conn_pubkey", Str(to.pubkey));
    } else {
      control := Put(control, "conn_id", Signed(to.id));
      control := Put(control, "conn_route", Str(to.route));
    }
    control := Put(control, "send", List(parts));
  }

  method BuildRequest(to: Destination, cmd: string, opts: seq<SendOption>, callback: nat, tag: string)
    returns (control: seq<Entry>)
    ensures control == BuildSend(to, cmd, opts, WithReply(callback, tag))
  {
    hide Put, ApplyOptions, Parts;
    control := BuildControl(to, cmd, [Part(tag)] + opts);
    control := Put(control, "request", Flag(true));
    control := Put(control, "request_callback", Unsigned(callback));
    control := Put(control, "request_tag", View(tag));
  }

  /** Seeks each key in turn and consumes its value on a hit. */
  method Ask(data: DictConsumer, keys: seq<string>) returns (ok: bool, answers: seq<Option<Value>>)
    modifies data, data.base
    ensures ok <==> Queries(old(data.View()), keys).Moved?
    ensures ok ==> Queries(old(data.View()), keys) == Moved(data.View(), answers)
  {
    hide SkipUntil, TakeValue;
    answers := [];
    ghost var start := data.View();
    assert keys[0..] == keys;
    PrecededNone(Queries(start, keys));
    for i := 0 to |keys|
      invariant Queries(start, keys) == Preceded(answers, Queries(data.View(), keys[i..]))
    {
      assert keys[i..][0] == keys[i] && keys[i..][1..] == keys[i + 1..];
      var moved, found := data.Seek(keys[i]);
      if !moved {
        return false, [];
      }
      if found {
        var took, v := data.Next();
        if !took {
          return false, [];
        }
        PrecededOne(answers, Some(v.value), Queries(data.View(), keys[i + 1..]));
        answers := answers + [Some(v.value)];
      } else {
        PrecededOne(answers, None, Queries(data.View(), keys[i + 1..]));
        answers := answers + [None];
      }
    }
    assert keys[|keys|..] == [] && answers + [] == answers;
    return true, answers;
  }

  /** The later answers with the earlier ones in front. */
  ghost function Preceded(first: seq<Option<Value>>, r: Stepped<seq<Option<Value>>>): Stepped<seq<Option<Value>>> {
    match r
    case Thrown => Thrown
    case Moved(c, rest) => Moved(c, first + rest)
  }

  lemma PrecededNone(r: Stepped<seq<Option<Value>>>)
    ensures Preceded([], r) == r
  {
    if r.Moved? { assert [] + r.value == r.value; }
  }

  lemma PrecededOne(first: seq<Option<Value>>, a: Option<Value>, r: Stepped<seq<Option<Value>>>)
    ensures Preceded(first, Answer(a, r)) == Preceded(first + [a], r)
  {
    if r.Moved? { assert first + ([a] + r.value) == first + [a] + r.value; }
  }

  method ReadControl(data: string) returns (r: Option<Sending>)
    ensures r == ReadSend(data)
  {
    hide Queries, Interpret, AskKeys;
    if |data| < 2 || data[0] != 'd' {
      return None;
    }
    var consumer := new DictConsumer(data);
    var ok, first := Ask(consumer, FIRST_KEYS);
    if !ok {
      return None;
    }
    var more;
    ok, more := Ask(consumer, AskKeys(Bool(first[8])));
    if !ok {
      return None;
    }
    return Interpret(first, more);
  }
}
