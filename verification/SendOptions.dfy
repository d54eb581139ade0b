/**
 The SEND control message: a caller's options are put into a dict, encoded, and read back by the
 proxy with one pass of ascending key queries.
 */
module SendOptions {
  import opened Basics
  import opened BencodeModel
  import opened BencodeRoundTrip
  import opened BencodeSeek

  /** A destination: a service node by its key, or a connection by id (never -1) and route. */
  datatype Destination = ServiceNode(pubkey: string) | Remote(id: int, route: string)

  datatype SendOption =
    | Part(text: string)
    | Hint(address: string)
    | Optional(flag: bool)
    | Incoming(flag: bool)
    | Outgoing(flag: bool)
    | KeepAlive(ms: nat)
    | RequestTimeout(ms: nat)
    | OnFailure(callback: nat)
    | OnFull(callback: nat)

  /** What `request` adds to a plain send. */
  datatype Request = NoRequest | WithReply(callback: nat, tag: string)

  const SN_ID: int := -1
  const DEFAULT_SEND_KEEP_ALIVE: int := 30_000
  const DEFAULT_REQUEST_TIMEOUT: int := 15_000

  // ----- writing -----

  /** Assignment to a map element. */
  function Put(es: seq<Entry>, key: string, value: Value): seq<Entry> {
    if es == [] then [Entry(key, value)]
    else if es[0].key == key then [Entry(key, value)] + es[1..]
    else if Less(key, es[0].key) then [Entry(key, value)] + es
    else [es[0]] + Put(es[1..], key, value)
  }

  function Flag(b: bool): Value {
    Unsigned(if b then 1 else 0)
  }

  /** The control entry an option writes; message parts write none. */
  function Setting(o: SendOption): Option<Entry> {
    match o
    case Part(_) => None
    case Hint(address) => Some(Entry("hint", Str(address)))
    case Optional(flag) => Some(Entry("optional", Flag(flag)))
    case Incoming(flag) => Some(Entry("incoming", Flag(flag)))
    case Outgoing(flag) => Some(Entry("outgoing", Flag(flag)))
    case KeepAlive(ms) => Some(Entry("keep_alive", Signed(ms)))
    case RequestTimeout(ms) => Some(Entry("request_timeout", Signed(ms)))
    case OnFailure(callback) => Some(Entry("send_fail", Unsigned(callback)))
    case OnFull(callback) => Some(Entry("send_full_q", Unsigned(callback)))
  }

  function ApplyOptions(opts: seq<SendOption>): seq<Entry> {
    if opts == [] then []
    else
      var es := ApplyOptions(opts[..|opts| - 1]);
      match Setting(opts[|opts| - 1])
      case None => es
      case Some(e) => Put(es, e.key, e.value)
  }

  function Parts(opts: seq<SendOption>): seq<Value> {
    if opts == [] then []
    else
      var ps := Parts(opts[..|opts| - 1]);
      match opts[|opts| - 1] case Part(text) => ps + [View(text)] case _ => ps
  }

  function PutDestination(es: seq<Entry>, to: Destination): seq<Entry> {
    match to
    case ServiceNode(pubkey) => Put(es, "conn_pubkey", Str(pubkey))
    case Remote(id, route) => Put(Put(es, "conn_id", Signed(id)), "conn_route", Str(route))
  }

  function PutRequest(es: seq<Entry>, req: Request): seq<Entry> {
    match req
    case NoRequest => es
    case WithReply(callback, tag) =>
      Put(Put(Put(es, "request", Flag(true)), "request_callback", Unsigned(callback)), "request_tag", View(tag))
  }

  /** The control dict of a send or request; a request's tag is also its first message part. */
  function BuildSend(to: Destination, cmd: string, opts: seq<SendOption>, req: Request): seq<Entry> {
    var tagged := if req.WithReply? then [Part(req.tag)] + opts else opts;
    PutRequest(Put(PutDestination(ApplyOptions(tagged), to), "send", List([View(cmd)] + Parts(tagged))), req)
  }

  // ----- reading -----

  const FIRST_KEYS: seq<string> :=
    ["conn_id", "conn_pubkey", "conn_route", "hint", "incoming", "keep_alive", "optional", "outgoing", "request"]
  const REQUEST_KEYS: seq<string> := ["request_callback", "request_tag", "request_timeout"]
  const LAST_KEYS: seq<string> := ["send", "send_fail", "send_full_q"]

  function Text(a: Option<Value>, default: string): string {
    if a.Some? && a.value.Str? then a.value.s else default
  }

  function Number(a: Option<Value>, default: int): int {
    if a.Some? && (a.value.Signed? || a.value.Unsigned?) then a.value.n else default
  }

  function Bool(a: Option<Value>): bool {
    Number(a, 0) != 0
  }

  /** The questions the proxy asks: request details only if the request flag was set. */
  function AskKeys(request: bool): seq<string> {
    (if request then REQUEST_KEYS else []) + LAST_KEYS
  }

  function AskAll(c: Cursor): (r: Stepped<(seq<Option<Value>>, seq<Option<Value>>)>)
    ensures r.Moved? ==> |r.value.0| == 9 && |r.value.1| == |AskKeys(Bool(r.value.0[8]))|
  {
    match Queries(c, FIRST_KEYS)
    case Thrown => Thrown
    case Moved(d, first) =>
      match Queries(d, AskKeys(Bool(first[8])))
      case Thrown => Thrown
      case Moved(e, more) => Moved(e, (first, more))
  }

  /** Everything the proxy needs for one send. */
  datatype Sending = Sending(to: Destination, parts: Option<Value>, hint: string, incoming: bool, optional: bool, outgoing: bool,
                             keepAlive: int, request: Request, requestTimeout: int, onFailure: int, onFull: int)

  function Destined(id: Option<Value>, pubkey: Option<Value>, route: Option<Value>): Option<Destination> {
    if id.Some? then
      if Number(id, SN_ID) == SN_ID || pubkey.Some? then None else Some(Remote(Number(id, SN_ID), Text(route, "")))
    else if pubkey.Some? then Some(ServiceNode(Text(pubkey, "")))
    else None
  }

  /** Each key's value is consumed as one type; any other value makes the consumer throw. */
  predicate TypedFor(q: string, a: Option<Value>) {
    a.None? ||
    if q == "conn_pubkey" || q == "conn_route" || q == "hint" || q == "request_tag" then a.value.Str?
    else if q == "send" then a.value.List?
    else if q == "incoming" || q == "optional" || q == "outgoing" || q == "request" then a.value.Unsigned? && a.value.n <= 1
    else if q == "conn_id" then (a.value.Signed? || a.value.Unsigned?) && a.value.n < TWO63
    else a.value.Unsigned?
  }

  predicate AllTyped(keys: seq<string>, answers: seq<Option<Value>>) {
    |keys| == |answers| && forall i | 0 <= i < |keys| :: TypedFor(keys[i], answers[i])
  }

  /** What the answers amount to; `None` where the proxy throws. */
  function Interpret(first: seq<Option<Value>>, more: seq<Option<Value>>): Option<Sending>
    requires |first| == 9 && |more| == |AskKeys(Bool(first[8]))|
  {
    if !AllTyped(FIRST_KEYS, first) || !AllTyped(AskKeys(Bool(first[8])), more) then None else InterpretTyped(first, more)
  }

  function InterpretTyped(first: seq<Option<Value>>, more: seq<Option<Value>>): Option<Sending>
    requires |first| == 9 && |more| == |AskKeys(Bool(first[8]))|
  {
    var request := Bool(first[8]);
    var last := if request then more[3..] else more;
    match Destined(first[0], first[1], first[2])
    case None => None
    case Some(to) =>
      if (request && (more[0].None? || more[1].None?)) || last[0].None? then None
      else
        Some(Sending(to, last[0], Text(first[3], ""), Bool(first[4]), Bool(first[6]), Bool(first[7]),
                     Number(first[5], DEFAULT_SEND_KEEP_ALIVE),
                     if request && Number(more[0], 0) >= 0 then WithReply(Number(more[0], 0), Text(more[1], "")) else NoRequest,
                     if request then Number(more[2], DEFAULT_REQUEST_TIMEOUT) else DEFAULT_REQUEST_TIMEOUT,
                     Number(last[1], 0), Number(last[2], 0)))
  }

  /** What the proxy makes of a control message; `None` where it throws. */
  function ReadSend(data: string): Option<Sending> {
    match OpenDict(data)
    case Thrown => None
    case Moved(c, _) =>
      match AskAll(c)
      case Thrown => None
      case Moved(_, answers) => Interpret(answers.0, answers.1)
  }

  // ----- maps -----

  lemma {:induction false} PutSorted(es: seq<Entry>, key: string, value: Value)
    requires Sorted(es)
    ensures Sorted(Put(es, key, value))
    ensures forall e | e in Put(es, key, value) :: e == Entry(key, value) || e in es
    decreases |es|
  {
    if es != [] {
      var t := Put(es, key, value);
      if es[0].key == key {
        assert t[1..] == es[1..];
      } else if Less(key, es[0].key) {
        forall j | 0 < j < |t| ensures Less(t[0].key, t[j].key) {
          if j > 1 { LessTrans(key, es[0].key, es[j - 1].key); }
        }
      } else {
        LessTotal(key, es[0].key);
        var u := Put(es[1..], key, value);
        PutSorted(es[1..], key, value);
        forall j | 0 <= j < |u| ensures Less(es[0].key, u[j].key) {
          assert u[j] in u;
          if u[j] != Entry(key, value) {
            var k :| 0 <= k < |es[1..]| && es[1..][k] == u[j];
            assert es[k + 1] == u[j];
          }
        }
        assert t == [es[0]] + u;
      }
    }
  }

  lemma {:induction false} LookupPut(es: seq<Entry>, key: string, value: Value, q: string)
    requires Sorted(es)
    ensures Lookup(Put(es, key, value), q) == if q == key then Some(Normal(value)) else Lookup(es, q)
    decreases |es|
  {
    if es != [] {
      if es[0].key == key || Less(key, es[0].key) {
        assert ([Entry(key, value)] + es)[1..] == es;
        assert ([Entry(key, value)] + es[1..])[1..] == es[1..];
      } else {
        LookupPut(es[1..], key, value, q);
        assert ([es[0]] + Put(es[1..], key, value))[1..] == Put(es[1..], key, value);
      }
    } else {
      assert [Entry(key, value)][1..] == [];
    }
  }

  predicate GoodEntries(es: seq<Entry>) {
    Sorted(es) && forall e | e in es :: |e.key| < TWO64 && WellFormed(e.value)
  }

  lemma GoodPut(es: seq<Entry>, key: string, value: Value)
    requires GoodEntries(es) && |key| < TWO64 && WellFormed(value)
    ensures GoodEntries(Put(es, key, value))
  {
    PutSorted(es, key, value);
  }

  // ----- what the dict holds -----

  /** The last option that sets `key`. */
  function LastSetting(opts: seq<SendOption>, key: string): Option<Value> {
    if opts == [] then None
    else
      var s := Setting(opts[|opts| - 1]);
      if s.Some? && s.value.key == key then Some(Normal(s.value.value)) else LastSetting(opts[..|opts| - 1], key)
  }

  predicate ValidOption(o: SendOption) {
    match o
    case Part(text) => |text| < TWO64
    case Hint(address) => |address| < TWO64
    case KeepAlive(ms) => ms < TWO63
    case RequestTimeout(ms) => ms < TWO63
    case OnFailure(callback) => callback < TWO64
    case OnFull(callback) => callback < TWO64
    case _ => true
  }

  predicate ValidSend(to: Destination, cmd: string, opts: seq<SendOption>, req: Request) {
    && (to.ServiceNode? ==> |to.pubkey| < TWO64)
    && (to.Remote? ==> to.id != SN_ID && -TWO63 <= to.id < TWO63 && |to.route| < TWO64)
    && |cmd| < TWO64
    && (forall i | 0 <= i < |opts| :: ValidOption(opts[i]))
    && (req.WithReply? ==> req.callback < TWO64 && |req.tag| < TWO64)
  }

  lemma SettingWellFormed(o: SendOption)
    requires ValidOption(o)
    ensures Setting(o).Some? ==> |Setting(o).value.key| < 100 && WellFormed(Setting(o).value.value)
  {
  }

  lemma {:induction false} OptionsWritten(opts: seq<SendOption>, q: string)
    requires forall i | 0 <= i < |opts| :: ValidOption(opts[i])
    ensures GoodEntries(ApplyOptions(opts))
    ensures Lookup(ApplyOptions(opts), q) == LastSetting(opts, q)
  {
    if opts != [] {
      var n := |opts| - 1;
      OptionsWritten(opts[..n], q);
      SettingWellFormed(opts[n]);
      var s := Setting(opts[n]);
      if s.Some? {
        GoodPut(ApplyOptions(opts[..n]), s.value.key, s.value.value);
        LookupPut(ApplyOptions(opts[..n]), s.value.key, s.value.value, q);
      }
    }
  }

  lemma {:induction false} PartsWellFormed(opts: seq<SendOption>)
    requires forall i | 0 <= i < |opts| :: ValidOption(opts[i])
    ensures forall v | v in Parts(opts) :: WellFormed(v)
  {
    if opts != [] {
      PartsWellFormed(opts[..|opts| - 1]);
    }
  }

  lemma {:induction false} ItemsAll(items: seq<Value>)
    requires forall v | v in items :: WellFormed(v)
    ensures WellFormedItems(items)
  {
    if items != [] {
      ItemsAll(items[1..]);
    }
  }

  function Tagged(opts: seq<SendOption>, req: Request): seq<SendOption> {
    if req.WithReply? then [Part(req.tag)] + opts else opts
  }

  /** The value written for each key, said without the dict. */
  function Written(to: Destination, cmd: string, opts: seq<SendOption>, req: Request, q: string): Option<Value> {
    if req.WithReply? && q == "request" then Some(Unsigned(1))
    else if req.WithReply? && q == "request_callback" then Some(Unsigned(req.callback))
    else if req.WithReply? && q == "request_tag" then Some(Str(req.tag))
    else if q == "send" then Some(Normal(List([View(cmd)] + Parts(Tagged(opts, req)))))
    else if to.ServiceNode? && q == "conn_pubkey" then Some(Str(to.pubkey))
    else if to.Remote? && q == "conn_id" then Some(Normal(Signed(to.id)))
    else if to.Remote? && q == "conn_route" then Some(Str(to.route))
    else LastSetting(Tagged(opts, req), q)
  }

  lemma PutBoth(es: seq<Entry>, key: string, value: Value, q: string)
    requires GoodEntries(es) && |key| < TWO64 && WellFormed(value)
    ensures GoodEntries(Put(es, key, value))
    ensures Lookup(Put(es, key, value), q) == if q == key then Some(Normal(value)) else Lookup(es, q)
  {
    GoodPut(es, key, value);
    LookupPut(es, key, value, q);
  }

  lemma DestinationWritten(es: seq<Entry>, to: Destination, q: string)
    requires GoodEntries(es)
    requires if to.ServiceNode? then |to.pubkey| < TWO64 else -TWO63 <= to.id < TWO63 && |to.route| < TWO64
    ensures GoodEntries(PutDestination(es, to))
    ensures Lookup(PutDestination(es, to), q) ==
              if to.ServiceNode? && q == "conn_pubkey" then Some(Str(to.pubkey))
              else if to.Remote? && q == "conn_id" then Some(Normal(Signed(to.id)))
              else if to.Remote? && q == "conn_route" then Some(Str(to.route))
              else Lookup(es, q)
  {
    hide Put, GoodEntries, Lookup;
    match to
    case ServiceNode(pubkey) => PutBoth(es, "conn_pubkey", Str(pubkey), q);
    case Remote(id, route) =>
      PutBoth(es, "conn_id", Signed(id), q);
      PutBoth(Put(es, "conn_id", Signed(id)), "conn_route", Str(route), q);
  }

  lemma RequestWritten(es: seq<Entry>, req: Request, q: string)
    requires GoodEntries(es) && (req.WithReply? ==> req.callback < TWO64 && |req.tag| < TWO64)
    ensures GoodEntries(PutRequest(es, req))
    ensures Lookup(PutRequest(es, req), q) ==
              if req.WithReply? && q == "request" then Some(Unsigned(1))
              else if req.WithReply? && q == "request_callback" then Some(Unsigned(req.callback))
              else if req.WithReply? && q == "request_tag" then Some(Str(req.tag))
              else Lookup(es, q)
  {
    hide Put, GoodEntries, Lookup;
    if req.WithReply? {
      var a := Put(es, "request", Flag(true));
      var b := Put(a, "request_callback", Unsigned(req.callback));
      PutBoth(es, "request", Flag(true), q);
      PutBoth(a, "request_callback", Unsigned(req.callback), q);
      PutBoth(b, "request_tag", View(req.tag), q);
    }
  }

  lemma BuildWrites(to: Destination, cmd: string, opts: seq<SendOption>, req: Request, q: string)
    requires ValidSend(to, cmd, opts, req)
    ensures GoodEntries(BuildSend(to, cmd, opts, req))
    ensures Lookup(BuildSend(to, cmd, opts, req), q) == Written(to, cmd, opts, req, q)
  {
    hide Put, GoodEntries, Lookup, PutDestination, PutRequest, ApplyOptions, Parts;
    var tagged := Tagged(opts, req);
    assert forall i | 0 <= i < |tagged| :: ValidOption(tagged[i]);
    OptionsWritten(tagged, q);
    DestinationWritten(ApplyOptions(tagged), to, q);
    PartsWellFormed(tagged);
    ItemsAll([View(cmd)] + Parts(tagged));
    var d := PutDestination(ApplyOptions(tagged), to);
    var send := List([View(cmd)] + Parts(tagged));
    PutBoth(d, "send", send, q);
    RequestWritten(Put(d, "send", send), req, q);
  }

  // ----- reading it back -----

  lemma {:induction false} LookupsWritten(to: Destination, cmd: string, opts: seq<SendOption>, req: Request, keys: seq<string>)
    requires ValidSend(to, cmd, opts, req)
    ensures AnswersTo(to, cmd, opts, req, keys, Lookups(BuildSend(to, cmd, opts, req), keys))
    decreases |keys|
  {
    hide BuildSend, Written, Lookup;
    if keys != [] {
      BuildWrites(to, cmd, opts, req, keys[0]);
      LookupsWritten(to, cmd, opts, req, keys[1..]);
    }
  }

  lemma {:induction false} QueriesConcat(c: Cursor, a: seq<string>, b: seq<string>)
    requires Queries(c, a + b).Moved?
    ensures Queries(c, a).Moved? && Queries(Queries(c, a).cursor, b).Moved?
    ensures Queries(c, a + b).value == Queries(c, a).value + Queries(Queries(c, a).cursor, b).value
    ensures |Queries(c, a).value| == |a|
    decreases |a|
  {
    hide SkipUntil, TakeValue;
    if a == [] {
      assert a + b == b;
    } else {
      assert (a + b)[0] == a[0] && (a + b)[1..] == a[1..] + b;
      var s := SkipUntil(c, a[0]);
      if s.Moved? {
        if s.value {
          if TakeValue(s.cursor).Moved? { QueriesConcat(TakeValue(s.cursor).cursor, a[1..], b); }
        } else {
          QueriesConcat(s.cursor, a[1..], b);
        }
      }
    }
  }

  /** Two ascending lists in the right order make one. */
  lemma AscendJoin(a: seq<string>, b: seq<string>)
    requires Ascending(a) && Ascending(b) && a != [] && b != [] && Less(a[|a| - 1], b[0])
    ensures Ascending(a + b)
  {
    var keys := a + b;
    forall i, j | 0 <= i < j < |keys| ensures Less(keys[i], keys[j]) {
      if i < |a| <= j {
        if i < |a| - 1 { LessTrans(a[i], a[|a| - 1], b[0]); }
        if j > |a| { LessTrans(a[i], b[0], b[j - |a|]); }
      }
    }
  }

  lemma Triple(a: string, b: string, c: string)
    requires a != "" && Less(a, b) && b != "" && Less(b, c) && c != ""
    ensures Ascending([a, b, c])
  {
    LessTrans(a, b, c);
  }

  lemma FirstAscend()
    ensures Ascending(FIRST_KEYS)
  {
    ChainFirst();
    hide Ascending, Less;
    Triple("conn_id", "conn_pubkey", "conn_route");
    Triple("hint", "incoming", "keep_alive");
    Triple("optional", "outgoing", "request");
    var a := ["conn_id", "conn_pubkey", "conn_route"];
    var b := ["hint", "incoming", "keep_alive"];
    var c := ["optional", "outgoing", "request"];
    AscendJoin(a, b);
    AscendJoin(a + b, c);
    assert a + b + c == FIRST_KEYS;
  }

  lemma LastAscend()
    ensures Ascending(REQUEST_KEYS) && Ascending(LAST_KEYS)
  {
    ChainLast();
    hide Ascending, Less;
    Triple("request_callback", "request_tag", "request_timeout");
    Triple("send", "send_fail", "send_full_q");
  }

  lemma KeysAscend(request: bool)
    ensures Ascending(FIRST_KEYS + AskKeys(request))
  {
    FirstAscend();
    LastAscend();
    Joints();
    hide Ascending, Less;
    if request {
      AscendJoin(REQUEST_KEYS, LAST_KEYS);
    } else {
      assert AskKeys(false) == LAST_KEYS;
    }
    AscendJoin(FIRST_KEYS, AskKeys(request));
  }

  /** After a common prefix, order is decided by what follows. */
  lemma {:induction false} LessAfter(p: string, a: string, b: string)
    requires Less(a, b)
    ensures Less(p + a, p + b)
    decreases |p|
  {
    if p == "" {
      assert p + a == a && p + b == b;
    } else {
      LessAfter(p[1..], a, b);
      assert (p + a)[1..] == p[1..] + a && (p + b)[1..] == p[1..] + b;
    }
  }

  lemma Apart(p: string, a: string, b: string, x: string, y: string)
    requires x == p + a && y == p + b && b != "" && (a == "" || a[0] < b[0])
    ensures Less(x, y)
  {
    LessAfter(p, a, b);
  }

  lemma ChainFirst()
    ensures Less("conn_id", "conn_pubkey") && Less("conn_pubkey", "conn_route") && Less("conn_route", "hint")
    ensures Less("hint", "incoming") && Less("incoming", "keep_alive") && Less("keep_alive", "optional")
    ensures Less("optional", "outgoing") && Less("outgoing", "request")
  {
    hide Less;
    Apart("conn_", "id", "pubkey", "conn_id", "conn_pubkey");
    Apart("conn_", "pubkey", "route", "conn_pubkey", "conn_route");
    Apart("", "conn_route", "hint", "conn_route", "hint");
    Apart("", "hint", "incoming", "hint", "incoming");
    Apart("", "incoming", "keep_alive", "incoming", "keep_alive");
    Apart("", "keep_alive", "optional", "keep_alive", "optional");
    Apart("o", "ptional", "utgoing", "optional", "outgoing");
    Apart("", "outgoing", "request", "outgoing", "request");
  }

  lemma ChainLast()
    ensures Less("request_callback", "request_tag") && Less("request_tag", "request_timeout")
    ensures Less("send", "send_fail") && Less("send_fail", "send_full_q")
  {
    hide Less;
    Apart("request_", "callback", "tag", "request_callback", "request_tag");
    Apart("request_t", "ag", "imeout", "request_tag", "request_timeout");
    Apart("send", "", "_fail", "send", "send_fail");
    Apart("send_f", "ail", "ull_q", "send_fail", "send_full_q");
  }

  lemma Joints()
    ensures Less("request", "request_callback") && Less("request", "send") && Less("request_timeout", "send")
  {
    hide Less;
    Apart("request", "", "_callback", "request", "request_callback");
    Apart("", "request", "send", "request", "send");
    Apart("", "request_timeout", "send", "request_timeout", "send");
  }

  lemma {:induction false} LookupsConcat(es: seq<Entry>, a: seq<string>, b: seq<string>)
    ensures Lookups(es, a + b) == Lookups(es, a) + Lookups(es, b) && |Lookups(es, a)| == |a|
    decreases |a|
  {
    if a == [] {
      assert a + b == b;
    } else {
      assert (a + b)[0] == a[0] && (a + b)[1..] == a[1..] + b;
      LookupsConcat(es, a[1..], b);
    }
  }

  /** Asking in two goes gives the same answers as looking every key up. */
  lemma AskTwice(es: seq<Entry>, a: seq<string>, b: seq<string>)
    requires WellFormed(Dict(es)) && Ascending(a + b)
    ensures OpenDict(Serialize(Dict(es))).Moved?
    ensures var first := Queries(OpenDict(Serialize(Dict(es))).cursor, a);
            && first.Moved? && first.value == Lookups(es, a)
            && Queries(first.cursor, b).Moved? && Queries(first.cursor, b).value == Lookups(es, b)
  {
    hide Serialize, SkipUntil, TakeValue, Queries, Lookups, WellFormed, OpenDict, Ascending;
    var s := Serialize(Dict(es));
    assert s + "" == s;
    SeekIsLookup(es, "", a + b);
    QueriesConcat(OpenDict(s).cursor, a, b);
    LookupsConcat(es, a, b);
    var first := Queries(OpenDict(s).cursor, a);
    SameHalves(first.value, Queries(first.cursor, b).value, Lookups(es, a), Lookups(es, b));
  }

  lemma SameHalves<T>(a: seq<T>, b: seq<T>, c: seq<T>, d: seq<T>)
    requires a + b == c + d && |a| == |c|
    ensures a == c && b == d
  {
    assert a == (a + b)[..|a|] && c == (c + d)[..|a|];
    assert b == (a + b)[|a|..] && d == (c + d)[|a|..];
  }

  /** Every question the proxy asks is answered with what was written for that key. */
  lemma AnswersAreWritten(to: Destination, cmd: string, opts: seq<SendOption>, req: Request)
    requires ValidSend(to, cmd, opts, req)
    ensures var s := Serialize(Dict(BuildSend(to, cmd, opts, req)));
            && OpenDict(s).Moved? && AskAll(OpenDict(s).cursor).Moved?
            && (var (first, more) := AskAll(OpenDict(s).cursor).value;
                && |first| == 9 && Bool(first[8]) == req.WithReply? && |more| == |AskKeys(req.WithReply?)|
                && AnswersTo(to, cmd, opts, req, FIRST_KEYS, first)
                && AnswersTo(to, cmd, opts, req, AskKeys(req.WithReply?), more))
  {
    var es := BuildSend(to, cmd, opts, req);
    var request := req.WithReply?;
    BuildIsDict(to, cmd, opts, req);
    RequestAnswer(to, cmd, opts, req);
    LookupsWritten(to, cmd, opts, req, FIRST_KEYS);
    LookupsWritten(to, cmd, opts, req, AskKeys(request));
    KeysAscend(request);
    hide BuildSend, Written, Serialize, Queries, Lookups, WellFormed, OpenDict, Bool, ValidSend, Ascending, AskKeys;
    AskTwice(es, FIRST_KEYS, AskKeys(request));
    var first := Lookups(es, FIRST_KEYS);
    assert first[8] == Written(to, cmd, opts, req, FIRST_KEYS[8]);
  }

  /** The answers to `keys` are what was written for each. */
  predicate AnswersTo(to: Destination, cmd: string, opts: seq<SendOption>, req: Request, keys: seq<string>,
                      answers: seq<Option<Value>>)
  {
    && |answers| == |keys|
    && forall i | 0 <= i < |keys| :: answers[i] == Written(to, cmd, opts, req, keys[i])
  }

  lemma BuildIsDict(to: Destination, cmd: string, opts: seq<SendOption>, req: Request)
    requires ValidSend(to, cmd, opts, req)
    ensures WellFormed(Dict(BuildSend(to, cmd, opts, req)))
  {
    BuildWrites(to, cmd, opts, req, "");
    hide BuildSend, Written;
    EntriesAll(BuildSend(to, cmd, opts, req));
  }

  lemma {:induction false} NoSetting(opts: seq<SendOption>, q: string)
    requires q in {"conn_id", "conn_pubkey", "conn_route", "request", "request_callback", "request_tag", "send"}
    ensures LastSetting(opts, q) == None
  {
    if opts != [] {
      NoSetting(opts[..|opts| - 1], q);
    }
  }

  lemma RequestAnswer(to: Destination, cmd: string, opts: seq<SendOption>, req: Request)
    ensures Bool(Written(to, cmd, opts, req, "request")) == req.WithReply?
  {
    NoSetting(Tagged(opts, req), "request");
  }

  /** What the dict says under the proxy's keys. */
  function ReadOut(to: Destination, cmd: string, opts: seq<SendOption>, req: Request): Sending {
    Sending(to, Some(Normal(List([View(cmd)] + Parts(Tagged(opts, req))))),
            Text(LastSetting(opts, "hint"), ""), Bool(LastSetting(opts, "incoming")), Bool(LastSetting(opts, "optional")),
            Bool(LastSetting(opts, "outgoing")), Number(LastSetting(opts, "keep_alive"), DEFAULT_SEND_KEEP_ALIVE), req,
            if req.WithReply? then Number(LastSetting(opts, "request_timeout"), DEFAULT_REQUEST_TIMEOUT) else DEFAULT_REQUEST_TIMEOUT,
            Number(LastSetting(opts, "send_fail"), 0), Number(LastSetting(opts, "send_full_q"), 0))
  }

  // ----- what the caller means, without a dict -----

  datatype Wishes = Wishes(hint: string, incoming: bool, optional: bool, outgoing: bool, keepAlive: int, requestTimeout: int,
                           onFailure: int, onFull: int)

  /** The options in effect: a later one overrides an earlier one of its kind. */
  function Wished(opts: seq<SendOption>): Wishes {
    if opts == [] then Wishes("", false, false, false, 30_000, 15_000, 0, 0)
    else
      var w := Wished(opts[..|opts| - 1]);
      match opts[|opts| - 1]
      case Part(_) => w
      case Hint(address) => w.(hint := address)
      case Optional(flag) => w.(optional := flag)
      case Incoming(flag) => w.(incoming := flag)
      case Outgoing(flag) => w.(outgoing := flag)
      case KeepAlive(ms) => w.(keepAlive := ms)
      case RequestTimeout(ms) => w.(requestTimeout := ms)
      case OnFailure(callback) => w.(onFailure := callback)
      case OnFull(callback) => w.(onFull := callback)
  }

  /** The message parts among the options, in order. */
  function Texts(opts: seq<SendOption>): seq<string> {
    if opts == [] then []
    else if opts[|opts| - 1].Part? then Texts(opts[..|opts| - 1]) + [opts[|opts| - 1].text]
    else Texts(opts[..|opts| - 1])
  }

  function Strings(q: seq<string>): seq<Value> {
    seq(|q|, i requires 0 <= i < |q| => Str(q[i]))
  }

  /** What the caller asked for: the command, the tag of a request, the message parts, and the options in effect. */
  function Asked(to: Destination, cmd: string, opts: seq<SendOption>, req: Request): Sending {
    var w := Wished(opts);
    var tag := if req.WithReply? then [req.tag] else [];
    Sending(to, Some(List(Strings([cmd] + tag + Texts(opts)))), w.hint, w.incoming, w.optional, w.outgoing, w.keepAlive, req,
            if req.WithReply? then w.requestTimeout else 15_000, w.onFailure, w.onFull)
  }

  lemma {:induction false} HintIsSet(opts: seq<SendOption>)
    ensures Text(LastSetting(opts, "hint"), "") == Wished(opts).hint
  {
    if opts != [] { HintIsSet(opts[..|opts| - 1]); }
  }

  lemma {:induction false} IncomingIsSet(opts: seq<SendOption>)
    ensures Bool(LastSetting(opts, "incoming")) == Wished(opts).incoming
  {
    if opts != [] { IncomingIsSet(opts[..|opts| - 1]); }
  }

  lemma {:induction false} OptionalIsSet(opts: seq<SendOption>)
    ensures Bool(LastSetting(opts, "optional")) == Wished(opts).optional
  {
    if opts != [] { OptionalIsSet(opts[..|opts| - 1]); }
  }

  lemma {:induction false} OutgoingIsSet(opts: seq<SendOption>)
    ensures Bool(LastSetting(opts, "outgoing")) == Wished(opts).outgoing
  {
    if opts != [] { OutgoingIsSet(opts[..|opts| - 1]); }
  }

  lemma {:induction false} KeepAliveIsSet(opts: seq<SendOption>)
    ensures Number(LastSetting(opts, "keep_alive"), DEFAULT_SEND_KEEP_ALIVE) == Wished(opts).keepAlive
  {
    if opts != [] { KeepAliveIsSet(opts[..|opts| - 1]); }
  }

  lemma {:induction false} TimeoutIsSet(opts: seq<SendOption>)
    ensures Number(LastSetting(opts, "request_timeout"), DEFAULT_REQUEST_TIMEOUT) == Wished(opts).requestTimeout
  {
    if opts != [] { TimeoutIsSet(opts[..|opts| - 1]); }
  }

  lemma {:induction false} FailureIsSet(opts: seq<SendOption>)
    ensures Number(LastSetting(opts, "send_fail"), 0) == Wished(opts).onFailure
  {
    if opts != [] { FailureIsSet(opts[..|opts| - 1]); }
  }

  lemma {:induction false} FullIsSet(opts: seq<SendOption>)
    ensures Number(LastSetting(opts, "send_full_q"), 0) == Wished(opts).onFull
  {
    if opts != [] { FullIsSet(opts[..|opts| - 1]); }
  }

  lemma {:induction false} NormalConcat(a: seq<Value>, b: seq<Value>)
    ensures NormalItems(a + b) == NormalItems(a) + NormalItems(b)
    decreases |a|
  {
    if a == [] {
      assert a + b == b;
    } else {
      assert (a + b)[0] == a[0] && (a + b)[1..] == a[1..] + b;
      NormalConcat(a[1..], b);
    }
  }

  lemma NormalText(text: string)
    ensures NormalItems([View(text)]) == [Str(text)]
  {
    assert [View(text)][1..] == [];
  }

  lemma {:induction false} PartsAreTexts(opts: seq<SendOption>)
    ensures NormalItems(Parts(opts)) == Strings(Texts(opts))
  {
    if opts != [] {
      var n := |opts| - 1;
      PartsAreTexts(opts[..n]);
      if opts[n].Part? {
        NormalConcat(Parts(opts[..n]), [View(opts[n].text)]);
        NormalText(opts[n].text);
      }
    }
  }

  lemma {:induction false} TagIsFirst(opts: seq<SendOption>, tag: string)
    ensures Texts([Part(tag)] + opts) == [tag] + Texts(opts)
    decreases |opts|
  {
    var all := [Part(tag)] + opts;
    if opts == [] {
      assert all[..|all| - 1] == [];
    } else {
      assert all[..|all| - 1] == [Part(tag)] + opts[..|opts| - 1];
      TagIsFirst(opts[..|opts| - 1], tag);
    }
  }

  /** What the proxy reads under its keys is what the caller meant. */
  lemma ReadOutIsAsked(to: Destination, cmd: string, opts: seq<SendOption>, req: Request)
    ensures ReadOut(to, cmd, opts, req) == Asked(to, cmd, opts, req)
  {
    hide Wished, Texts, Parts, LastSetting, Text, Number, Bool, NormalItems;
    HintIsSet(opts);
    IncomingIsSet(opts);
    OptionalIsSet(opts);
    OutgoingIsSet(opts);
    KeepAliveIsSet(opts);
    TimeoutIsSet(opts);
    FailureIsSet(opts);
    FullIsSet(opts);
    PartsAreMessage(cmd, opts, req);
  }

  lemma PartsAreMessage(cmd: string, opts: seq<SendOption>, req: Request)
    ensures NormalItems([View(cmd)] + Parts(Tagged(opts, req))) ==
            Strings([cmd] + (if req.WithReply? then [req.tag] else []) + Texts(opts))
  {
    var tagged := Tagged(opts, req);
    NormalConcat([View(cmd)], Parts(tagged));
    NormalText(cmd);
    PartsAreTexts(tagged);
    if req.WithReply? { TagIsFirst(opts, req.tag); }
    hide Texts, Parts, NormalItems;
    assert [cmd] + (if req.WithReply? then [req.tag] else []) + Texts(opts) == [cmd] + Texts(tagged);
    assert Strings([cmd] + Texts(tagged)) == [Str(cmd)] + Strings(Texts(tagged));
  }

  lemma {:induction false} TagSetsNothing(opts: seq<SendOption>, tag: string, q: string)
    ensures LastSetting([Part(tag)] + opts, q) == LastSetting(opts, q)
    decreases |opts|
  {
    var all := [Part(tag)] + opts;
    if opts == [] {
      assert all[..|all| - 1] == [];
    } else {
      assert all[..|all| - 1] == [Part(tag)] + opts[..|opts| - 1];
      TagSetsNothing(opts[..|opts| - 1], tag, q);
    }
  }

  lemma SettingsUntagged(opts: seq<SendOption>, req: Request, q: string)
    ensures LastSetting(Tagged(opts, req), q) == LastSetting(opts, q)
  {
    if req.WithReply? { TagSetsNothing(opts, req.tag, q); }
  }

  lemma PlainAnswer(to: Destination, cmd: string, opts: seq<SendOption>, req: Request, q: string)
    requires q in {"hint", "incoming", "keep_alive", "optional", "outgoing", "request_timeout", "send_fail", "send_full_q"}
    ensures Written(to, cmd, opts, req, q) == LastSetting(opts, q)
  {
    SettingsUntagged(opts, req, q);
  }

  lemma DestinationAnswer(to: Destination, cmd: string, opts: seq<SendOption>, req: Request)
    requires to.Remote? ==> to.id != SN_ID
    ensures Destined(Written(to, cmd, opts, req, "conn_id"), Written(to, cmd, opts, req, "conn_pubkey"),
                     Written(to, cmd, opts, req, "conn_route")) == Some(to)
  {
    NoSetting(Tagged(opts, req), "conn_id");
    NoSetting(Tagged(opts, req), "conn_pubkey");
    NoSetting(Tagged(opts, req), "conn_route");
  }

  /** The proxy recovers exactly the destination, message parts and options the caller gave. */
  lemma SendRecovered(to: Destination, cmd: string, opts: seq<SendOption>, req: Request)
    requires ValidSend(to, cmd, opts, req)
    ensures ReadSend(Serialize(Dict(BuildSend(to, cmd, opts, req)))) == Some(Asked(to, cmd, opts, req))
  {
    AnswersAreWritten(to, cmd, opts, req);
    var s := Serialize(Dict(BuildSend(to, cmd, opts, req)));
    var (first, more) := AskAll(OpenDict(s).cursor).value;
    assert to.Remote? ==> to.id != SN_ID;
    hide BuildSend, Serialize, AskAll, ValidSend, LastSetting, Parts, AskKeys, AnswersTo, Asked, ReadOut, InterpretTyped, AllTyped;
    InterpretWritten(to, cmd, opts, req, first, more);
    ReadOutIsAsked(to, cmd, opts, req);
    AnswersTyped(to, cmd, opts, req, FIRST_KEYS, first);
    AnswersTyped(to, cmd, opts, req, AskKeys(req.WithReply?), more);
  }

  lemma SettingTyped(o: SendOption)
    requires ValidOption(o) && Setting(o).Some?
    ensures TypedFor(Setting(o).value.key, Some(Normal(Setting(o).value.value)))
  {
  }

  lemma {:induction false} LastTyped(opts: seq<SendOption>, q: string)
    requires forall i | 0 <= i < |opts| :: ValidOption(opts[i])
    ensures TypedFor(q, LastSetting(opts, q))
  {
    if opts != [] {
      hide TypedFor, ValidOption;
      var n := |opts| - 1;
      LastTyped(opts[..n], q);
      if Setting(opts[n]).Some? { SettingTyped(opts[n]); }
    } else {
      assert TypedFor(q, None);
    }
  }

  lemma AnswersTyped(to: Destination, cmd: string, opts: seq<SendOption>, req: Request, keys: seq<string>,
                     answers: seq<Option<Value>>)
    requires ValidSend(to, cmd, opts, req) && AnswersTo(to, cmd, opts, req, keys, answers)
    ensures AllTyped(keys, answers)
  {
    hide TypedFor, Written, ValidSend;
    forall i | 0 <= i < |keys| ensures TypedFor(keys[i], answers[i]) {
      WrittenTyped(to, cmd, opts, req, keys[i]);
    }
  }

  lemma WrittenTyped(to: Destination, cmd: string, opts: seq<SendOption>, req: Request, q: string)
    requires ValidSend(to, cmd, opts, req)
    ensures TypedFor(q, Written(to, cmd, opts, req, q))
  {
    hide LastSetting, Parts;
    var tagged := Tagged(opts, req);
    assert forall i | 0 <= i < |tagged| :: ValidOption(tagged[i]);
    LastTyped(tagged, q);
  }

  lemma InterpretWritten(to: Destination, cmd: string, opts: seq<SendOption>, req: Request,
                         first: seq<Option<Value>>, more: seq<Option<Value>>)
    requires to.Remote? ==> to.id != SN_ID
    requires |first| == 9 && Bool(first[8]) == req.WithReply? && |more| == |AskKeys(req.WithReply?)|
    requires AnswersTo(to, cmd, opts, req, FIRST_KEYS, first) && AnswersTo(to, cmd, opts, req, AskKeys(req.WithReply?), more)
    ensures InterpretTyped(first, more) == Some(ReadOut(to, cmd, opts, req))
  {
    hide Written, LastSetting, Parts, Destined, AnswersTo, Text, Number, Bool, AskKeys, NormalItems;
    FirstAnswers(to, cmd, opts, req, first);
    MoreAnswers(to, cmd, opts, req, more);
    assert Number(Some(Unsigned(1)), 0) == 1 by { FlagNumber(1); }
    if req.WithReply? {
      FlagNumber(req.callback);
      TextOf(req.tag);
    }
  }

  lemma FlagNumber(n: nat)
    ensures Number(Some(Unsigned(n)), 0) == n
  {
  }

  lemma TextOf(t: string)
    ensures Text(Some(Str(t)), "") == t
  {
  }

  lemma FirstAnswers(to: Destination, cmd: string, opts: seq<SendOption>, req: Request, first: seq<Option<Value>>)
    requires to.Remote? ==> to.id != SN_ID
    requires AnswersTo(to, cmd, opts, req, FIRST_KEYS, first)
    ensures |first| == 9 && Destined(first[0], first[1], first[2]) == Some(to)
    ensures first[3] == LastSetting(opts, "hint") && first[4] == LastSetting(opts, "incoming")
    ensures first[5] == LastSetting(opts, "keep_alive") && first[6] == LastSetting(opts, "optional")
    ensures first[7] == LastSetting(opts, "outgoing")
  {
    hide Written, LastSetting, Destined, AnswersTo;
    DestinationAnswer(to, cmd, opts, req);
    AnswerAt(to, cmd, opts, req, FIRST_KEYS, first, 0);
    AnswerAt(to, cmd, opts, req, FIRST_KEYS, first, 1);
    AnswerAt(to, cmd, opts, req, FIRST_KEYS, first, 2);
    PlainAt(to, cmd, opts, req, first, 3, "hint");
    PlainAt(to, cmd, opts, req, first, 4, "incoming");
    PlainAt(to, cmd, opts, req, first, 5, "keep_alive");
    PlainAt(to, cmd, opts, req, first, 6, "optional");
    PlainAt(to, cmd, opts, req, first, 7, "outgoing");
  }

  lemma AnswerAt(to: Destination, cmd: string, opts: seq<SendOption>, req: Request, keys: seq<string>,
                 answers: seq<Option<Value>>, i: nat)
    requires AnswersTo(to, cmd, opts, req, keys, answers) && i < |keys|
    ensures |answers| == |keys| && answers[i] == Written(to, cmd, opts, req, keys[i])
  {
  }

  lemma PlainAt(to: Destination, cmd: string, opts: seq<SendOption>, req: Request, first: seq<Option<Value>>, i: nat, q: string)
    requires AnswersTo(to, cmd, opts, req, FIRST_KEYS, first) && i < 9 && FIRST_KEYS[i] == q
    requires q in {"hint", "incoming", "keep_alive", "optional", "outgoing"}
    ensures |first| == 9 && first[i] == LastSetting(opts, q)
  {
    hide Written, LastSetting, AnswersTo;
    AnswerAt(to, cmd, opts, req, FIRST_KEYS, first, i);
    PlainAnswer(to, cmd, opts, req, q);
  }

  lemma MoreAnswers(to: Destination, cmd: string, opts: seq<SendOption>, req: Request, more: seq<Option<Value>>)
    requires AnswersTo(to, cmd, opts, req, AskKeys(req.WithReply?), more)
    ensures |more| == if req.WithReply? then 6 else 3
    ensures var last := if req.WithReply? then more[3..] else more;
            && last[0] == Some(Normal(List([View(cmd)] + Parts(Tagged(opts, req)))))
            && last[1] == LastSetting(opts, "send_fail") && last[2] == LastSetting(opts, "send_full_q")
    ensures req.WithReply? ==> more[0] == Some(Unsigned(req.callback)) && more[1] == Some(Str(req.tag))
    ensures req.WithReply? ==> more[2] == LastSetting(opts, "request_timeout")
  {
    PlainAnswer(to, cmd, opts, req, "request_timeout");
    PlainAnswer(to, cmd, opts, req, "send_fail");
    PlainAnswer(to, cmd, opts, req, "send_full_q");
    SendAnswer(to, cmd, opts, req);
    hide Written, LastSetting, Parts;
    var keys := AskKeys(req.WithReply?);
    assert forall i | 0 <= i < |keys| :: more[i] == Written(to, cmd, opts, req, keys[i]);
    if req.WithReply? {
      assert keys[3] == "send" && keys[4] == "send_fail" && keys[5] == "send_full_q";
    }
  }

  lemma SendAnswer(to: Destination, cmd: string, opts: seq<SendOption>, req: Request)
    ensures Written(to, cmd, opts, req, "send") == Some(Normal(List([View(cmd)] + Parts(Tagged(opts, req)))))
    ensures req.WithReply? ==> Written(to, cmd, opts, req, "request_callback") == Some(Unsigned(req.callback))
    ensures req.WithReply? ==> Written(to, cmd, opts, req, "request_tag") == Some(Str(req.tag))
  {
  }
}
