/** Which control dicts the proxy accepts as a send, and which make it throw. */
module SendReading {
  import opened Basics
  import opened BencodeModel
  import opened BencodeRoundTrip
  import opened BencodeSeek
  import opened SendOptions

  predicate Has(es: seq<Entry>, key: string) {
    Lookup(es, key).Some?
  }

  predicate WantsReply(es: seq<Entry>) {
    Has(es, "request") && Bool(Lookup(es, "request"))
  }

  predicate IsText(es: seq<Entry>, key: string) {
    Has(es, key) ==> Lookup(es, key).value.Str?
  }

  predicate IsFlag(es: seq<Entry>, key: string) {
    Has(es, key) ==> Lookup(es, key).value.Unsigned? && Lookup(es, key).value.n <= 1
  }

  predicate IsCount(es: seq<Entry>, key: string) {
    Has(es, key) ==> Lookup(es, key).value.Unsigned?
  }

  predicate IsId(es: seq<Entry>, key: string) {
    Has(es, key) ==> (Lookup(es, key).value.Signed? || Lookup(es, key).value.Unsigned?) && Lookup(es, key).value.n < TWO63
  }

  predicate IsList(es: seq<Entry>, key: string) {
    Has(es, key) ==> Lookup(es, key).value.List?
  }

  /** Whatever the proxy asks for has the type it expects. */
  predicate WellTyped(es: seq<Entry>) {
    && IsId(es, "conn_id") && IsText(es, "conn_pubkey") && IsText(es, "conn_route") && IsText(es, "hint")
    && IsFlag(es, "incoming") && IsCount(es, "keep_alive") && IsFlag(es, "optional") && IsFlag(es, "outgoing") && IsFlag(es, "request")
    && (WantsReply(es) ==> IsCount(es, "request_callback") && IsText(es, "request_tag") && IsCount(es, "request_timeout"))
    && IsList(es, "send") && IsCount(es, "send_fail") && IsCount(es, "send_full_q")
  }

  /** One destination and not two, a message, and a tag and callback if a reply is wanted. */
  predicate Complete(es: seq<Entry>) {
    && (Has(es, "conn_id") <==> !Has(es, "conn_pubkey"))
    && (Has(es, "conn_id") ==> Number(Lookup(es, "conn_id"), 0) != -1)
    && Has(es, "send")
    && (WantsReply(es) ==> Has(es, "request_callback") && Has(es, "request_tag"))
  }

  lemma {:induction false} LookupsAre(es: seq<Entry>, keys: seq<string>)
    ensures |Lookups(es, keys)| == |keys| && forall i | 0 <= i < |keys| :: Lookups(es, keys)[i] == Lookup(es, keys[i])
  {
    if keys != [] {
      LookupsAre(es, keys[1..]);
      forall i | 0 <= i < |keys| ensures Lookups(es, keys)[i] == Lookup(es, keys[i]) {
        if i > 0 { assert keys[i] == keys[1..][i - 1]; }
      }
    }
  }

  /** The answers the proxy gets from a dict are its entries. */
  lemma AskedOf(es: seq<Entry>)
    requires WellFormed(Dict(es))
    ensures var s, request := Serialize(Dict(es)), Bool(Lookup(es, "request"));
            && OpenDict(s).Moved? && AskAll(OpenDict(s).cursor).Moved?
            && AskAll(OpenDict(s).cursor).value == (Lookups(es, FIRST_KEYS), Lookups(es, AskKeys(request)))
  {
    var request := Bool(Lookup(es, "request"));
    KeysAscend(request);
    LookupsAre(es, FIRST_KEYS);
    assert FIRST_KEYS[8] == "request";
    hide Serialize, Queries, Lookups, WellFormed, OpenDict, Bool, Ascending, AskKeys, Lookup;
    AskTwice(es, FIRST_KEYS, AskKeys(request));
  }

  predicate Fits(es: seq<Entry>, key: string) {
    TypedFor(key, Lookup(es, key))
  }

  lemma TypedKeys(es: seq<Entry>, keys: seq<string>)
    ensures AllTyped(keys, Lookups(es, keys)) <==> forall i | 0 <= i < |keys| :: Fits(es, keys[i])
  {
    LookupsAre(es, keys);
    hide Lookups, TypedFor, Lookup;
    if AllTyped(keys, Lookups(es, keys)) {
      forall i | 0 <= i < |keys| ensures Fits(es, keys[i]) { assert TypedFor(keys[i], Lookups(es, keys)[i]); }
    }
  }

  lemma FirstTyped(es: seq<Entry>)
    ensures AllTyped(FIRST_KEYS, Lookups(es, FIRST_KEYS)) <==>
            && Fits(es, "conn_id") && Fits(es, "conn_pubkey") && Fits(es, "conn_route") && Fits(es, "hint") && Fits(es, "incoming")
            && Fits(es, "keep_alive") && Fits(es, "optional") && Fits(es, "outgoing") && Fits(es, "request")
  {
    TypedKeys(es, FIRST_KEYS);
    hide AllTyped, Lookups, Fits;
    assert FIRST_KEYS[0] == "conn_id" && FIRST_KEYS[1] == "conn_pubkey" && FIRST_KEYS[2] == "conn_route" && FIRST_KEYS[3] == "hint";
    assert FIRST_KEYS[4] == "incoming" && FIRST_KEYS[5] == "keep_alive" && FIRST_KEYS[6] == "optional";
    assert FIRST_KEYS[7] == "outgoing" && FIRST_KEYS[8] == "request";
  }

  lemma MoreTyped(es: seq<Entry>, request: bool)
    ensures AllTyped(AskKeys(request), Lookups(es, AskKeys(request))) <==>
            && (request ==> Fits(es, "request_callback") && Fits(es, "request_tag") && Fits(es, "request_timeout"))
            && Fits(es, "send") && Fits(es, "send_fail") && Fits(es, "send_full_q")
  {
    TypedKeys(es, AskKeys(request));
    hide AllTyped, Lookups, Fits;
    var keys := AskKeys(request);
    if request {
      assert keys[0] == "request_callback" && keys[1] == "request_tag" && keys[2] == "request_timeout";
      assert keys[3] == "send" && keys[4] == "send_fail" && keys[5] == "send_full_q";
    } else {
      assert keys[0] == "send" && keys[1] == "send_fail" && keys[2] == "send_full_q";
    }
  }

  lemma TextFits(es: seq<Entry>)
    ensures forall k | k in {"conn_pubkey", "conn_route", "hint", "request_tag"} :: Fits(es, k) <==> IsText(es, k)
  {
    hide Lookup;
  }

  lemma FlagFits(es: seq<Entry>)
    ensures forall k | k in {"incoming", "optional", "outgoing", "request"} :: Fits(es, k) <==> IsFlag(es, k)
  {
    hide Lookup;
  }

  lemma CountFits(es: seq<Entry>)
    ensures forall k | k in {"keep_alive", "request_callback", "request_timeout", "send_fail", "send_full_q"} ::
              Fits(es, k) <==> IsCount(es, k)
  {
    hide Lookup;
  }

  lemma OtherFits(es: seq<Entry>)
    ensures (Fits(es, "send") <==> IsList(es, "send")) && (Fits(es, "conn_id") <==> IsId(es, "conn_id"))
  {
    hide Lookup;
  }

  lemma TypesMean(es: seq<Entry>)
    ensures WellTyped(es) <==>
            && Fits(es, "conn_id") && Fits(es, "conn_pubkey") && Fits(es, "conn_route") && Fits(es, "hint") && Fits(es, "incoming")
            && Fits(es, "keep_alive") && Fits(es, "optional") && Fits(es, "outgoing") && Fits(es, "request")
            && (Bool(Lookup(es, "request")) ==> Fits(es, "request_callback") && Fits(es, "request_tag") && Fits(es, "request_timeout"))
            && Fits(es, "send") && Fits(es, "send_fail") && Fits(es, "send_full_q")
  {
    TextFits(es);
    FlagFits(es);
    CountFits(es);
    OtherFits(es);
    hide Lookup, Fits, IsText, IsFlag, IsCount, IsId, IsList;
  }

  /** The proxy accepts a control dict if and only if it is complete and well typed; otherwise it throws. */
  lemma AcceptedExactly(es: seq<Entry>)
    requires WellFormed(Dict(es))
    ensures ReadSend(Serialize(Dict(es))).Some? <==> WellTyped(es) && Complete(es)
  {
    var request := Bool(Lookup(es, "request"));
    var first, more := Lookups(es, FIRST_KEYS), Lookups(es, AskKeys(request));
    AskedOf(es);
    FirstTyped(es);
    MoreTyped(es, request);
    TypesMean(es);
    LookupsAre(es, FIRST_KEYS);
    LookupsAre(es, AskKeys(request));
    hide Serialize, Queries, WellFormed, OpenDict, AskAll, Fits, WellTyped, AllTyped, Lookups, Lookup;
    assert first[8] == Lookup(es, "request");
    if WellTyped(es) { CompleteExactly(es, first, more); }
  }

  lemma CompleteExactly(es: seq<Entry>, first: seq<Option<Value>>, more: seq<Option<Value>>)
    requires |first| == 9 && |more| == |AskKeys(Bool(first[8]))|
    requires forall i | 0 <= i < 9 :: first[i] == Lookup(es, FIRST_KEYS[i])
    requires forall i | 0 <= i < |more| :: more[i] == Lookup(es, AskKeys(Bool(first[8]))[i])
    requires WellTyped(es)
    ensures InterpretTyped(first, more).Some? <==> Complete(es)
  {
    assert first[0] == Lookup(es, "conn_id") && first[1] == Lookup(es, "conn_pubkey") && first[8] == Lookup(es, "request");
    var request := Bool(first[8]);
    var keys := AskKeys(request);
    assert request ==> keys[0] == "request_callback" && keys[1] == "request_tag" && keys[3] == "send";
    assert !request ==> keys[0] == "send";
    assert IsId(es, "conn_id");
    hide Lookup, AskKeys, WellTyped;
    DestinedExactly(first[0], first[1], first[2]);
    hide Destined, Number;
    assert request <==> WantsReply(es);
    var last := if request then more[3..] else more;
    assert last[0] == Lookup(es, "send");
  }

  lemma DestinedExactly(id: Option<Value>, pubkey: Option<Value>, route: Option<Value>)
    requires id.Some? ==> id.value.Signed? || id.value.Unsigned?
    ensures Destined(id, pubkey, route).Some? <==> (id.Some? <==> !pubkey.Some?) && (id.Some? ==> Number(id, 0) != -1)
  {
  }
}
