/** Walking an encoded dict by ascending keys finds exactly what a map lookup would. */
module BencodeSeek {
  import opened Basics
  import opened BencodeModel
  import opened BencodeNumbers
  import opened BencodeRoundTrip
  import opened BencodeSkip

  /** Position in a dict: the remaining data, and the next key if it has been read already. */
  datatype Cursor = Cursor(data: string, key: Option<string>)

  /** A step of the consumer: the position after it and its answer, or an exception. */
  datatype Stepped<+T> = Moved(cursor: Cursor, value: T) | Thrown

  function OpenDict(s: string): Stepped<()> {
    if |s| < 2 || s[0] != 'd' then Thrown else Moved(Cursor(s[1..], None), ())
  }

  function ConsumeKey(c: Cursor): (r: Stepped<bool>)
    ensures r.Moved? ==> |r.cursor.data| <= |c.data| && (r.value <==> r.cursor.key.Some?)
  {
    if c.key.Some? then Moved(c, true)
    else if c.data == "" then Thrown
    else if c.data[0] == 'e' then Moved(c, false)
    else match ParseString(c.data)
      case Invalid => Thrown
      case Ok(k, rest) =>
        if rest == "" || rest[0] == 'e' then Thrown else Moved(Cursor(rest, Some(k)), true)
  }

  /** The key as it is compared: the empty string when there is none. */
  function CachedKey(c: Cursor): string {
    if c.key.Some? then c.key.value else ""
  }

  function SkipUntil(c: Cursor, find: string): (r: Stepped<bool>)
    decreases |c.data|
  {
    match ConsumeKey(c)
    case Thrown => Thrown
    case Moved(d, has) =>
      if has && Less(CachedKey(d), find) then
        match SkipValue(d.data)
        case Invalid => Thrown
        case Ok(_, rest) => SkipUntil(Cursor(rest, None), find)
      else Moved(d, CachedKey(d) == find)
  }

  /** Consumes the value the cursor stands at, together with its key. */
  function TakeValue(c: Cursor): Stepped<Value> {
    match ConsumeKey(c)
    case Thrown => Thrown
    case Moved(d, has) =>
      if !has then Thrown
      else match ParseValue(d.data)
        case Invalid => Thrown
        case Ok(v, rest) => Moved(Cursor(rest, None), v)
  }

  /** One query per key: seek it and, on a hit, consume its value. */
  function Queries(c: Cursor, keys: seq<string>): (r: Stepped<seq<Option<Value>>>)
    ensures r.Moved? ==> |r.value| == |keys|
    decreases |keys|
  {
    if keys == [] then Moved(c, [])
    else match SkipUntil(c, keys[0])
      case Thrown => Thrown
      case Moved(d, found) =>
        if !found then Answer(None, Queries(d, keys[1..]))
        else match TakeValue(d)
          case Thrown => Thrown
          case Moved(e, v) => Answer(Some(v), Queries(e, keys[1..]))
  }

  function Answer(a: Option<Value>, r: Stepped<seq<Option<Value>>>): Stepped<seq<Option<Value>>> {
    match r
    case Thrown => Thrown
    case Moved(c, rest) => Moved(c, [a] + rest)
  }

  // ----- the reference: map lookup -----

  function Lookup(es: seq<Entry>, key: string): Option<Value> {
    if es == [] then None
    else if es[0].key == key then Some(Normal(es[0].value))
    else Lookup(es[1..], key)
  }

  function Lookups(es: seq<Entry>, keys: seq<string>): seq<Option<Value>> {
    if keys == [] then [] else [Lookup(es, keys[0])] + Lookups(es, keys[1..])
  }

  predicate Ascending(keys: seq<string>) {
    && (forall i | 0 <= i < |keys| :: keys[i] != "")
    && (forall i, j | 0 <= i < j < |keys| :: Less(keys[i], keys[j]))
  }

  // ----- where a cursor stands -----

  predicate Stands(es: seq<Entry>, r: string, i: nat, c: Cursor) {
    && i <= |es|
    && (c.key.None? ==> c.data == SerializeEntries(es[i..]) + "e" + r)
    && (c.key.Some? ==> i < |es| && c.key.value == es[i].key
                        && c.data == Serialize(es[i].value) + (SerializeEntries(es[i + 1..]) + "e" + r))
  }

  lemma {:induction false} EntryWellFormed(es: seq<Entry>, i: nat)
    requires WellFormedEntries(es) && i < |es|
    ensures |es[i].key| < TWO64 && WellFormed(es[i].value)
    decreases |es|
  {
    if i > 0 {
      EntryWellFormed(es[1..], i - 1);
    }
  }

  lemma ConsumeKeyStands(es: seq<Entry>, r: string, i: nat, c: Cursor)
    requires WellFormedEntries(es) && Stands(es, r, i, c)
    ensures ConsumeKey(c).Moved? && Stands(es, r, i, ConsumeKey(c).cursor)
    ensures ConsumeKey(c).value <==> i < |es|
    ensures i < |es| ==> ConsumeKey(c).cursor.key == Some(es[i].key)
    ensures i == |es| ==> ConsumeKey(c).cursor.key == None
  {
    if c.key.Some? {
      KeyCached(c);
      hide ConsumeKey, SerializeEntries, Serialize, WellFormedEntries;
    } else if i == |es| {
      assert es[i..] == [];
      assert c.data == "e" + r;
      KeyAtEnd(c.data);
      hide ConsumeKey, SerializeEntries, Serialize, WellFormedEntries;
    } else {
      hide SerializeEntries, Serialize, WellFormedEntries, PrintString, ConsumeKey;
      KeyStands(es, r, i, c);
    }
  }

  lemma KeyStands(es: seq<Entry>, r: string, i: nat, c: Cursor)
    requires WellFormedEntries(es) && Stands(es, r, i, c) && c.key.None? && i < |es|
    ensures var mid := Serialize(es[i].value) + (SerializeEntries(es[i + 1..]) + "e" + r);
            ConsumeKey(c) == Moved(Cursor(mid, Some(es[i].key)), true)
  {
    EntryWellFormed(es, i);
    EntriesFrom(es, i, r);
    FirstChar(es[i].value);
    hide SerializeEntries, Serialize, WellFormedEntries, PrintString, ConsumeKey;
    var mid := Serialize(es[i].value) + (SerializeEntries(es[i + 1..]) + "e" + r);
    KeyRead(es[i].key, mid);
    assert c == Cursor(PrintString(es[i].key) + mid, None);
  }

  lemma KeyCached(c: Cursor)
    requires c.key.Some?
    ensures ConsumeKey(c) == Moved(c, true)
  {
  }

  lemma KeyAtEnd(data: string)
    requires data != "" && data[0] == 'e'
    ensures ConsumeKey(Cursor(data, None)) == Moved(Cursor(data, None), false)
  {
  }

  lemma EntriesFrom(es: seq<Entry>, i: nat, r: string)
    requires i < |es|
    ensures SerializeEntries(es[i..]) + "e" + r
         == PrintString(es[i].key) + (Serialize(es[i].value) + (SerializeEntries(es[i + 1..]) + "e" + r))
  {
    var tail := es[i..];
    assert tail[0] == es[i] && tail[1..] == es[i + 1..];
    Reassociate(PrintString(es[i].key), Serialize(es[i].value), SerializeEntries(es[i + 1..]), r);
  }

  lemma Reassociate(a: string, b: string, c: string, r: string)
    ensures a + b + c + "e" + r == a + (b + (c + "e" + r))
  {
  }

  lemma KeyRead(key: string, mid: string)
    requires |key| < TWO64 && mid != "" && mid[0] != 'e'
    ensures ConsumeKey(Cursor(PrintString(key) + mid, None)) == Moved(Cursor(mid, Some(key)), true)
  {
    PrintNatDigits(|key|);
    ParseStringPrinted(key, mid);
    hide ParseString, PrintNat;
    assert (PrintString(key) + mid)[0] == PrintNat(|key|)[0];
    assert IsDigit(PrintNat(|key|)[0]);
  }

  lemma SkipStands(es: seq<Entry>, r: string, i: nat, c: Cursor)
    requires WellFormedEntries(es) && Stands(es, r, i, c) && c.key.Some?
    ensures SkipValue(c.data).Ok? && Stands(es, r, i + 1, Cursor(SkipValue(c.data).rest, None))
    ensures TakeValue(c) == Moved(Cursor(SkipValue(c.data).rest, None), Normal(es[i].value))
  {
    EntryWellFormed(es, i);
    RoundTrip(es[i].value, SerializeEntries(es[i + 1..]) + "e" + r);
    SkipAgrees(c.data);
  }

  lemma StandsWithin(es: seq<Entry>, r: string, i: nat, c: Cursor)
    requires Stands(es, r, i, c)
    ensures i <= |es|
  {
  }

  /** The seek stops at the first entry whose key is not below the sought one, and says whether it is that key. */
  lemma {:induction false} SeekStops(es: seq<Entry>, r: string, i: nat, c: Cursor, find: string) returns (j: nat)
    requires WellFormedEntries(es) && Stands(es, r, i, c)
    ensures i <= j <= |es|
    ensures forall k | i <= k < j :: Less(es[k].key, find)
    ensures j < |es| ==> !Less(es[j].key, find)
    ensures SkipUntil(c, find).Moved? && Stands(es, r, j, SkipUntil(c, find).cursor)
    ensures SkipUntil(c, find).cursor.key == if j < |es| then Some(es[j].key) else None
    ensures SkipUntil(c, find).value <==> (if j < |es| then es[j].key == find else find == "")
    decreases |c.data|
  {
    hide Stands, ConsumeKey, SkipValue, WellFormedEntries, Less;
    ConsumeKeyStands(es, r, i, c);
    StandsWithin(es, r, i, c);
    var d := ConsumeKey(c).cursor;
    if i < |es| && Less(es[i].key, find) {
      SkipStands(es, r, i, d);
      j := SeekStops(es, r, i + 1, Cursor(SkipValue(d.data).rest, None), find);
    } else {
      j := i;
    }
  }

  lemma {:induction false} LookupMisses(es: seq<Entry>, key: string)
    requires forall k | 0 <= k < |es| :: es[k].key != key
    ensures Lookup(es, key) == None
  {
    if es != [] {
      assert es[0].key != key;
      LookupMisses(es[1..], key);
    }
  }

  lemma {:induction false} LookupHits(es: seq<Entry>, j: nat)
    requires Sorted(es) && j < |es|
    ensures Lookup(es, es[j].key) == Some(Normal(es[j].value))
    decreases |es|
  {
    if j > 0 {
      assert Less(es[0].key, es[j].key);
      LessIrreflexive(es[0].key);
      LookupHits(es[1..], j - 1);
    }
  }

  /** In a sorted dict, an entry index separates smaller keys from larger ones. */
  lemma LookupAt(es: seq<Entry>, j: nat, find: string)
    requires Sorted(es) && j <= |es|
    requires forall k | 0 <= k < j :: Less(es[k].key, find)
    requires j < |es| ==> !Less(es[j].key, find)
    ensures Lookup(es, find) == if j < |es| && es[j].key == find then Some(Normal(es[j].value)) else None
  {
    LessIrreflexive(find);
    if j < |es| && es[j].key == find {
      LookupHits(es, j);
    } else {
      forall k | 0 <= k < |es| ensures es[k].key != find {
        assert k > j ==> Less(es[j].key, es[k].key);
      }
      LookupMisses(es, find);
    }
  }

  /** One query: where it leaves the cursor, and that its answer is the map's. */
  lemma QueryMatches(es: seq<Entry>, r: string, i: nat, c: Cursor, q: string) returns (n: nat, e: Cursor)
    requires Sorted(es) && WellFormedEntries(es) && Stands(es, r, i, c) && q != ""
    requires i <= |es| && forall k | 0 <= k < i :: Less(es[k].key, q)
    ensures Stands(es, r, n, e) && n <= |es| && forall k | 0 <= k < n :: es[k].key == q || Less(es[k].key, q)
    ensures SkipUntil(c, q).Moved?
    ensures if SkipUntil(c, q).value then TakeValue(SkipUntil(c, q).cursor).Moved?
              && TakeValue(SkipUntil(c, q).cursor).cursor == e
              && Lookup(es, q) == Some(TakeValue(SkipUntil(c, q).cursor).value)
            else e == SkipUntil(c, q).cursor && Lookup(es, q) == None
  {
    var j := SeekStops(es, r, i, c, q);
    hide SkipUntil, TakeValue, Stands, WellFormedEntries;
    LookupAt(es, j, q);
    n, e := j, SkipUntil(c, q).cursor;
    if j < |es| && es[j].key == q {
      SkipStands(es, r, j, e);
      n, e := j + 1, Cursor(SkipValue(e.data).rest, None);
    }
  }

  /** From any position that no later query needs to go behind, the answers are those of the map. */
  lemma {:induction false} QueriesMatch(es: seq<Entry>, r: string, i: nat, c: Cursor, keys: seq<string>)
    requires Sorted(es) && WellFormedEntries(es) && Stands(es, r, i, c) && Ascending(keys)
    requires i <= |es| && (keys != [] ==> forall k | 0 <= k < i :: Less(es[k].key, keys[0]))
    ensures Queries(c, keys).Moved? && Queries(c, keys).value == Lookups(es, keys)
    decreases |keys|
  {
    hide SkipUntil, TakeValue, Stands, WellFormedEntries, Sorted, Lookup;
    if keys != [] {
      var n, e := QueryMatches(es, r, i, c, keys[0]);
      if |keys| > 1 {
        forall k | 0 <= k < n ensures Less(es[k].key, keys[1..][0]) {
          assert Less(keys[0], keys[1]);
          if es[k].key != keys[0] { LessTrans(es[k].key, keys[0], keys[1]); }
        }
      }
      QueriesMatch(es, r, n, e, keys[1..]);
    }
  }

  /** On the encoding of any dict, strictly ascending queries answer as lookups in that dict. */
  lemma SeekIsLookup(es: seq<Entry>, r: string, keys: seq<string>)
    requires WellFormed(Dict(es)) && Ascending(keys)
    ensures OpenDict(Serialize(Dict(es)) + r).Moved?
    ensures var c := OpenDict(Serialize(Dict(es)) + r).cursor;
            Queries(c, keys).Moved? && Queries(c, keys).value == Lookups(es, keys)
  {
    var s := Serialize(Dict(es)) + r;
    assert s == "d" + SerializeEntries(es) + "e" + r;
    DictHead(SerializeEntries(es), r);
    assert es[0..] == es;
    QueriesMatch(es, r, 0, Cursor(s[1..], None), keys);
  }

  /** Seeking the empty key answers "found" exactly at an empty key or at the end, where there is no key at all. */
  lemma EmptyKeySeek(es: seq<Entry>, r: string, i: nat, c: Cursor)
    requires WellFormedEntries(es) && Stands(es, r, i, c)
    ensures SkipUntil(c, "").Moved? && (SkipUntil(c, "").value <==> i == |es| || es[i].key == "")
  {
    var j := SeekStops(es, r, i, c, "");
  }
}
