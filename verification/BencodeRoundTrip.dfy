/** Reading back what was written, for every nested value and every following input. */
module BencodeRoundTrip {
  import opened BencodeModel
  import opened BencodeNumbers

  /** Values the variant can hold: 64-bit integers, addressable strings, dicts with distinct keys. */
  predicate WellFormed(v: Value)
    decreases v, 0
  {
    match v
    case Str(s) => |s| < TWO64
    case View(s) => |s| < TWO64
    case Signed(n) => -TWO63 <= n < TWO63
    case Unsigned(n) => 0 <= n < TWO64
    case List(items) => WellFormedItems(items)
    case Dict(entries) => Sorted(entries) && WellFormedEntries(entries)
  }

  predicate WellFormedItems(items: seq<Value>)
    decreases items, 1
  {
    items != [] ==> WellFormed(items[0]) && WellFormedItems(items[1..])
  }

  predicate WellFormedEntries(entries: seq<Entry>)
    decreases entries, 1
  {
    entries != [] ==>
      |entries[0].key| < TWO64 && WellFormed(entries[0].value) && WellFormedEntries(entries[1..])
  }

  /** What a value becomes on the way: views are owned, non-negative integers unsigned. */
  function Normal(v: Value): Value
    decreases v, 0
  {
    match v
    case Str(s) => Str(s)
    case View(s) => Str(s)
    case Signed(n) => if n < 0 then Signed(n) else Unsigned(n)
    case Unsigned(n) => Unsigned(n)
    case List(items) => List(NormalItems(items))
    case Dict(entries) => Dict(NormalEntries(entries))
  }

  function NormalItems(items: seq<Value>): seq<Value>
    decreases items, 1
  {
    if items == [] then [] else [Normal(items[0])] + NormalItems(items[1..])
  }

  function NormalEntries(entries: seq<Entry>): seq<Entry>
    decreases entries, 1
  {
    if entries == [] then [] else [Entry(entries[0].key, Normal(entries[0].value))] + NormalEntries(entries[1..])
  }

  // ----- key order -----

  lemma {:induction false} LessTrans(a: string, b: string, c: string)
    requires Less(a, b) && Less(b, c)
    ensures Less(a, c)
    decreases |a|
  {
    if a != "" && a[0] == b[0] == c[0] {
      LessTrans(a[1..], b[1..], c[1..]);
    }
  }

  lemma {:induction false} LessIrreflexive(a: string)
    ensures !Less(a, a)
    decreases |a|
  {
    if a != "" {
      LessIrreflexive(a[1..]);
    }
  }

  lemma {:induction false} LessTotal(a: string, b: string)
    ensures Less(a, b) || a == b || Less(b, a)
    decreases |a|
  {
    if a != "" && b != "" && a[0] == b[0] {
      LessTotal(a[1..], b[1..]);
      if a[1..] == b[1..] {
        assert a == [a[0]] + a[1..] && b == [b[0]] + b[1..];
      }
    }
  }

  // ----- maps -----

  lemma {:induction false} InsertAtEnd(es: seq<Entry>, key: string, value: Value)
    requires forall i | 0 <= i < |es| :: Less(es[i].key, key)
    ensures Insert(es, key, value) == es + [Entry(key, value)]
    decreases |es|
  {
    if es != [] {
      assert Less(es[0].key, key);
      LessIrreflexive(key);
      if Less(key, es[0].key) {
        LessTrans(key, es[0].key, key);
      }
      InsertAtEnd(es[1..], key, value);
    }
  }

  /** Entries that arrive in key order are kept as they are. */
  lemma {:induction false} CollectSorted(es: seq<Entry>)
    requires Sorted(es)
    ensures Collect(es) == es
  {
    if es != [] {
      var n := |es| - 1;
      CollectSorted(es[..n]);
      InsertAtEnd(es[..n], es[n].key, es[n].value);
      assert es == es[..n] + [Entry(es[n].key, es[n].value)];
    }
  }

  lemma {:induction false} NormalEntriesKeys(es: seq<Entry>)
    ensures |NormalEntries(es)| == |es|
    ensures forall i | 0 <= i < |es| :: NormalEntries(es)[i] == Entry(es[i].key, Normal(es[i].value))
  {
    if es != [] {
      NormalEntriesKeys(es[1..]);
    }
  }

  // ----- the round trip -----

  lemma FirstChar(v: Value)
    ensures |Serialize(v)| >= 2
    ensures Serialize(v)[0] == 'd' || Serialize(v)[0] == 'l' || Serialize(v)[0] == 'i' || IsDigit(Serialize(v)[0])
  {
    match v
    case Str(s) => PrintNatDigits(|s|);
    case View(s) => PrintNatDigits(|s|);
    case _ =>
  }

  /** Parsing the encoding of a value, whatever follows it, yields the value and leaves exactly what follows. */
  lemma {:induction false} RoundTrip(v: Value, r: string)
    requires WellFormed(v)
    ensures ParseValue(Serialize(v) + r) == Ok(Normal(v), r)
    decreases v, 0
  {
    match v
    case Str(s) => StringRoundTrip(s, r);
    case View(s) => StringRoundTrip(s, r);
    case Signed(n) => IntegerRoundTrip(n, r);
    case Unsigned(n) => IntegerRoundTrip(n, r);
    case List(items) =>
      ItemsRoundTrip(items, r);
      ListHead(SerializeItems(items), r);
    case Dict(entries) =>
      EntriesRoundTrip(entries, r);
      DictHead(SerializeEntries(entries), r);
      NormalEntriesKeys(entries);
      CollectSorted(NormalEntries(entries));
  }

  lemma StringRoundTrip(s: string, r: string)
    requires |s| < TWO64
    ensures ParseValue(PrintString(s) + r) == Ok(Str(s), r)
  {
    PrintNatDigits(|s|);
    ParseStringPrinted(s, r);
  }

  lemma IntegerRoundTrip(n: int, r: string)
    requires -TWO63 <= n < TWO64
    ensures ParseValue("i" + PrintInt(n) + "e" + r) == Ok(if n < 0 then Signed(n) else Unsigned(n), r)
  {
    hide ParseInteger, PrintInt;
    ParseIntegerPrinted(n, r);
  }

  lemma ListHead(body: string, r: string)
    ensures var s := "l" + body + "e" + r; s[0] == 'l' && s[1..] == body + "e" + r && |s| >= 2
  {
  }

  lemma DictHead(body: string, r: string)
    ensures var s := "d" + body + "e" + r; s[0] == 'd' && s[1..] == body + "e" + r && |s| >= 2
  {
  }

  lemma {:induction false} ItemsRoundTrip(items: seq<Value>, r: string)
    requires WellFormedItems(items)
    ensures ParseItems(SerializeItems(items) + "e" + r) == Ok(NormalItems(items), r)
    decreases items, 1
  {
    if items == [] {
      assert (SerializeItems(items) + "e" + r)[1..] == r;
    } else {
      var rest := SerializeItems(items[1..]) + "e" + r;
      assert SerializeItems(items) + "e" + r == Serialize(items[0]) + rest;
      FirstChar(items[0]);
      RoundTrip(items[0], rest);
      ItemsRoundTrip(items[1..], r);
    }
  }

  lemma {:induction false} EntriesRoundTrip(es: seq<Entry>, r: string)
    requires WellFormedEntries(es)
    ensures ParseEntries(SerializeEntries(es) + "e" + r) == Ok(NormalEntries(es), r)
    decreases es, 1
  {
    if es == [] {
      assert (SerializeEntries(es) + "e" + r)[1..] == r;
    } else {
      var rest := SerializeEntries(es[1..]) + "e" + r;
      var mid := Serialize(es[0].value) + rest;
      EntriesSplit(es, r);
      StringStarts(es[0].key, mid);
      ParseStringPrinted(es[0].key, mid);
      assert es[0].value < es[0] && es[0] in es;
      RoundTrip(es[0].value, rest);
      EntriesRoundTrip(es[1..], r);
      hide ParseValue, ParseString, PrintString, Normal, Serialize, WellFormed, SerializeEntries, ParseEntries;
      EntryParsed(PrintString(es[0].key) + mid, es[0].key, mid, Normal(es[0].value), rest, NormalEntries(es[1..]), r);
    }
  }

  lemma EntriesSplit(es: seq<Entry>, r: string)
    requires es != []
    ensures SerializeEntries(es) + "e" + r
         == PrintString(es[0].key) + (Serialize(es[0].value) + (SerializeEntries(es[1..]) + "e" + r))
  {
    hide PrintString, Serialize;
  }

  lemma StringStarts(key: string, mid: string)
    ensures PrintString(key) + mid != "" && (PrintString(key) + mid)[0] != 'e'
  {
    PrintNatDigits(|key|);
    hide PrintNat;
    assert (PrintString(key) + mid)[0] == PrintNat(|key|)[0];
  }

  /** One entry in front of the entries that are already known to parse. */
  lemma EntryParsed(s: string, key: string, mid: string, v: Value, rest: string, es: seq<Entry>, r: string)
    requires s != "" && s[0] != 'e' && ParseString(s) == Ok(key, mid)
    requires ParseValue(mid) == Ok(v, rest) && ParseEntries(rest) == Ok(es, r)
    ensures ParseEntries(s) == Ok([Entry(key, v)] + es, r)
  {
    hide ParseString, ParseValue;
  }

  /** No encoding is a prefix of another: equal inputs come from the same value and the same remainder. */
  lemma PrefixFree(v: Value, r: string, w: Value, q: string)
    requires WellFormed(v) && WellFormed(w) && Serialize(v) + r == Serialize(w) + q
    ensures Normal(v) == Normal(w) && r == q
  {
    RoundTrip(v, r);
    RoundTrip(w, q);
  }

  // ----- everything parsed can be written again -----

  lemma {:induction false} InsertKeepsSorted(es: seq<Entry>, key: string, value: Value)
    requires Sorted(es)
    ensures Sorted(Insert(es, key, value))
    ensures forall i | 0 <= i < |Insert(es, key, value)| ::
              Insert(es, key, value)[i] == Entry(key, value) || Insert(es, key, value)[i] in es
    decreases |es|
  {
    if es != [] && es[0].key != key {
      var t := Insert(es, key, value);
      if Less(key, es[0].key) {
        forall j | 0 < j < |t| ensures Less(t[0].key, t[j].key) {
          if j > 1 { LessTrans(key, es[0].key, es[j - 1].key); }
        }
      } else {
        LessTotal(key, es[0].key);
        var u := Insert(es[1..], key, value);
        InsertKeepsSorted(es[1..], key, value);
        forall j | 0 <= j < |u| ensures Less(es[0].key, u[j].key) {
          if u[j] != Entry(key, value) {
            var k :| 0 <= k < |es[1..]| && es[1..][k] == u[j];
            assert es[k + 1] == u[j];
          }
        }
        assert t == [es[0]] + u;
      }
    }
  }

  lemma {:induction false} CollectKeepsSorted(es: seq<Entry>)
    ensures Sorted(Collect(es))
    ensures forall i | 0 <= i < |Collect(es)| :: Collect(es)[i] in es
  {
    if es != [] {
      var n := |es| - 1;
      CollectKeepsSorted(es[..n]);
      InsertKeepsSorted(Collect(es[..n]), es[n].key, es[n].value);
      forall i | 0 <= i < |Collect(es)| ensures Collect(es)[i] in es {
        if Collect(es)[i] == Entry(es[n].key, es[n].value) {
          assert es[n] in es;
        } else {
          assert Collect(es)[i] in es[..n];
        }
      }
    }
  }

  lemma {:induction false} EntriesAll(es: seq<Entry>)
    ensures WellFormedEntries(es) <==> forall e | e in es :: |e.key| < TWO64 && WellFormed(e.value)
  {
    if es != [] {
      EntriesAll(es[1..]);
      assert forall e :: e in es <==> e == es[0] || e in es[1..];
    }
  }

  lemma {:induction false} ParsedIsWellFormed(s: string)
    ensures ParseValue(s).Ok? ==> WellFormed(ParseValue(s).value)
    decreases |s|, 0
  {
    if |s| >= 2 {
      if s[0] == 'l' {
        ParsedItemsAreWellFormed(s[1..]);
      } else if s[0] == 'd' {
        ParsedEntriesAreWellFormed(s[1..]);
        if ParseEntries(s[1..]).Ok? {
          var es := ParseEntries(s[1..]).value;
          CollectKeepsSorted(es);
          EntriesAll(es);
          EntriesAll(Collect(es));
        }
      }
    }
  }

  lemma {:induction false} ParsedItemsAreWellFormed(s: string)
    ensures ParseItems(s).Ok? ==> WellFormedItems(ParseItems(s).value)
    decreases |s|, 1
  {
    if s != "" && s[0] != 'e' {
      ParsedIsWellFormed(s);
      var r := ParseValue(s);
      if r.Ok? {
        ParsedItemsAreWellFormed(r.rest);
        var q := ParseItems(r.rest);
        if q.Ok? { assert ([r.value] + q.value)[1..] == q.value; }
      }
    }
  }

  lemma {:induction false} ParsedEntriesAreWellFormed(s: string)
    ensures ParseEntries(s).Ok? ==> WellFormedEntries(ParseEntries(s).value)
    decreases |s|, 1
  {
    if s != "" && s[0] != 'e' {
      var k := ParseString(s);
      if k.Ok? {
        ParsedIsWellFormed(k.rest);
        var r := ParseValue(k.rest);
        if r.Ok? {
          ParsedEntriesAreWellFormed(r.rest);
          var q := ParseEntries(r.rest);
          if q.Ok? { assert ([Entry(k.value, r.value)] + q.value)[1..] == q.value; }
        }
      }
    }
  }

  lemma {:induction false} NormalSerializes(v: Value)
    ensures Serialize(Normal(v)) == Serialize(v)
    decreases v, 0
  {
    match v
    case List(items) => NormalItemsSerialize(items);
    case Dict(entries) => NormalEntriesSerialize(entries);
    case _ =>
  }

  lemma {:induction false} NormalItemsSerialize(items: seq<Value>)
    ensures SerializeItems(NormalItems(items)) == SerializeItems(items)
    decreases items, 1
  {
    if items != [] {
      NormalSerializes(items[0]);
      NormalItemsSerialize(items[1..]);
      assert NormalItems(items)[1..] == NormalItems(items[1..]);
    }
  }

  lemma {:induction false} NormalEntriesSerialize(es: seq<Entry>)
    ensures SerializeEntries(NormalEntries(es)) == SerializeEntries(es)
    decreases es, 1
  {
    if es != [] {
      assert es[0].value < es[0] && es[0] in es;
      NormalSerializes(es[0].value);
      NormalEntriesSerialize(es[1..]);
      assert NormalEntries(es)[1..] == NormalEntries(es[1..]);
    }
  }

  /** Rewriting any accepted input gives a canonical encoding: parsing that and writing again changes nothing. */
  lemma CanonicalIdempotent(s: string)
    requires ParseValue(s).Ok?
    ensures var c := Serialize(ParseValue(s).value);
            ParseValue(c).Ok? && ParseValue(c).rest == "" && Serialize(ParseValue(c).value) == c
  {
    var v := ParseValue(s).value;
    ParsedIsWellFormed(s);
    RoundTrip(v, "");
    assert Serialize(v) + "" == Serialize(v);
    NormalSerializes(v);
  }
}
