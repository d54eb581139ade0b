/** What a parsed dict holds, whatever order its keys came in; and the examples of BEP 3. */
module BencodeDicts {
  import opened Basics
  import opened BencodeModel
  import opened BencodeRoundTrip

  /** The value of the first entry with the given key. */
  function First(es: seq<Entry>, key: string): Option<Value> {
    if es == [] then None else if es[0].key == key then Some(es[0].value) else First(es[1..], key)
  }

  lemma {:induction false} FirstConcat(a: seq<Entry>, b: seq<Entry>, key: string)
    ensures First(a + b, key) == if First(a, key).Some? then First(a, key) else First(b, key)
    decreases |a|
  {
    if a == [] {
      assert a + b == b;
    } else {
      assert (a + b)[0] == a[0] && (a + b)[1..] == a[1..] + b;
      FirstConcat(a[1..], b, key);
    }
  }

  lemma {:induction false} NotBelow(es: seq<Entry>, key: string)
    requires forall i | 0 <= i < |es| :: es[i].key != key
    ensures First(es, key) == None
  {
    if es != [] { NotBelow(es[1..], key); }
  }

  lemma {:induction false} InsertFirst(es: seq<Entry>, k: string, v: Value, key: string)
    requires Sorted(es)
    ensures First(Insert(es, k, v), key) ==
            if key == k && First(es, k).None? then Some(v) else First(es, key)
    decreases |es|
  {
    if es == [] {
      assert [Entry(k, v)][1..] == [];
    } else if es[0].key == k {
    } else if Less(k, es[0].key) {
      assert ([Entry(k, v)] + es)[1..] == es;
      if key == k {
        forall i | 0 <= i < |es| ensures es[i].key != k {
          if i > 0 { LessTrans(k, es[0].key, es[i].key); }
          NotLess(es[i].key);
        }
        NotBelow(es, k);
      }
    } else {
      assert ([es[0]] + Insert(es[1..], k, v))[1..] == Insert(es[1..], k, v);
      InsertFirst(es[1..], k, v, key);
    }
  }

  lemma {:induction false} NotLess(a: string)
    ensures !Less(a, a)
  {
    if a != "" { NotLess(a[1..]); }
  }

  /** A dict holds for each key the first value that came with it, in whatever order the keys came. */
  lemma {:induction false} CollectFirst(es: seq<Entry>, key: string)
    ensures First(Collect(es), key) == First(es, key)
  {
    if es != [] {
      var n := |es| - 1;
      CollectFirst(es[..n], key);
      CollectFirst(es[..n], es[n].key);
      CollectKeepsSorted(es[..n]);
      InsertFirst(Collect(es[..n]), es[n].key, es[n].value, key);
      assert es == es[..n] + [es[n]];
      FirstConcat(es[..n], [es[n]], key);
      assert [es[n]][1..] == [];
    }
  }

  /** The parsed dict is the sorted one with exactly these values. */
  lemma ParsedDict(s: string, key: string)
    requires |s| >= 2 && s[0] == 'd' && ParseEntries(s[1..]).Ok?
    ensures ParseValue(s).Ok? && ParseValue(s).value.Dict? && Sorted(ParseValue(s).value.entries)
    ensures First(ParseValue(s).value.entries, key) == First(ParseEntries(s[1..]).value, key)
    ensures ParseValue(s).rest == ParseEntries(s[1..]).rest
  {
    var es := ParseEntries(s[1..]).value;
    CollectFirst(es, key);
    CollectKeepsSorted(es);
    hide ParseEntries, Collect;
  }

  // ----- the examples of BEP 3 -----

  lemma SmallNumbers()
    ensures PrintNat(1) == "1" && PrintNat(3) == "3" && PrintNat(4) == "4"
  {
  }

  lemma TextExample(s: string, text: string)
    requires (|s| == 1 && text == "1:" + s) || (|s| == 3 && text == "3:" + s) || (|s| == 4 && text == "4:" + s)
    ensures Serialize(Str(s)) == text
  {
    SmallNumbers();
  }

  lemma ItemsOf(a: Value, b: Value)
    ensures Serialize(List([a, b])) == "l" + Serialize(a) + Serialize(b) + "e"
  {
    assert [a, b][1..] == [b] && [b][1..] == [];
    assert SerializeItems([b]) == Serialize(b) + SerializeItems([]);
    assert SerializeItems([a, b]) == Serialize(a) + SerializeItems([b]);
  }

  lemma EntryOf(e: Entry, rest: seq<Entry>)
    ensures SerializeEntries([e] + rest) == PrintString(e.key) + Serialize(e.value) + SerializeEntries(rest)
  {
    assert ([e] + rest)[1..] == rest;
  }

  lemma NumberExamples()
    ensures Serialize(Unsigned(3)) == "i3e" && Serialize(Signed(-3)) == "i-3e"
  {
    SmallNumbers();
  }

  lemma ListExample()
    ensures Serialize(Str("spam")) == "4:spam"
    ensures Serialize(List([Str("spam"), Str("eggs")])) == "l4:spam4:eggse"
  {
    ItemsOf(Str("spam"), Str("eggs"));
    TextExample("spam", "4:spam");
    TextExample("eggs", "4:eggs");
    hide Serialize;
  }

  lemma DictExample()
    ensures Serialize(Dict([Entry("cow", Str("moo")), Entry("spam", Str("eggs"))])) == "d3:cow3:moo4:spam4:eggse"
  {
    var cow, spam := Entry("cow", Str("moo")), Entry("spam", Str("eggs"));
    assert [cow] + [spam] == [cow, spam] && [spam] + [] == [spam];
    assert Serialize(Dict([cow, spam])) == "d" + SerializeEntries([cow, spam]) + "e";
    assert SerializeEntries([]) == "";
    EntryOf(cow, [spam]);
    EntryOf(spam, []);
    TextExample("cow", "3:cow");
    TextExample("moo", "3:moo");
    TextExample("spam", "4:spam");
    TextExample("eggs", "4:eggs");
    assert PrintString("cow") == "3:cow" && PrintString("spam") == "4:spam";
    hide Serialize, SerializeEntries, PrintString;
  }

  lemma NestedExample()
    ensures Serialize(Dict([Entry("spam", List([Str("a"), Str("b")]))])) == "d4:spaml1:a1:bee"
  {
    var list := List([Str("a"), Str("b")]);
    var spam := Entry("spam", list);
    assert [spam] + [] == [spam];
    assert Serialize(Dict([spam])) == "d" + SerializeEntries([spam]) + "e";
    assert SerializeEntries([]) == "";
    EntryOf(spam, []);
    ItemsOf(Str("a"), Str("b"));
    TextExample("a", "1:a");
    TextExample("b", "1:b");
    TextExample("spam", "4:spam");
    assert PrintString("spam") == "4:spam";
    hide Serialize, SerializeEntries, PrintString;
  }

  /** The texts that BEP 3 gives for its examples. */
  lemma Examples()
    ensures Serialize(Str("spam")) == "4:spam"
    ensures Serialize(Unsigned(3)) == "i3e" && Serialize(Signed(-3)) == "i-3e"
    ensures Serialize(List([Str("spam"), Str("eggs")])) == "l4:spam4:eggse"
    ensures Serialize(Dict([Entry("cow", Str("moo")), Entry("spam", Str("eggs"))])) == "d3:cow3:moo4:spam4:eggse"
    ensures Serialize(Dict([Entry("spam", List([Str("a"), Str("b")]))])) == "d4:spaml1:a1:bee"
  {
    hide Serialize;
    NumberExamples();
    ListExample();
    DictExample();
    NestedExample();
  }
}
