/** The deserializers and the streaming consumers as they run: loops that advance a view in place. */
module BencodeConsumers {
  import opened Basics
  import opened BencodeModel
  import opened BencodeNumbers
  import opened BencodeSeek

  // ----- deserializers -----

  lemma ExtractFromZero(s: string)
    requires s != "" && IsDigit(s[0])
    ensures ExtractUnsigned(s) == Accumulate(s, 0)
  {
    WrapFits(DigitValue(s[0]));
  }

  method ReadUnsigned(s: string) returns (r: Parsed<int>)
    ensures r == ExtractUnsigned(s)
  {
    if s == "" || !IsDigit(s[0]) {
      return Invalid;
    }
    ExtractFromZero(s);
    var cur, value := s, 0;
    while cur != "" && IsDigit(cur[0])
      invariant 0 <= value < TWO64 && Accumulate(cur, value) == Accumulate(s, 0)
      decreases |cur|
    {
      var bigger := Wrap(value * 10 + DigitValue(cur[0]));
      if bigger < value {
        return Invalid;
      }
      cur, value := cur[1..], bigger;
    }
    return Ok(value, cur);
  }

  method ReadString(s: string) returns (r: Parsed<string>)
    ensures r == ParseString(s)
  {
    if |s| < 2 || !IsDigit(s[0]) {
      return Invalid;
    }
    var n := ReadUnsigned(s);
    if n.Invalid? || n.rest == "" || n.rest[0] != ':' || n.value > |n.rest| - 1 {
      return Invalid;
    }
    return Ok(n.rest[1..1 + n.value], n.rest[1 + n.value..]);
  }

  method ReadInteger(s: string) returns (r: Parsed<Magnitude>)
    ensures r == ParseInteger(s)
  {
    if |s| < 3 || s[0] != 'i' {
      return Invalid;
    }
    var cur := s[1..];
    var negative := false;
    if cur[0] == '-' {
      negative := true;
      cur := cur[1..];
      assert cur == s[2..];
    }
    var n := ReadUnsigned(cur);
    if n.Invalid? || n.rest == "" || n.rest[0] != 'e' || (negative && n.value > TWO63) {
      return Invalid;
    }
    return Ok(Magnitude(n.value, negative), n.rest[1..]);
  }

  function After<T>(first: seq<T>, r: Parsed<seq<T>>): Parsed<seq<T>> {
    match r case Invalid => Invalid case Ok(more, rest) => Ok(first + more, rest)
  }

  lemma AfterOne<T>(first: seq<T>, x: T, r: Parsed<seq<T>>)
    ensures After(first, After([x], r)) == After(first + [x], r)
  {
    if r.Ok? { assert first + ([x] + r.value) == first + [x] + r.value; }
  }

  method ReadList(s: string) returns (r: Parsed<seq<Value>>)
    ensures r == if |s| < 2 || s[0] != 'l' then Invalid else ParseItems(s[1..])
    decreases |s|, 0
  {
    if |s| < 2 || s[0] != 'l' {
      return Invalid;
    }
    var cur := s[1..];
    var list := [];
    assert forall q: Parsed<seq<Value>> :: After([], q) == q by {
      forall q: Parsed<seq<Value>> ensures After([], q) == q {
        if q.Ok? { assert [] + q.value == q.value; }
      }
    }
    while cur != "" && cur[0] != 'e'
      invariant |cur| < |s| && After(list, ParseItems(cur)) == ParseItems(s[1..])
      decreases |cur|
    {
      var v := ReadValue(cur);
      if v.Invalid? {
        return Invalid;
      }
      AfterOne(list, v.value, ParseItems(v.rest));
      list := list + [v.value];
      cur := v.rest;
    }
    if cur == "" {
      return Invalid;
    }
    assert list + [] == list;
    return Ok(list, cur[1..]);
  }

  method ReadDict(s: string) returns (r: Parsed<seq<Entry>>)
    ensures r == if |s| < 2 || s[0] != 'd' || ParseEntries(s[1..]).Invalid? then Invalid
                 else Ok(Collect(ParseEntries(s[1..]).value), ParseEntries(s[1..]).rest)
    decreases |s|, 0
  {
    if |s| < 2 || s[0] != 'd' {
      return Invalid;
    }
    var cur := s[1..];
    var dict := [];
    ghost var read: seq<Entry> := [];
    assert ParseEntries(s[1..]).Ok? ==> [] + ParseEntries(s[1..]).value == ParseEntries(s[1..]).value;
    while cur != "" && cur[0] != 'e'
      invariant |cur| < |s| && After(read, ParseEntries(cur)) == ParseEntries(s[1..])
      invariant dict == Collect(read)
      decreases |cur|
    {
      var k := ReadString(cur);
      if k.Invalid? {
        return Invalid;
      }
      var v := ReadValue(k.rest);
      if v.Invalid? {
        return Invalid;
      }
      AfterOne(read, Entry(k.value, v.value), ParseEntries(v.rest));
      assert (read + [Entry(k.value, v.value)])[..|read|] == read;
      read := read + [Entry(k.value, v.value)];
      dict := Insert(dict, k.value, v.value);
      cur := v.rest;
    }
    if cur == "" {
      return Invalid;
    }
    assert read + [] == read;
    return Ok(dict, cur[1..]);
  }

  method ReadValue(s: string) returns (r: Parsed<Value>)
    ensures r == ParseValue(s)
    decreases |s|, 1
  {
    if |s| < 2 {
      return Invalid;
    }
    if s[0] == 'd' {
      var d := ReadDict(s);
      return if d.Invalid? then Invalid else Ok(Dict(d.value), d.rest);
    } else if s[0] == 'l' {
      var l := ReadList(s);
      return if l.Invalid? then Invalid else Ok(List(l.value), l.rest);
    } else if s[0] == 'i' {
      var m := ReadInteger(s);
      if m.Invalid? {
        return Invalid;
      }
      return Ok(if m.value.negative then Signed(-m.value.value) else Unsigned(m.value.value), m.rest);
    } else if IsDigit(s[0]) {
      var str := ReadString(s);
      return if str.Invalid? then Invalid else Ok(Str(str.value), str.rest);
    }
    return Invalid;
  }

  // ----- what a consumer consumes is a prefix -----

  predicate IsSuffix(a: string, b: string) {
    |a| <= |b| && b[|b| - |a|..] == a
  }

  lemma SuffixTrans(a: string, b: string, c: string)
    requires IsSuffix(a, b) && IsSuffix(b, c)
    ensures IsSuffix(a, c)
  {
    assert c[|c| - |b|..][|b| - |a|..] == c[|c| - |a|..];
  }

  lemma SuffixDrop(s: string, n: nat)
    requires n <= |s|
    ensures IsSuffix(s[n..], s)
  {
  }

  lemma SuffixCut(a: string, b: string)
    requires IsSuffix(a, b)
    ensures |a| <= |b| && b[..|b| - |a|] + a == b
  {
  }

  lemma {:induction false} AccumulateSuffix(s: string, acc: int)
    requires 0 <= acc < TWO64
    ensures Accumulate(s, acc).Ok? ==> IsSuffix(Accumulate(s, acc).rest, s)
    decreases |s|
  {
    if s != "" && IsDigit(s[0]) {
      var bigger := Wrap(acc * 10 + DigitValue(s[0]));
      if bigger >= acc {
        AccumulateSuffix(s[1..], bigger);
        if Accumulate(s[1..], bigger).Ok? { SuffixTrans(Accumulate(s[1..], bigger).rest, s[1..], s); }
      }
    }
  }

  lemma ParseStringSuffix(s: string)
    ensures ParseString(s).Ok? ==> IsSuffix(ParseString(s).rest, s)
  {
    if |s| >= 2 && IsDigit(s[0]) {
      AccumulateSuffix(s[1..], DigitValue(s[0]));
      if ParseString(s).Ok? {
        var rest := ExtractUnsigned(s).rest;
        SuffixTrans(rest, s[1..], s);
        SuffixTrans(ParseString(s).rest, rest, s);
      }
    }
  }

  lemma ParseIntegerSuffix(s: string)
    ensures ParseInteger(s).Ok? ==> IsSuffix(ParseInteger(s).rest, s)
  {
    if ParseInteger(s).Ok? {
      var t := if s[1] == '-' then s[2..] else s[1..];
      SuffixDrop(s, if s[1] == '-' then 2 else 1);
      AccumulateSuffix(t[1..], DigitValue(t[0]));
      var rest := ExtractUnsigned(t).rest;
      SuffixTrans(rest, t[1..], t);
      SuffixTrans(rest[1..], rest, t);
      SuffixTrans(rest[1..], t, s);
    }
  }

  // ----- one turn of the skipping loops -----

  lemma SkipItemsTurn(s: string)
    requires s != ""
    ensures s[0] == 'e' ==> SkipItems(s) == Ok((), s[1..])
    ensures s[0] != 'e' && (SkipValue(s).Invalid? || SkipValue(s).rest == "") ==> SkipItems(s).Invalid?
    ensures s[0] != 'e' && SkipValue(s).Ok? && SkipValue(s).rest != "" ==> SkipItems(s) == SkipItems(SkipValue(s).rest)
  {
    hide SkipValue;
  }

  lemma SkipEntriesTurn(s: string)
    requires s != ""
    ensures s[0] == 'e' ==> SkipEntries(s) == Ok((), s[1..])
    ensures s[0] != 'e' && ParseString(s).Invalid? ==> SkipEntries(s).Invalid?
    ensures s[0] != 'e' && ParseString(s).Ok? ==>
              var mid := ParseString(s).rest;
              if mid == "" || SkipValue(mid).Invalid? || SkipValue(mid).rest == "" then SkipEntries(s).Invalid?
              else SkipEntries(s) == SkipEntries(SkipValue(mid).rest)
  {
    hide SkipValue, ParseString;
  }

  // ----- consumers -----

  class ListConsumer {
    var data: string

    constructor (data: string)
      requires data != "" && data[0] == 'l'
      ensures this.data == data[1..]
    {
      this.data := data[1..];
    }

    /** The list part of a dict consumer: it starts wherever its owner says. */
    constructor At(data: string)
      ensures this.data == data
    {
      this.data := data;
    }

    method ConsumeStringView() returns (ok: bool, view: string)
      modifies this
      ensures ok <==> ParseString(old(data)).Ok?
      ensures if ok then view == ParseString(old(data)).value && data == ParseString(old(data)).rest else data == old(data)
      ensures IsSuffix(data, old(data))
    {
      ParseStringSuffix(data);
      if data == "" || !IsDigit(data[0]) {
        return false, "";
      }
      var r := ReadString(data);
      if r.Invalid? {
        return false, "";
      }
      data := r.rest;
      return true, r.value;
    }

    /** Skips one value of any type; on failure the position is unspecified. */
    method Skip() returns (ok: bool)
      requires data != ""
      modifies this
      ensures ok <==> SkipValue(old(data)).Ok?
      ensures ok ==> data == SkipValue(old(data)).rest && IsSuffix(data, old(data))
      decreases |data|, 1
    {
      var view;
      if IsDigit(data[0]) {
        ok, view := ConsumeStringView();
      } else if data[0] == 'i' {
        ParseIntegerSuffix(data);
        var r := ReadInteger(data);
        ok := r.Ok?;
        if ok {
          data := r.rest;
        }
      } else if data[0] == 'l' {
        ok, view := ConsumeListData();
      } else if data[0] == 'd' {
        ok, view := ConsumeDictData();
      } else {
        ok := false;
      }
    }

    /** Skips a list and returns the bytes it occupied. */
    method ConsumeListData() returns (ok: bool, view: string)
      requires data != ""
      modifies this
      ensures ok <==> |old(data)| >= 2 && old(data)[0] == 'l' && SkipItems(old(data)[1..]).Ok?
      ensures ok ==> data == SkipItems(old(data)[1..]).rest && IsSuffix(data, old(data)) && view + data == old(data)
      decreases |data|, 0
    {
      var start := data;
      view := "";
      if |data| < 2 || data[0] != 'l' {
        return false, view;
      }
      SuffixDrop(data, 1);
      data := data[1..];
      hide IsSuffix, SkipItems, SkipValue;
      while data[0] != 'e'
        invariant 0 < |data| < |start| && IsSuffix(data, start)
        invariant SkipItems(data) == SkipItems(start[1..])
        decreases |data|
      {
        ghost var before := data;
        SkipItemsTurn(data);
        ok := Skip();
        if !ok || data == "" {
          return false, view;
        }
        SuffixTrans(data, before, start);
      }
      SkipItemsTurn(data);
      SuffixDrop(data, 1);
      SuffixTrans(data[1..], data, start);
      data := data[1..];
      SuffixCut(data, start);
      view := start[..|start| - |data|];
      return true, view;
    }

    /** Skips a dict and returns the bytes it occupied. */
    method ConsumeDictData() returns (ok: bool, view: string)
      requires data != ""
      modifies this
      ensures ok <==> |old(data)| >= 2 && old(data)[0] == 'd' && SkipEntries(old(data)[1..]).Ok?
      ensures ok ==> data == SkipEntries(old(data)[1..]).rest && IsSuffix(data, old(data)) && view + data == old(data)
      decreases |data|, 0
    {
      var start := data;
      view := "";
      if |data| < 2 || data[0] != 'd' {
        return false, view;
      }
      SuffixDrop(data, 1);
      data := data[1..];
      hide IsSuffix, SkipEntries, SkipValue, ParseString;
      while data[0] != 'e'
        invariant 0 < |data| < |start| && IsSuffix(data, start)
        invariant SkipEntries(data) == SkipEntries(start[1..])
        decreases |data|
      {
        ghost var before := data;
        SkipEntriesTurn(data);
        var key;
        ok, key := ConsumeStringView();
        if !ok {
          return false, view;
        }
        SuffixTrans(data, before, start);
        if data != "" {
          ghost var mid := data;
          ok := Skip();
          if !ok {
            return false, view;
          }
          SuffixTrans(data, mid, start);
        }
        if data == "" {
          return false, view;
        }
      }
      SkipEntriesTurn(data);
      SuffixDrop(data, 1);
      SuffixTrans(data[1..], data, start);
      data := data[1..];
      SuffixCut(data, start);
      view := start[..|start| - |data|];
      return true, view;
    }
  }

  class DictConsumer {
    const base: ListConsumer
    var key: Option<string>

    ghost function View(): Cursor
      reads this, base
    {
      Cursor(base.data, key)
    }

    constructor (data: string)
      requires OpenDict(data).Moved?
      ensures fresh(base) && View() == OpenDict(data).cursor
    {
      base := new ListConsumer.At(data[1..]);
      key := None;
    }

    method ReadKey() returns (ok: bool, has: bool)
      modifies this, base
      ensures ok <==> ConsumeKey(old(View())).Moved?
      ensures ok ==> View() == ConsumeKey(old(View())).cursor && has == ConsumeKey(old(View())).value
    {
      if key.Some? {
        return true, true;
      }
      if base.data == "" {
        return false, false;
      }
      if base.data[0] == 'e' {
        return true, false;
      }
      var k;
      ok, k := base.ConsumeStringView();
      if !ok || base.data == "" || base.data[0] == 'e' {
        return false, false;
      }
      key := Some(k);
      return true, true;
    }

    /** Skips ahead to the first key that is not below `find`; says whether it is `find`. */
    method Seek(find: string) returns (ok: bool, found: bool)
      modifies this, base
      ensures ok <==> SkipUntil(old(View()), find).Moved?
      ensures ok ==> View() == SkipUntil(old(View()), find).cursor && found == SkipUntil(old(View()), find).value
    {
      found := false;
      ghost var at := View();
      var has;
      ok, has := ReadKey();
      while ok && has && Less(key.value, find)
        invariant SkipUntil(at, find) == SkipUntil(old(View()), find)
        invariant ok <==> ConsumeKey(at).Moved?
        invariant ok ==> View() == ConsumeKey(at).cursor && has == ConsumeKey(at).value && key.Some? == has
        decreases |at.data|
      {
        key := None;
        if base.data == "" {
          return false, false;
        }
        ok := base.Skip();
        if !ok {
          return false, false;
        }
        at := View();
        ok, has := ReadKey();
      }
      if ok {
        found := (if key.Some? then key.value else "") == find;
      }
    }

    /** Consumes the next value and forgets its key. */
    method Next() returns (ok: bool, v: Parsed<Value>)
      modifies this, base
      ensures ok <==> TakeValue(old(View())).Moved?
      ensures ok ==> v.Ok? && TakeValue(old(View())) == Moved(View(), v.value)
    {
      v := Invalid;
      var has;
      ok, has := ReadKey();
      if !ok || !has {
        return false, v;
      }
      v := ReadValue(base.data);
      if v.Invalid? {
        return false, v;
      }
      base.data := v.rest;
      key := None;
    }
  }
}
