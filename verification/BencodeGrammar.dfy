/**
 The grammar of bencoded data as the parser reads it: numbers may have leading zeroes, dict keys come in any order, and a
 number of 2^64 or more counts as its residue where the digit loop lets it pass.
 */
module BencodeGrammar {
  import opened BencodeModel
  import opened BencodeNumbers

  /** A derivation: the text of a value with its digits as they are written. */
  datatype Form =
    | TextForm(digits: string, body: string)
    | NumberForm(negative: bool, digits: string)
    | ListForm(items: seq<Form>)
    | DictForm(pairs: seq<Pair>)

  datatype Pair = Pair(digits: string, key: string, value: Form)

  predicate LegalDigits(d: string) {
    d != "" && AllDigits(d) && NeverShrinks(d, 1)
  }

  function Size(d: string): (n: int)
    requires LegalDigits(d)
    ensures 0 <= n < TWO64
  {
    Wrap(Decimal(d, 0))
  }

  predicate LegalText(d: string, body: string) {
    LegalDigits(d) && |body| == Size(d)
  }

  predicate Legal(f: Form)
    decreases f, 0
  {
    match f
    case TextForm(d, body) => LegalText(d, body)
    case NumberForm(negative, d) => LegalDigits(d) && (negative ==> Size(d) <= TWO63)
    case ListForm(items) => LegalItems(items)
    case DictForm(pairs) => LegalPairs(pairs)
  }

  predicate LegalItems(items: seq<Form>)
    decreases items, 1
  {
    items == [] || (Legal(items[0]) && LegalItems(items[1..]))
  }

  predicate LegalPairs(pairs: seq<Pair>)
    decreases pairs, 1
  {
    pairs == [] || (LegalText(pairs[0].digits, pairs[0].key) && Legal(pairs[0].value) && LegalPairs(pairs[1..]))
  }

  function TextYield(d: string, body: string): string {
    d + ":" + body
  }

  function Yield(f: Form): string
    decreases f, 0
  {
    match f
    case TextForm(d, body) => TextYield(d, body)
    case NumberForm(negative, d) => "i" + (if negative then "-" else "") + d + "e"
    case ListForm(items) => "l" + ItemsYield(items) + "e"
    case DictForm(pairs) => "d" + PairsYield(pairs) + "e"
  }

  function ItemsYield(items: seq<Form>): string
    decreases items, 1
  {
    if items == [] then "" else Yield(items[0]) + ItemsYield(items[1..])
  }

  function PairsYield(pairs: seq<Pair>): string
    decreases pairs, 1
  {
    if pairs == [] then "" else TextYield(pairs[0].digits, pairs[0].key) + Yield(pairs[0].value) + PairsYield(pairs[1..])
  }

  function Meaning(f: Form): Value
    requires Legal(f)
    decreases f, 0
  {
    match f
    case TextForm(_, body) => Str(body)
    case NumberForm(negative, d) => if negative then Signed(-Size(d)) else Unsigned(Size(d))
    case ListForm(items) => List(Meanings(items))
    case DictForm(pairs) => Dict(Collect(Entries(pairs)))
  }

  function Meanings(items: seq<Form>): seq<Value>
    requires LegalItems(items)
    decreases items, 1
  {
    if items == [] then [] else [Meaning(items[0])] + Meanings(items[1..])
  }

  /** The pairs in the order in which they come. */
  function Entries(pairs: seq<Pair>): seq<Entry>
    requires LegalPairs(pairs)
    decreases pairs, 1
  {
    if pairs == [] then [] else [Entry(pairs[0].key, Meaning(pairs[0].value))] + Entries(pairs[1..])
  }

  // ----- every derivation is accepted -----

  lemma AcceptsText(d: string, body: string, r: string)
    requires LegalText(d, body)
    ensures ParseString(TextYield(d, body) + r) == Ok(body, r)
  {
    var s, rest := TextYield(d, body) + r, ":" + body + r;
    assert s == d + rest;
    AcceptedExactly(d, rest);
    assert s[0] == d[0];
    hide NeverShrinks, Decimal, ExtractUnsigned, Wrap;
    assert rest[1..1 + |body|] == body && rest[1 + |body|..] == r;
  }

  lemma AcceptsNumber(negative: bool, d: string, r: string)
    requires LegalDigits(d) && (negative ==> Size(d) <= TWO63)
    ensures ParseInteger("i" + (if negative then "-" else "") + d + "e" + r) == Ok(Magnitude(Size(d), negative), r)
  {
    var s := "i" + (if negative then "-" else "") + d + "e" + r;
    AcceptedExactly(d, "e" + r);
    assert IsDigit(d[0]);
    hide NeverShrinks, Decimal, ExtractUnsigned, Wrap;
    if negative {
      assert s[2..] == d + ("e" + r);
    } else {
      assert s[1..] == d + ("e" + r) && s[1] == d[0];
    }
    assert ("e" + r)[1..] == r;
  }

  /** How a value's text starts. */
  lemma YieldStarts(f: Form)
    requires Legal(f)
    ensures |Yield(f)| >= 2
    ensures match f
            case TextForm(d, _) => Yield(f)[0] == d[0] && IsDigit(d[0])
            case NumberForm(_, _) => Yield(f)[0] == 'i'
            case ListForm(_) => Yield(f)[0] == 'l'
            case DictForm(_) => Yield(f)[0] == 'd'
  {
    hide NeverShrinks, Decimal, Wrap, ItemsYield, PairsYield;
  }

  lemma {:induction false} Accepts(f: Form, r: string)
    requires Legal(f)
    ensures ParseValue(Yield(f) + r) == Ok(Meaning(f), r)
    decreases f, 0
  {
    hide LegalDigits, ParseString, ParseInteger, ParseItems, ParseEntries, Collect, LegalItems, LegalPairs, ItemsYield, PairsYield;
    YieldStarts(f);
    var s := Yield(f) + r;
    match f {
      case TextForm(d, body) => AcceptsText(d, body, r);
      case NumberForm(negative, d) =>
        AcceptsNumber(negative, d, r);
        assert s == "i" + (if negative then "-" else "") + d + "e" + r;
      case ListForm(items) =>
        AcceptsItems(items, r);
        assert s[1..] == ItemsYield(items) + "e" + r;
      case DictForm(pairs) =>
        AcceptsPairs(pairs, r);
        assert s[1..] == PairsYield(pairs) + "e" + r;
    }
  }

  lemma {:induction false} AcceptsItems(items: seq<Form>, r: string)
    requires LegalItems(items)
    ensures ParseItems(ItemsYield(items) + "e" + r) == Ok(Meanings(items), r)
    decreases items, 1
  {
    var s := ItemsYield(items) + "e" + r;
    if items == [] {
      assert s == "e" + r && s[1..] == r;
    } else {
      hide ParseValue, Meaning, Yield, Legal;
      var rest := ItemsYield(items[1..]) + "e" + r;
      assert s == Yield(items[0]) + rest;
      Accepts(items[0], rest);
      AcceptsItems(items[1..], r);
      NotEnd(items[0], rest);
    }
  }

  lemma NotEnd(f: Form, r: string)
    requires Legal(f)
    ensures Yield(f) + r != "" && (Yield(f) + r)[0] != 'e'
  {
    YieldStarts(f);
    hide Yield, Legal;
    assert (Yield(f) + r)[0] == Yield(f)[0];
  }

  lemma {:induction false} AcceptsPairs(pairs: seq<Pair>, r: string)
    requires LegalPairs(pairs)
    ensures ParseEntries(PairsYield(pairs) + "e" + r) == Ok(Entries(pairs), r)
    decreases pairs, 1
  {
    var s := PairsYield(pairs) + "e" + r;
    if pairs == [] {
      assert s == "e" + r && s[1..] == r;
    } else {
      hide ParseValue, ParseString, Meaning, Yield, Legal, LegalText, TextYield;
      var p, rest := pairs[0], PairsYield(pairs[1..]) + "e" + r;
      var mid := Yield(p.value) + rest;
      assert s == TextYield(p.digits, p.key) + mid;
      AcceptsText(p.digits, p.key, mid);
      Accepts(p.value, rest);
      AcceptsPairs(pairs[1..], r);
      KeyNotEnd(p.digits, p.key, mid);
    }
  }

  lemma KeyNotEnd(d: string, key: string, r: string)
    requires LegalText(d, key)
    ensures TextYield(d, key) + r != "" && (TextYield(d, key) + r)[0] != 'e'
  {
    hide NeverShrinks, Decimal, Wrap;
    assert (TextYield(d, key) + r)[0] == d[0];
  }

  // ----- and nothing else is -----

  /** The digits at the start of `s`. */
  lemma {:induction false} LeadingDigits(s: string) returns (d: string, r: string)
    ensures s == d + r && AllDigits(d) && NoDigitNext(r)
  {
    if s == "" || !IsDigit(s[0]) {
      d, r := "", s;
    } else {
      d, r := LeadingDigits(s[1..]);
      d := [s[0]] + d;
      assert s == [s[0]] + s[1..];
    }
  }

  lemma NumberDerives(s: string) returns (d: string)
    requires ExtractUnsigned(s).Ok?
    ensures LegalDigits(d) && s == d + ExtractUnsigned(s).rest && ExtractUnsigned(s).value == Size(d)
  {
    var r;
    d, r := LeadingDigits(s);
    assert d == "" ==> s == r;
    AcceptedExactly(d, r);
  }

  lemma TextDerives(s: string) returns (d: string, body: string)
    requires ParseString(s).Ok?
    ensures LegalText(d, body) && body == ParseString(s).value && s == TextYield(d, body) + ParseString(s).rest
  {
    hide ExtractUnsigned, LegalDigits, NeverShrinks, Decimal, Wrap;
    d := NumberDerives(s);
    body := ParseString(s).value;
    var rest := ExtractUnsigned(s).rest;
    assert rest == ":" + body + ParseString(s).rest;
  }

  lemma IntegerDerives(s: string) returns (f: Form)
    requires ParseInteger(s).Ok?
    ensures f.NumberForm? && Legal(f) && s == Yield(f) + ParseInteger(s).rest
    ensures ParseInteger(s).value == Magnitude(Size(f.digits), f.negative)
  {
    hide ExtractUnsigned, LegalDigits, NeverShrinks, Decimal, Wrap;
    var negative := s[1] == '-';
    var tail := if negative then s[2..] else s[1..];
    var d := NumberDerives(tail);
    f := NumberForm(negative, d);
    var rest := ParseInteger(s).rest;
    assert ExtractUnsigned(tail).rest == "e" + rest;
    hide ParseInteger;
    Joined(s, negative, tail, d, rest);
  }

  lemma Joined(s: string, negative: bool, tail: string, d: string, rest: string)
    requires |s| >= 2 && s[0] == 'i' && (s[1] == '-' <==> negative) && tail == (if negative then s[2..] else s[1..])
    requires tail == d + ("e" + rest)
    ensures s == "i" + (if negative then "-" else "") + d + "e" + rest
  {
    if negative { assert s == "i-" + tail; } else { assert s == "i" + tail; }
  }

  /** Whatever the parser accepts has a derivation, with the value and the remainder that were read. */
  lemma {:induction false} Derives(s: string) returns (f: Form)
    requires ParseValue(s).Ok?
    ensures Legal(f) && s == Yield(f) + ParseValue(s).rest && Meaning(f) == ParseValue(s).value
    decreases |s|, 0
  {
    hide LegalDigits, ParseString, ParseInteger, ParseItems, ParseEntries, Collect;
    if s[0] == 'd' {
      var pairs := PairsDerive(s[1..]);
      f := DictForm(pairs);
      assert s == "d" + s[1..];
      assert s == Yield(f) + ParseValue(s).rest;
    } else if s[0] == 'l' {
      var items := ItemsDerive(s[1..]);
      f := ListForm(items);
      assert s == "l" + s[1..];
      assert s == Yield(f) + ParseValue(s).rest;
    } else if s[0] == 'i' {
      f := IntegerDerives(s);
    } else {
      var d, body := TextDerives(s);
      f := TextForm(d, body);
    }
  }

  lemma {:induction false} ItemsDerive(s: string) returns (items: seq<Form>)
    requires ParseItems(s).Ok?
    ensures LegalItems(items) && s == ItemsYield(items) + "e" + ParseItems(s).rest && Meanings(items) == ParseItems(s).value
    decreases |s|, 1
  {
    if s[0] == 'e' {
      items := [];
      assert s == "e" + s[1..];
    } else {
      hide ParseValue, Meaning, Yield, Legal;
      var f := Derives(s);
      var rest := ParseValue(s).rest;
      var more := ItemsDerive(rest);
      items := [f] + more;
      assert items[1..] == more;
    }
  }

  lemma {:induction false} PairsDerive(s: string) returns (pairs: seq<Pair>)
    requires ParseEntries(s).Ok?
    ensures LegalPairs(pairs) && s == PairsYield(pairs) + "e" + ParseEntries(s).rest && Entries(pairs) == ParseEntries(s).value
    decreases |s|, 1
  {
    if s[0] == 'e' {
      pairs := [];
      assert s == "e" + s[1..];
    } else {
      hide ParseValue, ParseString, Meaning, Yield, Legal, LegalText, TextYield;
      var d, key := TextDerives(s);
      var mid := ParseString(s).rest;
      var f := Derives(mid);
      var rest := ParseValue(mid).rest;
      var more := PairsDerive(rest);
      pairs := [Pair(d, key, f)] + more;
      FirstPair(d, key, f, more);
      Regrouped(TextYield(d, key), Yield(f), PairsYield(more), ParseEntries(rest).rest);
      hide LegalPairs, PairsYield, Entries;
    }
  }

  lemma FirstPair(d: string, key: string, f: Form, more: seq<Pair>)
    requires LegalText(d, key) && Legal(f) && LegalPairs(more)
    ensures var pairs := [Pair(d, key, f)] + more;
            && LegalPairs(pairs) && PairsYield(pairs) == TextYield(d, key) + Yield(f) + PairsYield(more)
            && Entries(pairs) == [Entry(key, Meaning(f))] + Entries(more)
  {
    hide Yield, Legal, LegalText, TextYield, Meaning;
    assert ([Pair(d, key, f)] + more)[1..] == more;
  }

  lemma Regrouped(a: string, b: string, c: string, r: string)
    ensures a + (b + (c + "e" + r)) == (a + b + c) + "e" + r
  {
  }

  ghost predicate Spelled(text: string, v: Value) {
    exists f :: Legal(f) && Yield(f) == text && Meaning(f) == v
  }

  /** The parser reads `v` and leaves `rest` if and only if the grammar spells `v` with what is before `rest`. */
  lemma ParsesExactly(s: string, v: Value, rest: string)
    ensures ParseValue(s) == Ok(v, rest) <==> exists text :: s == text + rest && Spelled(text, v)
  {
    hide ParseValue, Legal, Yield, Meaning;
    if ParseValue(s) == Ok(v, rest) {
      var f := Derives(s);
      assert Spelled(Yield(f), v);
    }
    if text :| s == text + rest && Spelled(text, v) {
      var f :| Legal(f) && Yield(f) == text && Meaning(f) == v;
      Accepts(f, rest);
    }
  }
}
