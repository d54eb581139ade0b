/**
 Bencoded values (the "bencoding" section of BEP 3, with 64-bit integers): what the serializer
 writes, what the deserializer accepts, and what the allocation-free skipper accepts.
 */
module BencodeModel {

  const TWO63: int := 0x8000_0000_0000_0000
  const TWO64: int := 0x1_0000_0000_0000_0000

  /**
   The variant a value is held in.  A dict is a map held as its entries in ascending key order;
   `View` is a string that is not owned.
   */
  datatype Value =
    | Str(s: string)
    | View(s: string)
    | Signed(n: int)
    | Unsigned(n: int)
    | List(items: seq<Value>)
    | Dict(entries: seq<Entry>)

  datatype Entry = Entry(key: string, value: Value)

  /** Outcome of consuming a prefix of some input. */
  datatype Parsed<+T> = Ok(value: T, rest: string) | Invalid

  // ----- key order -----

  /** Lexicographic order of keys. */
  predicate Less(a: string, b: string) {
    if b == "" then false
    else if a == "" then true
    else a[0] < b[0] || (a[0] == b[0] && Less(a[1..], b[1..]))
  }

  predicate Sorted(es: seq<Entry>) {
    forall i, j | 0 <= i < j < |es| :: Less(es[i].key, es[j].key)
  }

  /** Map insertion: an existing key keeps its value. */
  function Insert(es: seq<Entry>, key: string, value: Value): seq<Entry> {
    if es == [] then [Entry(key, value)]
    else if es[0].key == key then es
    else if Less(key, es[0].key) then [Entry(key, value)] + es
    else [es[0]] + Insert(es[1..], key, value)
  }

  /** The map read from entries in the order they appear. */
  function Collect(es: seq<Entry>): seq<Entry> {
    if es == [] then [] else Insert(Collect(es[..|es| - 1]), es[|es| - 1].key, es[|es| - 1].value)
  }

  // ----- printing -----

  function Digit(d: int): char
    requires 0 <= d < 10
  {
    ['0', '1', '2', '3', '4', '5', '6', '7', '8', '9'][d]
  }

  function PrintNat(n: nat): string {
    if n < 10 then [Digit(n)] else PrintNat(n / 10) + [Digit(n % 10)]
  }

  function PrintInt(n: int): string {
    if n < 0 then "-" + PrintNat(-n) else PrintNat(n)
  }

  function PrintString(s: string): string {
    PrintNat(|s|) + ":" + s
  }

  function Serialize(v: Value): string
    decreases v, 0
  {
    match v
    case Str(s) => PrintString(s)
    case View(s) => PrintString(s)
    case Signed(n) => "i" + PrintInt(n) + "e"
    case Unsigned(n) => "i" + PrintInt(n) + "e"
    case List(items) => "l" + SerializeItems(items) + "e"
    case Dict(entries) => "d" + SerializeEntries(entries) + "e"
  }

  function SerializeItems(items: seq<Value>): string
    decreases items, 1
  {
    if items == [] then "" else Serialize(items[0]) + SerializeItems(items[1..])
  }

  function SerializeEntries(entries: seq<Entry>): string
    decreases entries, 1
  {
    if entries == [] then ""
    else PrintString(entries[0].key) + Serialize(entries[0].value) + SerializeEntries(entries[1..])
  }

  // ----- reading -----

  predicate IsDigit(c: char) {
    '0' <= c <= '9'
  }

  function DigitValue(c: char): int
    requires IsDigit(c)
  {
    c as int - '0' as int
  }

  /** 64-bit unsigned arithmetic. */
  function Wrap(n: int): (r: int)
    ensures 0 <= r < TWO64
  {
    n % TWO64
  }

  /** The digit loop: 64-bit arithmetic that wraps, with a test that the value did not shrink. */
  function Accumulate(s: string, acc: int): (r: Parsed<int>)
    requires 0 <= acc < TWO64
    ensures r.Ok? ==> 0 <= r.value < TWO64 && |r.rest| <= |s|
  {
    if s == "" || !IsDigit(s[0]) then Ok(acc, s)
    else
      var bigger := Wrap(acc * 10 + DigitValue(s[0]));
      if bigger < acc then Invalid else Accumulate(s[1..], bigger)
  }

  function ExtractUnsigned(s: string): (r: Parsed<int>)
    ensures r.Ok? ==> 0 <= r.value < TWO64 && |r.rest| < |s|
  {
    if s == "" || !IsDigit(s[0]) then Invalid
    else
      assert DigitValue(s[0]) < TWO64;
      Accumulate(s[1..], DigitValue(s[0]))
  }

  function ParseString(s: string): (r: Parsed<string>)
    ensures r.Ok? ==> |r.rest| < |s| && |r.value| < TWO64
  {
    if |s| < 2 || !IsDigit(s[0]) then Invalid
    else match ExtractUnsigned(s)
      case Invalid => Invalid
      case Ok(len, rest) =>
        if rest == "" || rest[0] != ':' then Invalid
        else if len > |rest| - 1 then Invalid
        else Ok(rest[1..1 + len], rest[1 + len..])
  }

  datatype Magnitude = Magnitude(value: int, negative: bool)

  function ParseInteger(s: string): (r: Parsed<Magnitude>)
    ensures r.Ok? ==> |r.rest| < |s| && 0 <= r.value.value < TWO64 && (r.value.negative ==> r.value.value <= TWO63)
  {
    if |s| < 3 || s[0] != 'i' then Invalid
    else
      var negative := s[1] == '-';
      match ExtractUnsigned(if negative then s[2..] else s[1..])
      case Invalid => Invalid
      case Ok(n, rest) =>
        if rest == "" || rest[0] != 'e' then Invalid
        else if negative && n > TWO63 then Invalid
        else Ok(Magnitude(n, negative), rest[1..])
  }

  /** The full deserializer. */
  function ParseValue(s: string): (r: Parsed<Value>)
    ensures r.Ok? ==> |r.rest| < |s|
    decreases |s|, 0
  {
    if |s| < 2 then Invalid
    else if s[0] == 'd' then
      match ParseEntries(s[1..])
      case Invalid => Invalid
      case Ok(es, rest) => Ok(Dict(Collect(es)), rest)
    else if s[0] == 'l' then
      match ParseItems(s[1..])
      case Invalid => Invalid
      case Ok(vs, rest) => Ok(List(vs), rest)
    else if s[0] == 'i' then
      match ParseInteger(s)
      case Invalid => Invalid
      case Ok(m, rest) => Ok(if m.negative then Signed(-m.value) else Unsigned(m.value), rest)
    else if IsDigit(s[0]) then
      match ParseString(s)
      case Invalid => Invalid
      case Ok(str, rest) => Ok(Str(str), rest)
    else Invalid
  }

  /** The elements of a list up to and including its 'e'. */
  function ParseItems(s: string): (r: Parsed<seq<Value>>)
    ensures r.Ok? ==> |r.rest| < |s|
    decreases |s|, 1
  {
    if s == "" then Invalid
    else if s[0] == 'e' then Ok([], s[1..])
    else match ParseValue(s)
      case Invalid => Invalid
      case Ok(v, rest) =>
        match ParseItems(rest)
        case Invalid => Invalid
        case Ok(vs, rest') => Ok([v] + vs, rest')
  }

  /** The pairs of a dict, in the order they appear, up to and including its 'e'. */
  function ParseEntries(s: string): (r: Parsed<seq<Entry>>)
    ensures r.Ok? ==> |r.rest| < |s|
    decreases |s|, 1
  {
    if s == "" then Invalid
    else if s[0] == 'e' then Ok([], s[1..])
    else match ParseString(s)
      case Invalid => Invalid
      case Ok(key, mid) =>
        match ParseValue(mid)
        case Invalid => Invalid
        case Ok(v, rest) =>
          match ParseEntries(rest)
          case Invalid => Invalid
          case Ok(es, rest') => Ok([Entry(key, v)] + es, rest')
  }

  // ----- skipping -----

  /** The skipper, which dispatches on the first byte of non-empty data. */
  function SkipValue(s: string): (r: Parsed<()>)
    ensures r.Ok? ==> |r.rest| < |s|
    decreases |s|, 0
  {
    if s == "" then Invalid
    else if IsDigit(s[0]) then
      match ParseString(s)
      case Invalid => Invalid
      case Ok(_, rest) => Ok((), rest)
    else if s[0] == 'i' then
      match ParseInteger(s)
      case Invalid => Invalid
      case Ok(_, rest) => Ok((), rest)
    else if s[0] == 'l' then
      if |s| < 2 then Invalid else SkipItems(s[1..])
    else if s[0] == 'd' then
      if |s| < 2 then Invalid else SkipEntries(s[1..])
    else Invalid
  }

  function SkipItems(s: string): (r: Parsed<()>)
    requires s != ""
    ensures r.Ok? ==> |r.rest| < |s|
    decreases |s|, 1
  {
    if s[0] == 'e' then Ok((), s[1..])
    else match SkipValue(s)
      case Invalid => Invalid
      case Ok(_, rest) => if rest == "" then Invalid else SkipItems(rest)
  }

  function SkipEntries(s: string): (r: Parsed<()>)
    requires s != ""
    ensures r.Ok? ==> |r.rest| < |s|
    decreases |s|, 1
  {
    if s[0] == 'e' then Ok((), s[1..])
    else match ParseString(s)
      case Invalid => Invalid
      case Ok(_, mid) =>
        if mid == "" then Invalid
        else match SkipValue(mid)
          case Invalid => Invalid
          case Ok(_, rest) => if rest == "" then Invalid else SkipEntries(rest)
  }
}
