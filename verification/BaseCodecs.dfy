/**
 hex, base32z and base64: the alphabets on top of the bit packing, and the loops that encode, check
 and decode.
 */
module BaseCodecs {
  import opened BitPacking

  function Lower(c: char): char {
    if 'A' <= c <= 'Z' then c - 'A' + 'a' else c
  }

  function Upper(c: char): char {
    if 'a' <= c <= 'z' then c - 'a' + 'A' else c
  }

  function LowerAll(s: string): string {
    seq(|s|, i requires 0 <= i < |s| => Lower(s[i]))
  }

  function UpperAll(s: string): string {
    seq(|s|, i requires 0 <= i < |s| => Upper(s[i]))
  }

  // ----- alphabets -----

  function ToHex(d: nat): char {
    if d < 10 then '0' + d as char else if d < 16 then 'a' + (d - 10) as char else '0'
  }

  /** A character's value; 0 for every character outside the alphabet. */
  function FromHex(c: char): (v: nat)
    ensures v < 16
  {
    if '0' <= c <= '9' then (c - '0') as nat
    else if 'a' <= c <= 'f' then (c - 'a') as nat + 10
    else if 'A' <= c <= 'F' then (c - 'A') as nat + 10
    else 0
  }

  predicate HexDigit(c: char) {
    FromHex(c) != 0 || c == '0'
  }

  function To32(d: nat): char {
    match d
    case 0 => 'y'
    case 1 => 'b'
    case 2 => 'n'
    case 3 => 'd'
    case 4 => 'r'
    case 5 => 'f'
    case 6 => 'g'
    case 7 => '8'
    case 8 => 'e'
    case 9 => 'j'
    case 10 => 'k'
    case 11 => 'm'
    case 12 => 'c'
    case 13 => 'p'
    case 14 => 'q'
    case 15 => 'x'
    case 16 => 'o'
    case 17 => 't'
    case 18 => '1'
    case 19 => 'u'
    case 20 => 'w'
    case 21 => 'i'
    case 22 => 's'
    case 23 => 'z'
    case 24 => 'a'
    case 25 => '3'
    case 26 => '4'
    case 27 => '5'
    case 28 => 'h'
    case 29 => '7'
    case 30 => '6'
    case _ => '9'
  }

  function FromLower32(c: char): (v: nat)
    ensures v < 32
  {
    match c
    case 'y' => 0
    case 'b' => 1
    case 'n' => 2
    case 'd' => 3
    case 'r' => 4
    case 'f' => 5
    case 'g' => 6
    case '8' => 7
    case 'e' => 8
    case 'j' => 9
    case 'k' => 10
    case 'm' => 11
    case 'c' => 12
    case 'p' => 13
    case 'q' => 14
    case 'x' => 15
    case 'o' => 16
    case 't' => 17
    case '1' => 18
    case 'u' => 19
    case 'w' => 20
    case 'i' => 21
    case 's' => 22
    case 'z' => 23
    case 'a' => 24
    case '3' => 25
    case '4' => 26
    case '5' => 27
    case 'h' => 28
    case '7' => 29
    case '6' => 30
    case '9' => 31
    case _ => 0
  }

  function From32(c: char): (v: nat)
    ensures v < 32
  {
    FromLower32(Lower(c))
  }

  predicate Digit32(c: char) {
    From32(c) != 0 || c == 'y' || c == 'Y'
  }

  function To64(d: nat): char {
    if d < 26 then 'A' + d as char
    else if d < 52 then 'a' + (d - 26) as char
    else if d < 62 then '0' + (d - 52) as char
    else if d == 62 then '+'
    else '/'
  }

  function From64(c: char): (v: nat)
    ensures v < 64
  {
    if 'A' <= c <= 'Z' then (c - 'A') as nat
    else if 'a' <= c <= 'z' then (c - 'a') as nat + 26
    else if '0' <= c <= '9' then (c - '0') as nat + 52
    else if c == '+' then 62
    else if c == '/' then 63
    else 0
  }

  predicate Digit64(c: char) {
    From64(c) != 0 || c == 'A'
  }

  lemma HexAlphabet(d: nat)
    requires d < 16
    ensures FromHex(ToHex(d)) == d && HexDigit(ToHex(d)) && ToHex(d) != '/'
  {
  }

  lemma Alphabet32(d: nat)
    requires d < 32
    ensures From32(To32(d)) == d && Digit32(To32(d)) && Lower(To32(d)) == To32(d)
  {
  }

  lemma Alphabet64(d: nat)
    requires d < 64
    ensures From64(To64(d)) == d && Digit64(To64(d)) && To64(d) != '='
  {
  }

  lemma AnyCase32(c: char)
    ensures From32(Upper(c)) == From32(c) && Digit32(Upper(c)) == Digit32(c)
  {
  }

  /** The validity test accepts the alphabet, in either case, and nothing else. */
  lemma Digits32(c: char)
    ensures Digit32(c) <==> exists d | 0 <= d < 32 :: To32(d) == Lower(c)
  {
    if Digit32(c) { assert To32(From32(c)) == Lower(c); }
  }

  // ----- what the codecs compute -----

  function TextHex(ds: seq<nat>): string { seq(|ds|, i requires 0 <= i < |ds| => ToHex(ds[i])) }
  function Text32(ds: seq<nat>): string { seq(|ds|, i requires 0 <= i < |ds| => To32(ds[i])) }
  function Text64(ds: seq<nat>): string { seq(|ds|, i requires 0 <= i < |ds| => To64(ds[i])) }

  function ValuesHex(s: string): seq<nat> { seq(|s|, i requires 0 <= i < |s| => FromHex(s[i])) }
  function Values32(s: string): seq<nat> { seq(|s|, i requires 0 <= i < |s| => From32(s[i])) }
  function Values64(s: string): seq<nat> { seq(|s|, i requires 0 <= i < |s| => From64(s[i])) }

  function EncodeHex(b: seq<byte>): string { TextHex(Pack(4, b)) }
  function EncodeBase32z(b: seq<byte>): string { Text32(Pack(5, b)) }
  function EncodeBase64(b: seq<byte>): string { Text64(Pack(6, b)) + Padding64(|b|) }

  function Padding64(n: nat): string {
    if n % 3 == 1 then "==" else if n % 3 == 2 then "=" else ""
  }

  /** Padding characters carry nothing wherever they are. */
  function Unpadded(s: string): string {
    if s == "" then "" else if s[|s| - 1] == '=' then Unpadded(s[..|s| - 1]) else Unpadded(s[..|s| - 1]) + [s[|s| - 1]]
  }

  function DecodeHex(s: string): seq<byte> { Unpack(4, ValuesHex(s)) }
  function DecodeBase32z(s: string): seq<byte> { Unpack(5, Values32(s)) }
  function DecodeBase64(s: string): seq<byte> { Unpack(6, Values64(Unpadded(s))) }

  predicate IsHex(s: string) {
    |s| % 2 == 0 && forall i | 0 <= i < |s| :: HexDigit(s[i])
  }

  predicate IsBase32z(s: string) {
    forall i | 0 <= i < |s| :: Digit32(s[i])
  }

  /** How much of the text is not allowed padding: at most two '=', and only up to a multiple of four. */
  function Body64(s: string): (n: nat)
    ensures n <= |s|
  {
    if s == "" || |s| % 4 != 0 || s[|s| - 1] != '=' then |s|
    else if s[|s| - 2] == '=' then |s| - 2
    else |s| - 1
  }

  predicate IsBase64(s: string) {
    forall i | 0 <= i < Body64(s) :: Digit64(s[i])
  }

  /** Whatever the text, valid or not, the decoder's register stays within its counter and yields the whole bytes it was fed. */
  lemma DecodersBounded(s: string)
    ensures DecoderOk(4, Absorbed(4, Decoder(0, 0, []), ValuesHex(s))) && |DecodeHex(s)| == |s| / 2
    ensures DecoderOk(5, Absorbed(5, Decoder(0, 0, []), Values32(s))) && |DecodeBase32z(s)| == 5 * |s| / 8
    ensures DecoderOk(6, Absorbed(6, Decoder(0, 0, []), Values64(Unpadded(s)))) && |DecodeBase64(s)| == 6 * |Unpadded(s)| / 8
  {
    DigitsBounded(s);
    DigitsBounded(Unpadded(s));
    hide FromHex, From32, From64, Shift, Absorbed, Digits, Unpadded;
    DecoderBounded(4, ValuesHex(s));
    DecoderBounded(5, Values32(s));
    DecoderBounded(6, Values64(Unpadded(s)));
  }

  lemma DigitsBounded(s: string)
    ensures Digits(4, ValuesHex(s)) && Digits(5, Values32(s)) && Digits(6, Values64(s))
  {
    SixteenValues();
    hide Shift, FromHex, From32, From64;
  }

  // ----- round trips -----

  lemma HexRoundTrip(b: seq<byte>)
    ensures DecodeHex(EncodeHex(b)) == b
    ensures IsHex(EncodeHex(b)) && |EncodeHex(b)| == 2 * |b| && (forall c | c in EncodeHex(b) :: c != '/')
  {
    hide Pack, Unpack, Shift, FromHex, ToHex, HexDigit;
    PackLength(4, b);
    RoundTrip(4, b);
    SixteenValues();
    var ds := Pack(4, b);
    OneQuotient(8 * |b| + 3, 2 * |b|, 3, 4);
    forall i | 0 <= i < |ds| ensures FromHex(ToHex(ds[i])) == ds[i] && HexDigit(ToHex(ds[i])) && ToHex(ds[i]) != '/' {
      HexAlphabet(ds[i]);
    }
    assert ValuesHex(TextHex(ds)) == ds;
  }

  lemma SixteenValues()
    ensures Shift(4) == 16 && Shift(5) == 32 && Shift(6) == 64
  {
    assert Shift(3) == 8;
  }

  lemma Text32Clean(ds: seq<nat>)
    requires Digits(5, ds)
    ensures Values32(Text32(ds)) == ds && IsBase32z(Text32(ds))
  {
    SixteenValues();
    hide Shift, From32, To32, Digit32;
    forall i | 0 <= i < |ds| ensures From32(To32(ds[i])) == ds[i] && Digit32(To32(ds[i])) {
      Alphabet32(ds[i]);
    }
    assert Values32(Text32(ds)) == ds;
  }

  lemma Base32zRoundTrip(b: seq<byte>)
    ensures DecodeBase32z(EncodeBase32z(b)) == b
    ensures IsBase32z(EncodeBase32z(b)) && |EncodeBase32z(b)| == (8 * |b| + 4) / 5
  {
    hide Pack, Unpack, Digits, Shift, To32, IsBase32z, Values32;
    PackLength(5, b);
    RoundTrip(5, b);
    Text32Clean(Pack(5, b));
  }

  /** The text spells the bytes' bits in order, with zero bits after them to fill the last character. */
  lemma Base32zMeans(b: seq<byte>)
    ensures 5 * |EncodeBase32z(b)| >= 8 * |b|
    ensures Value(5, Values32(EncodeBase32z(b))) == Up(Value(8, b), 5 * |EncodeBase32z(b)| - 8 * |b|)
  {
    hide Pack, Digits, Shift, To32, IsBase32z, Values32, Value, Up;
    PackLength(5, b);
    Text32Clean(Pack(5, b));
    PackValue(5, b);
  }

  /** Decoding and validity do not depend on letter case. */
  lemma Base32zAnyCase(s: string)
    ensures DecodeBase32z(UpperAll(s)) == DecodeBase32z(s) && IsBase32z(UpperAll(s)) == IsBase32z(s)
  {
    hide From32, Unpack, Digit32, Upper;
    forall i | 0 <= i < |s| ensures From32(Upper(s[i])) == From32(s[i]) && Digit32(Upper(s[i])) == Digit32(s[i]) {
      AnyCase32(s[i]);
    }
    assert Values32(UpperAll(s)) == Values32(s);
    assert forall i | 0 <= i < |s| :: UpperAll(s)[i] == Upper(s[i]);
  }

  lemma {:induction false} UnpaddedSame(s: string)
    requires forall i | 0 <= i < |s| :: s[i] != '='
    ensures Unpadded(s) == s
  {
    if s != "" {
      var n := |s| - 1;
      UnpaddedSame(s[..n]);
      assert s == s[..n] + [s[n]];
    }
  }

  lemma UnpaddedClean(s: string)
    requires forall i | 0 <= i < |s| :: s[i] != '='
    ensures Unpadded(s) == s && Unpadded(s + "=") == s && Unpadded(s + "==") == s
  {
    hide Unpadded;
    UnpaddedSame(s);
    OnePadding(s);
    OnePadding(s + "=");
    assert s + "=" + "=" == s + "==";
  }

  lemma OnePadding(s: string)
    ensures Unpadded(s + "=") == Unpadded(s)
  {
    assert (s + "=")[..|s|] == s;
  }

  lemma Base64Groups(n: nat)
    ensures Padding64(n) == "" || Padding64(n) == "=" || Padding64(n) == "=="
    ensures (8 * n + 5) / 6 + |Padding64(n)| == 4 * ((n + 2) / 3)
  {
  }

  lemma Text64Clean(ds: seq<nat>)
    requires Digits(6, ds)
    ensures Values64(Text64(ds)) == ds
    ensures forall i | 0 <= i < |ds| :: Digit64(Text64(ds)[i]) && Text64(ds)[i] != '='
  {
    SixteenValues();
    hide Shift, From64, To64, Digit64;
    forall i | 0 <= i < |ds| ensures From64(To64(ds[i])) == ds[i] && Digit64(To64(ds[i])) && To64(ds[i]) != '=' {
      Alphabet64(ds[i]);
    }
    assert Values64(Text64(ds)) == ds;
  }

  lemma Padded(t: string, p: string)
    requires (forall i | 0 <= i < |t| :: t[i] != '=') && (p == "" || p == "=" || p == "==") && (|t| + |p|) % 4 == 0
    ensures Unpadded(t + p) == t && Body64(t + p) == |t|
  {
    UnpaddedClean(t);
    hide Unpadded, Body64;
    if p == "" {
      assert t + p == t;
      BodyWhole(t);
    } else if p == "=" {
      BodyLessOne(t);
    } else {
      BodyLessTwo(t);
    }
  }

  lemma BodyWhole(t: string)
    requires forall i | 0 <= i < |t| :: t[i] != '='
    ensures Body64(t) == |t|
  {
  }

  lemma BodyLessOne(t: string)
    requires t != "" && t[|t| - 1] != '=' && (|t| + 1) % 4 == 0
    ensures Body64(t + "=") == |t|
  {
    var u := t + "=";
    assert |u| == |t| + 1 && u[|t|] == '=' && u[|t| - 1] == t[|t| - 1];
  }

  lemma BodyLessTwo(t: string)
    requires (|t| + 2) % 4 == 0
    ensures Body64(t + "==") == |t|
  {
    var u := t + "==";
    assert |u| == |t| + 2 && u[|t| + 1] == '=' && u[|t|] == '=';
  }

  lemma Base64RoundTrip(b: seq<byte>)
    ensures DecodeBase64(EncodeBase64(b)) == b
    ensures IsBase64(EncodeBase64(b)) && |EncodeBase64(b)| == 4 * ((|b| + 2) / 3)
    ensures DecodeBase64(Text64(Pack(6, b))) == b
  {
    hide Pack, Unpack, Shift, Digits, Text64, Values64, Padding64, Unpadded, Body64, Digit64;
    PackLength(6, b);
    RoundTrip(6, b);
    Base64Groups(|b|);
    var t := Text64(Pack(6, b));
    Text64Clean(Pack(6, b));
    TextLength(Pack(6, b));
    Padded(t, Padding64(|b|));
    UnpaddedClean(t);
    assert forall i | 0 <= i < |t| :: (t + Padding64(|b|))[i] == t[i];
  }

  lemma Base64Means(b: seq<byte>)
    ensures var digits := Values64(Unpadded(EncodeBase64(b)));
            && 6 * |digits| >= 8 * |b|
            && Value(6, digits) == Up(Value(8, b), 6 * |digits| - 8 * |b|)
  {
    hide Pack, Shift, Digits, Text64, Values64, Padding64, Unpadded, Value, Up, Body64;
    PackLength(6, b);
    Base64Groups(|b|);
    Text64Clean(Pack(6, b));
    TextLength(Pack(6, b));
    Padded(Text64(Pack(6, b)), Padding64(|b|));
    PackValue(6, b);
  }

  lemma TextLength(ds: seq<nat>)
    ensures |Text64(ds)| == |ds|
  {
  }
}
