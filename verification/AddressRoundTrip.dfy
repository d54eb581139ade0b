/** Parsing what was printed, for every well-formed address and every encoding of its key. */
module AddressRoundTrip {
  import opened BitPacking
  import opened BaseCodecs
  import opened AddressModel
  import BencodeModel
  import BencodeNumbers

  // ----- well-formed addresses -----

  predicate Bracketed(h: string) {
    && |h| >= 2 && h[0] == '[' && h[|h| - 1] == ']'
    && forall i | 0 < i < |h| - 1 :: Ip6Char(h[i])
  }

  predicate PlainHost(h: string) {
    h != "" && h[0] != '[' && forall i | 0 <= i < |h| :: h[i] != ':'
  }

  predicate WellFormed(a: Address) {
    && (IsTcp(a.protocol) ==> (PlainHost(a.host) || Bracketed(a.host)) && 1 <= a.port <= 65535)
    && (IsCurve(a.protocol) ==> |a.pubkey| == 32)
    && (a.protocol.Ipc? ==> a.socket != "")
  }

  // ----- keys -----

  lemma KeyTexts(pk: seq<byte>)
    requires |pk| == 32
    ensures var t := KeyText(pk, Hex); |t| == 64 && IsHex(t) && DecodeHex(t) == pk
    ensures var t := KeyText(pk, Base32z); |t| == 52 && IsBase32z(t) && DecodeBase32z(t) == pk
    ensures var t := KeyText(pk, UpperBase32z); |t| == 52 && IsBase32z(t) && DecodeBase32z(t) == pk
    ensures var t := KeyText(pk, Base64); |t| == 43 && IsBase64(t) && DecodeBase64(t) == pk && t[42] != '='
  {
    hide EncodeHex, DecodeHex, IsHex, EncodeBase32z, IsBase32z, DecodeBase32z, Upper, EncodeBase64, DecodeBase64, IsBase64;
    HexRoundTrip(pk);
    Base32zRoundTrip(pk);
    Base32zAnyCase(EncodeBase32z(pk));
    Key64(pk);
  }

  lemma Key64(pk: seq<byte>)
    requires |pk| == 32
    ensures var t := KeyText(pk, Base64); |t| == 43 && IsBase64(t) && DecodeBase64(t) == pk && t[42] != '='
  {
    var t := Text64(Pack(6, pk));
    Base64RoundTrip(pk);
    PackLength(6, pk);
    TextLength(Pack(6, pk));
    Text64Clean(Pack(6, pk));
    hide Pack, Text64, DecodeBase64, Digits, Digit64;
    assert Padding64(32) == "=";
    var pk64 := EncodeBase64(pk);
    assert pk64 == t + "=" && pk64[43] == '=' && pk64[..43] == t;
  }

  lemma KeyByLength(t: string, qr: bool)
    ensures |t| == 64 && IsHex(t) ==> DecodePubkey(t, qr) == Ok((DecodeHex(t), ""))
    ensures |t| == 52 && IsBase32z(t) ==> DecodePubkey(t, qr) == Ok((DecodeBase32z(t), ""))
    ensures |t| == 43 && IsBase64(t) && !qr ==> DecodePubkey(t, qr) == Ok((DecodeBase64(t), ""))
  {
    hide IsHex, DecodeHex, IsBase32z, DecodeBase32z, IsBase64, DecodeBase64;
    assert t[..|t|] == t && t[|t|..] == "";
  }

  lemma KeyDecodes(pk: seq<byte>, enc: Encoding, qr: bool)
    requires |pk| == 32 && (qr ==> enc.UpperBase32z?)
    ensures DecodePubkey(KeyText(pk, enc), qr) == Ok((pk, ""))
    ensures |KeyText(pk, enc)| >= if qr then 52 else 43
  {
    hide KeyText, IsHex, DecodeHex, IsBase32z, DecodeBase32z, IsBase64, DecodeBase64, DecodePubkey;
    KeyTexts(pk);
    KeyByLength(KeyText(pk, enc), qr);
  }

  // ----- host and port -----

  lemma {:induction false} SpanAt(p: char -> bool, a: string, r: string)
    requires (forall i | 0 <= i < |a| :: p(a[i])) && (r != "" ==> !p(r[0]))
    ensures Span(p, a + r) == |a|
    decreases |a|
  {
    if a == "" {
      assert a + r == r;
    } else {
      assert (a + r)[1..] == a[1..] + r;
      SpanAt(p, a[1..], r);
    }
  }

  lemma PortParses(port: nat, r: string)
    requires 1 <= port <= 65535 && (r != "" ==> !DigitChar(r[0]))
    ensures ParsePort(":" + BencodeModel.PrintNat(port) + r) == Ok((port, r))
  {
    BencodeNumbers.PrintNatDigits(port);
    var d := BencodeModel.PrintNat(port);
    var s := ":" + d + r;
    hide BencodeModel.PrintNat, BencodeNumbers.Decimal, Span;
    assert s[1..] == d + r;
    SpanAt(DigitChar, d, r);
    assert (d + r)[..|d|] == d && (d + r)[|d|..] == r;
  }

  lemma HostParses(h: string, r: string)
    requires (PlainHost(h) || Bracketed(h)) && r != "" && r[0] == ':'
    ensures ParseHost(h + r, false) == Ok((h, r))
  {
    hide Span;
    var s := h + r;
    assert s[..|h|] == h && s[|h|..] == r;
    if Bracketed(h) {
      var inner := h[1..|h| - 1];
      assert s[1..] == inner + ("]" + r);
      SpanAt(Ip6Char, inner, "]" + r);
      assert s[|h| - 1] == ']';
    } else {
      SpanAt(NotColon, h, r);
    }
  }

  lemma TcpParses(h: string, port: nat, pk: seq<byte>, enc: Encoding, curve: bool)
    requires (PlainHost(h) || Bracketed(h)) && 1 <= port <= 65535 && (curve ==> |pk| == 32)
    ensures var s := HostPort(h, port) + if curve then "/" + KeyText(pk, enc) else "";
            s != "" && ParseTcp(s, false, curve) == Ok((h, port, if curve then pk else []))
  {
    var d := BencodeModel.PrintNat(port);
    var tail := if curve then "/" + KeyText(pk, enc) else "";
    var rest := ":" + d + tail;
    assert HostPort(h, port) + tail == h + rest;
    hide ParseHost, ParsePort, DecodePubkey, KeyText, BencodeModel.PrintNat, PlainHost, Bracketed;
    HostParses(h, rest);
    PortParses(port, tail);
    if curve {
      KeyDecodes(pk, enc, false);
      assert tail[1..] == KeyText(pk, enc);
    }
  }

  // ----- socket paths -----

  /** A shorter key cannot be taken for a longer one: the separator would be inside it. */
  lemma UnixByLength(socket: string, t: string)
    ensures |t| == 64 && IsHex(t) ==> ParseUnix(socket + "/" + t, true) == Ok((socket, DecodeHex(t)))
    ensures |t| == 52 && IsBase32z(t) ==> ParseUnix(socket + "/" + t, true) == Ok((socket, DecodeBase32z(t)))
    ensures |t| == 43 && IsBase64(t) && t[42] != '=' ==> ParseUnix(socket + "/" + t, true) == Ok((socket, DecodeBase64(t)))
  {
    hide DecodeHex, DecodeBase32z, DecodeBase64, IsBase64, IsHex, IsBase32z;
    var s := socket + "/" + t;
    TailIs(socket, t);
    if |t| == 43 {
      NotLonger(socket, t, 64);
      NotLonger(socket, t, 52);
      assert s[|s| - 1] == t[42];
    } else if |t| == 52 {
      NotLonger(socket, t, 64);
    }
  }

  lemma UnixParses(socket: string, pk: seq<byte>, enc: Encoding)
    requires |pk| == 32
    ensures ParseUnix(socket + "/" + KeyText(pk, enc), true) == Ok((socket, pk))
  {
    hide KeyText, DecodeHex, DecodeBase32z, DecodeBase64, IsBase64, IsHex, IsBase32z, ParseUnix;
    KeyTexts(pk);
    UnixByLength(socket, KeyText(pk, enc));
  }

  lemma TailIs(socket: string, t: string)
    ensures var s := socket + "/" + t;
            SlashBefore(s, |t|) && s[|s| - |t|..] == t && s[..|s| - |t| - 1] == socket
  {
  }

  lemma NotLonger(socket: string, t: string, n: nat)
    requires |t| < n
    ensures var s := socket + "/" + t;
            |s| >= n ==> !IsHex(s[|s| - n..]) && !IsBase32z(s[|s| - n..])
  {
    var s := socket + "/" + t;
    if |s| >= n {
      var u := s[|s| - n..];
      assert u[n - |t| - 1] == '/';
      assert !HexDigit('/') && !Digit32('/');
    }
  }

  // ----- whole addresses -----

  lemma {:induction false} SchemeFound(p: string, r: string)
    requires forall i | 0 <= i < |p| :: p[i] != ':'
    ensures FindScheme(p + "://" + r) == |p|
    decreases |p|
  {
    var s := p + "://" + r;
    if p == "" {
      assert s[..3] == "://";
    } else {
      assert s[..3][0] == p[0];
      assert s[1..] == p[1..] + "://" + r;
      SchemeFound(p[1..], r);
    }
  }

  lemma AfterScheme(p: string, r: string)
    requires p != "" && r != "" && Protocol(p).Ok? && forall i | 0 <= i < |p| :: p[i] != ':'
    ensures ParseAddress(p + "://" + r) == ParseRest(Protocol(p).value.0, Protocol(p).value.1, r)
  {
    SchemeFound(p, r);
    var s := p + "://" + r;
    assert s[..|p|] == p && s[|p| + 3..] == r;
    hide FindScheme, ParseRest, Protocol;
  }

  lemma SchemeNames(p: Proto)
    ensures Protocol(Scheme(p)) == Ok((p, false)) && Scheme(p) != ""
    ensures forall i | 0 <= i < |Scheme(p)| :: Scheme(p)[i] != ':'
  {
  }

  /** What comes after "://". */
  function Place(a: Address, enc: Encoding): string {
    var key := if IsCurve(a.protocol) then "/" + KeyText(a.pubkey, enc) else "";
    (if IsTcp(a.protocol) then HostPort(a.host, a.port) else a.socket) + key
  }

  lemma PlaceParses(a: Address, enc: Encoding)
    requires WellFormed(a)
    ensures Place(a, enc) != ""
    ensures var r := ParseRest(a.protocol, false, Place(a, enc)); r.Ok? && Same(r.value, a)
  {
    hide ParseTcp, ParseUnix, KeyText, HostPort, PlainHost, Bracketed;
    if IsTcp(a.protocol) {
      TcpParses(a.host, a.port, a.pubkey, enc, IsCurve(a.protocol));
    } else if IsCurve(a.protocol) {
      UnixParses(a.socket, a.pubkey, enc);
      assert a.socket + "/" + KeyText(a.pubkey, enc) == a.socket + ("/" + KeyText(a.pubkey, enc));
    } else {
      PlainPath(a.socket);
      assert a.socket + "" == a.socket;
    }
  }

  lemma PlainPath(s: string)
    ensures ParseUnix(s, false) == Ok((s, []))
  {
  }

  lemma FullIsPlace(a: Address, enc: Encoding)
    ensures FullAddress(a, enc) == Scheme(a.protocol) + "://" + Place(a, enc)
  {
    hide KeyText, HostPort, Scheme;
    match a.protocol {
      case Tcp => assert HostPort(a.host, a.port) + "" == HostPort(a.host, a.port);
      case TcpCurve =>
        var k := KeyText(a.pubkey, enc);
        assert HostPort(a.host, a.port) + "/" + k == HostPort(a.host, a.port) + ("/" + k);
      case Ipc => assert a.socket + "" == a.socket;
      case IpcCurve =>
        var k := KeyText(a.pubkey, enc);
        assert a.socket + "/" + k == a.socket + ("/" + k);
    }
  }

  /** Parsing a printed address gives an equal address, whichever encoding its key was printed in. */
  lemma FullAddressRoundTrip(a: Address, enc: Encoding)
    requires WellFormed(a)
    ensures ParseAddress(FullAddress(a, enc)).Ok? && Same(ParseAddress(FullAddress(a, enc)).value, a)
  {
    hide ParseRest, Place, FullAddress, Scheme, Protocol, ParseAddress, WellFormed, Same;
    SchemeNames(a.protocol);
    PlaceParses(a, enc);
    FullIsPlace(a, enc);
    AfterScheme(Scheme(a.protocol), Place(a, enc));
  }
}
