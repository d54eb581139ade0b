/** QR-friendly addresses: upper-case text that parses back to the address with its host in lower case. */
module AddressQr {
  import opened BitPacking
  import opened BaseCodecs
  import opened AddressModel
  import opened AddressRoundTrip
  import BencodeModel
  import BencodeNumbers

  /** The hosts that survive: those a QR code can spell, unless the text would look like an IPv6 literal. */
  predicate QrFriendly(h: string) {
    Bracketed(h) || (h != "" && AllQr(UpperAll(h)) && h[0] != '$')
  }

  lemma CaseFolds(c: char)
    ensures Lower(Upper(c)) == Lower(c)
    ensures Upper(c) == '[' <==> c == '['
    ensures Upper(c) == ']' <==> c == ']'
    ensures Upper(c) == '$' <==> c == '$'
    ensures Upper(c) == ':' <==> c == ':'
    ensures Ip6Char(c) ==> Ip6Char(Upper(c)) && QrChar(Upper(c))
    ensures DigitChar(c) ==> QrChar(c)
  {
  }

  lemma LowerUpper(h: string)
    ensures LowerAll(UpperAll(h)) == LowerAll(h)
  {
    hide Lower, Upper;
    forall i | 0 <= i < |h| ensures Lower(Upper(h[i])) == Lower(h[i]) {
      CaseFolds(h[i]);
    }
  }

  // ----- which characters are in the text -----

  lemma AllQrConcat(a: string, b: string)
    ensures AllQr(a + b) <==> AllQr(a) && AllQr(b)
  {
    hide QrChar;
    if AllQr(a + b) {
      forall i | 0 <= i < |a| ensures QrChar(a[i]) { assert QrChar((a + b)[i]); }
      forall i | 0 <= i < |b| ensures QrChar(b[i]) { assert QrChar((a + b)[|a| + i]); }
    }
  }

  lemma Qr32(d: nat)
    ensures QrChar(Upper(To32(d)))
  {
  }

  lemma KeyIsQr(pk: seq<byte>)
    ensures AllQr(KeyText(pk, UpperBase32z))
  {
    hide To32, Upper, QrChar, Pack;
    var ds := Pack(5, pk);
    forall i | 0 <= i < |ds| ensures QrChar(Upper(To32(ds[i]))) {
      Qr32(ds[i]);
    }
  }

  lemma PortIsQr(port: nat)
    ensures AllQr(":" + BencodeModel.PrintNat(port))
  {
    BencodeNumbers.PrintNatDigits(port);
    hide BencodeModel.PrintNat, BencodeNumbers.Decimal;
  }

  /** The part after host and port. */
  function KeyPart(pk: seq<byte>, curve: bool): string {
    if curve then "/" + KeyText(pk, UpperBase32z) else ""
  }

  function AfterHost(port: nat, pk: seq<byte>, curve: bool): string {
    ":" + BencodeModel.PrintNat(port) + KeyPart(pk, curve)
  }

  lemma AfterHostIsQr(port: nat, pk: seq<byte>, curve: bool)
    ensures AllQr(AfterHost(port, pk, curve))
  {
    hide BencodeModel.PrintNat, KeyText;
    PortIsQr(port);
    KeyIsQr(pk);
    AllQrConcat("/", KeyText(pk, UpperBase32z));
    AllQrConcat(":" + BencodeModel.PrintNat(port), KeyPart(pk, curve));
  }

  lemma HostIsQr(h: string)
    requires PlainHost(h) || Bracketed(h)
    ensures Bracketed(h) ==> AllQr(QrHostText(h))
    ensures !Bracketed(h) ==> QrHostText(h) == UpperAll(h)
  {
    hide Upper, QrChar, Ip6Char;
    forall i | 0 <= i < |h|
      ensures Ip6Char(h[i]) ==> QrChar(Upper(h[i]))
      ensures (Upper(h[i]) == '[' <==> h[i] == '[') && (Upper(h[i]) == ']' <==> h[i] == ']')
    {
      CaseFolds(h[i]);
    }
    assert QrChar('$') by { Symbols(); }
  }

  lemma Symbols()
    ensures QrChar('$') && !QrChar('[')
  {
  }

  // ----- host -----

  lemma BracketsBack(h: string, r: string)
    requires Bracketed(h) && r != "" && r[0] == ':'
    ensures ParseHost(QrHostText(h) + r, true) == Ok((UpperAll(h), r))
  {
    hide Span, Upper, Ip6Char;
    forall i | 0 <= i < |h|
      ensures Ip6Char(h[i]) ==> Ip6Char(Upper(h[i]))
      ensures (Upper(h[i]) == '[' <==> h[i] == '[') && (Upper(h[i]) == ']' <==> h[i] == ']')
    {
      CaseFolds(h[i]);
    }
    var u, n := UpperAll(h), |h|;
    var inner := u[1..n - 1];
    var s := QrHostText(h) + r;
    assert s[1..] == inner + ("$" + r);
    assert !Ip6Char('$') by { NoDollar(); }
    SpanAt(Ip6Char, inner, "$" + r);
    assert s[n - 1] == '$' && s[n..] == r;
    assert s[..n][0 := '['][n - 1 := ']'] == u;
  }

  lemma NoDollar()
    ensures !Ip6Char('$')
  {
  }

  lemma PlainBack(h: string, r: string)
    requires PlainHost(h) && AllQr(UpperAll(h)) && h[0] != '$' && r != "" && r[0] == ':'
    ensures ParseHost(UpperAll(h) + r, true) == Ok((UpperAll(h), r))
  {
    hide Span, Upper, QrChar;
    forall i | 0 <= i < |h|
      ensures (Upper(h[i]) == '$' <==> h[i] == '$') && (Upper(h[i]) == ':' <==> h[i] == ':')
      ensures Upper(h[i]) == '[' <==> h[i] == '['
    {
      CaseFolds(h[i]);
    }
    var u := UpperAll(h);
    SpanAt(NotColon, u, r);
    assert (u + r)[..|u|] == u && (u + r)[|u|..] == r;
  }

  /** A leading $ is read as the start of an IPv6 literal, so such a host never comes back. */
  lemma DollarLost(h: string, r: string)
    requires h != "" && h[0] == '$'
    ensures var p := ParseHost(UpperAll(h) + r, true); p.Ok? ==> p.value.0 != "" && p.value.0[0] == '['
  {
    hide Span;
    var s := UpperAll(h) + r;
    assert s[0] == '$';
  }

  // ----- addresses -----

  function QrScheme(curve: bool): string {
    if curve then "CURVE" else "TCP"
  }

  lemma QrShape(a: Address)
    requires IsTcp(a.protocol) && a.host != ""
    ensures var curve := IsCurve(a.protocol);
            QrAddress(a) == Ok(QrScheme(curve) + "://" + (QrHostText(a.host) + AfterHost(a.port, a.pubkey, curve)))
  {
    hide QrHostText, KeyText, BencodeModel.PrintNat;
    var d, t := BencodeModel.PrintNat(a.port), KeyText(a.pubkey, UpperBase32z);
    var h, p := QrHostText(a.host), QrScheme(IsCurve(a.protocol)) + "://";
    assert p + (h + ":" + d) + "/" + t == p + (h + (":" + d + ("/" + t)));
    assert p + (h + ":" + d) == p + (h + (":" + d + ""));
  }

  lemma QrTcpParses(h: string, u: string, port: nat, pk: seq<byte>, curve: bool)
    requires 1 <= port <= 65535 && (curve ==> |pk| == 32) && u != ""
    requires ParseHost(u + AfterHost(port, pk, curve), true) == Ok((UpperAll(h), AfterHost(port, pk, curve)))
    ensures ParseTcp(u + AfterHost(port, pk, curve), true, curve) == Ok((LowerAll(h), port, if curve then pk else []))
  {
    hide ParseHost, ParsePort, DecodePubkey, KeyText, BencodeModel.PrintNat, UpperAll, LowerAll;
    LowerUpper(h);
    PortParses(port, KeyPart(pk, curve));
    if curve {
      KeyDecodes(pk, UpperBase32z, true);
      assert KeyPart(pk, curve)[1..] == KeyText(pk, UpperBase32z);
    }
  }

  lemma QrParses(a: Address)
    requires WellFormed(a) && IsTcp(a.protocol) && QrFriendly(a.host)
    ensures var s := QrHostText(a.host) + AfterHost(a.port, a.pubkey, IsCurve(a.protocol));
            var r := ParseRest(a.protocol, true, s);
            r.Ok? && Same(r.value, a.(host := LowerAll(a.host)))
  {
    hide KeyPart, BencodeModel.PrintNat, UpperAll, LowerAll, ParseHost, ParseTcp, QrHostText, AllQr, PlainHost, Bracketed;
    var curve := IsCurve(a.protocol);
    var r := AfterHost(a.port, a.pubkey, curve);
    AfterHostIsQr(a.port, a.pubkey, curve);
    HostNotEmpty(a.host);
    HostIsQr(a.host);
    AllQrConcat(QrHostText(a.host), r);
    assert r[0] == ':';
    if Bracketed(a.host) {
      BracketsBack(a.host, r);
    } else {
      PlainBack(a.host, r);
    }
    NotEmpty(a.host);
    QrTcpParses(a.host, QrHostText(a.host), a.port, a.pubkey, curve);
  }

  lemma NotEmpty(h: string)
    requires h != ""
    ensures QrHostText(h) != ""
  {
  }

  lemma QrRejects(a: Address)
    requires WellFormed(a) && IsTcp(a.protocol) && !QrFriendly(a.host)
    ensures var s := QrHostText(a.host) + AfterHost(a.port, a.pubkey, IsCurve(a.protocol));
            var r := ParseRest(a.protocol, true, s);
            r.Ok? ==> r.value.host != LowerAll(a.host)
  {
    hide KeyPart, BencodeModel.PrintNat, ParseHost, ParsePort, DecodePubkey, AllQr, QrHostText;
    var h := a.host;
    var r := AfterHost(a.port, a.pubkey, IsCurve(a.protocol));
    HostIsQr(h);
    AllQrConcat(UpperAll(h), r);
    if h[0] == '$' {
      DollarLost(h, r);
      assert LowerAll(h)[0] == '$';
      assert Lower('[') == '[';
    }
  }

  /**
   Parsing the QR-friendly form gives the address with its host in lower case, exactly for the hosts
   that a QR code can spell and that do not start with $.
   */
  lemma QrRoundTrip(a: Address)
    requires WellFormed(a) && IsTcp(a.protocol)
    ensures QrAddress(a).Ok?
    ensures var back := ParseAddress(QrAddress(a).value);
            QrFriendly(a.host) <==> back.Ok? && Same(back.value, a.(host := LowerAll(a.host)))
  {
    hide ParseRest, QrHostText, AfterHost, ParseAddress, QrAddress, QrFriendly, Bracketed, LowerAll;
    var curve := IsCurve(a.protocol);
    assert a.host != "" by { assert PlainHost(a.host) || Bracketed(a.host); HostNotEmpty(a.host); }
    QrShape(a);
    NotEmpty(a.host);
    QrProtocol(curve);
    AfterScheme(QrScheme(curve), QrHostText(a.host) + AfterHost(a.port, a.pubkey, curve));
    if QrFriendly(a.host) {
      QrParses(a);
    } else {
      QrRejects(a);
    }
  }

  lemma HostNotEmpty(h: string)
    requires PlainHost(h) || Bracketed(h)
    ensures h != ""
  {
  }

  lemma QrProtocol(curve: bool)
    ensures QrScheme(curve) != "" && Protocol(QrScheme(curve)) == Ok((if curve then TcpCurve else Tcp, true))
    ensures forall i | 0 <= i < |QrScheme(curve)| :: QrScheme(curve)[i] != ':'
  {
  }

  /** An underscore is enough to make a plain host unreadable after printing. */
  lemma QrUnfriendlyHost(a: Address)
    requires a == Address(Tcp, "a_b", 80, "", [])
    ensures WellFormed(a) && QrAddress(a).Ok? && !(ParseAddress(QrAddress(a).value).Ok? && Same(ParseAddress(QrAddress(a).value).value, a))
  {
    assert UpperAll("a_b")[1] == '_' && !QrChar('_');
    assert LowerAll("a_b") == "a_b";
    QrRoundTrip(a);
  }
}
