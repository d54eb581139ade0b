/** The grammar of addresses: exactly which texts the parser accepts, and what they mean. */
module AddressGrammar {
  import opened BitPacking
  import opened BaseCodecs
  import opened AddressModel
  import opened AddressRoundTrip
  import BencodeNumbers

  // ----- the grammar -----

  predicate SchemeOf(p: string, protocol: Proto, qr: bool) {
    || (p == "tcp" && protocol == Tcp && !qr)
    || (p == "tcp+curve" && protocol == TcpCurve && !qr)
    || (p == "curve" && protocol == TcpCurve && !qr)
    || (p == "ipc" && protocol == Ipc && !qr)
    || (p == "ipc+curve" && protocol == IpcCurve && !qr)
    || (p == "TCP" && protocol == Tcp && qr)
    || (p == "CURVE" && protocol == TcpCurve && qr)
  }

  /** A key after a port: 64 hex digits, 52 letters of base32z, or 43 of base64 with or without the padding character. */
  predicate KeySpells(t: string, key: seq<byte>, qr: bool) {
    || (|t| == 64 && IsHex(t) && key == DecodeHex(t))
    || (|t| == 52 && IsBase32z(t) && key == DecodeBase32z(t))
    || (!qr && |t| == 43 && IsBase64(t) && key == DecodeBase64(t))
    || (!qr && |t| == 44 && IsBase64(t[..43]) && t[43] == '=' && key == DecodeBase64(t[..43]))
  }

  predicate Opens(c: char, qr: bool) {
    c == '[' || (qr && c == '$')
  }

  predicate Closes(c: char, qr: bool) {
    c == ']' || (qr && c == '$')
  }

  /** A literal IPv6 address in brackets, or anything without a colon. */
  predicate HostSpells(h: string, host: string, qr: bool) {
    && h != ""
    && if Opens(h[0], qr) then
         && |h| >= 2 && Closes(h[|h| - 1], qr) && (forall i | 0 < i < |h| - 1 :: Ip6Char(h[i]))
         && host == if qr then LowerAll("[" + h[1..|h| - 1] + "]") else h
       else
         (forall i | 0 <= i < |h| :: h[i] != ':') && host == if qr then LowerAll(h) else h
  }

  predicate PortSpells(d: string, port: nat) {
    d != "" && BencodeNumbers.AllDigits(d) && BencodeNumbers.Decimal(d, 0) == port && 1 <= port <= 65535
  }

  predicate TcpText(s: string, h: string, d: string, t: string, host: string, port: nat, key: seq<byte>, qr: bool, curve: bool) {
    && HostSpells(h, host, qr) && PortSpells(d, port)
    && if curve then s == h + ":" + d + "/" + t && KeySpells(t, key, qr) else s == h + ":" + d && t == "" && key == []
  }

  ghost predicate TcpSpells(s: string, host: string, port: nat, key: seq<byte>, qr: bool, curve: bool) {
    exists h, d, t :: TcpText(s, h, d, t, host, port, key, qr, curve)
  }

  /** A key at the end of a socket path; here base64 with padding is read as a whole. */
  predicate PathKeySpells(t: string, key: seq<byte>) {
    || (|t| == 64 && IsHex(t) && key == DecodeHex(t))
    || (|t| == 52 && IsBase32z(t) && key == DecodeBase32z(t))
    || (|t| == 43 && IsBase64(t) && key == DecodeBase64(t))
    || (|t| == 44 && t[43] == '=' && IsBase64(t) && key == DecodeBase64(t))
  }

  ghost predicate UnixSpells(s: string, socket: string, key: seq<byte>, curve: bool) {
    if curve then exists t :: s == socket + "/" + t && PathKeySpells(t, key) else s == socket && key == []
  }

  ghost predicate PlaceSpells(r: string, a: Address, qr: bool) {
    && r != "" && (qr ==> AllQr(r))
    && if IsTcp(a.protocol) then a.socket == "" && TcpSpells(r, a.host, a.port, a.pubkey, qr, IsCurve(a.protocol))
       else a.host == "" && a.port == 0 && UnixSpells(r, a.socket, a.pubkey, IsCurve(a.protocol))
  }

  ghost predicate Spells(s: string, a: Address) {
    exists p, r, qr :: s == p + "://" + r && SchemeOf(p, a.protocol, qr) && PlaceSpells(r, a, qr)
  }

  // ----- keys -----

  lemma KeyExactly(t: string, key: seq<byte>, qr: bool)
    ensures DecodePubkey(t, qr) == Ok((key, "")) <==> KeySpells(t, key, qr)
  {
    hide IsHex, DecodeHex, IsBase32z, DecodeBase32z, IsBase64, DecodeBase64;
    assert |t| == 64 ==> t[..64] == t && t[64..] == "";
    assert |t| == 52 ==> t[..52] == t && t[52..] == "";
    assert |t| == 43 ==> t[..43] == t && t[43..] == "";
    if |t| == 44 { assert t[43..] == [t[43]] && t[43..][1..] == ""; }
  }

  // ----- hosts -----

  /** What the host parser returns, before it is put into lower case. */
  lemma HostAccepts(h: string, r: string, qr: bool)
    requires h != "" && r != "" && r[0] == ':'
    requires Opens(h[0], qr) ==> |h| >= 2 && Closes(h[|h| - 1], qr) && forall i | 0 < i < |h| - 1 :: Ip6Char(h[i])
    requires !Opens(h[0], qr) ==> forall i | 0 <= i < |h| :: h[i] != ':'
    ensures ParseHost(h + r, qr) == Ok((if Opens(h[0], qr) && qr then "[" + h[1..|h| - 1] + "]" else h, r))
  {
    hide Span;
    var s := h + r;
    assert s[0] == h[0] && s[..|h|] == h && s[|h|..] == r;
    if Opens(h[0], qr) {
      var inner, close := h[1..|h| - 1], [h[|h| - 1]];
      assert s[1..] == inner + (close + r);
      SpanAt(Ip6Char, inner, close + r);
      assert s[|h| - 1] == h[|h| - 1];
      assert h[0 := '['][|h| - 1 := ']'] == "[" + inner + "]";
    } else {
      SpanAt(NotColon, h, r);
    }
  }

  lemma HostRejects(s: string, qr: bool) returns (h: string)
    requires s != "" && ParseHost(s, qr).Ok?
    ensures h != "" && s == h + ParseHost(s, qr).value.1
    ensures if Opens(h[0], qr) then
              && |h| >= 2 && Closes(h[|h| - 1], qr) && (forall i | 0 < i < |h| - 1 :: Ip6Char(h[i]))
              && ParseHost(s, qr).value.0 == if qr then "[" + h[1..|h| - 1] + "]" else h
            else
              (forall i | 0 <= i < |h| :: h[i] != ':') && ParseHost(s, qr).value.0 == h
  {
    hide Span;
    if Opens(s[0], qr) {
      var pos := 1 + Span(Ip6Char, s[1..]);
      h := s[..pos + 1];
      forall i | 0 < i < |h| - 1 ensures Ip6Char(h[i]) { assert h[i] == s[1..][i - 1]; }
      assert h[0 := '['][pos := ']'] == "[" + h[1..pos] + "]";
    } else {
      h := s[..Span(NotColon, s)];
    }
  }

  // ----- ports -----

  lemma PortAccepts(d: string, port: nat, r: string)
    requires PortSpells(d, port) && (r != "" ==> !DigitChar(r[0]))
    ensures ParsePort(":" + d + r) == Ok((port, r))
  {
    var s := ":" + d + r;
    hide BencodeNumbers.Decimal, Span;
    assert s[1..] == d + r;
    SpanAt(DigitChar, d, r);
    assert (d + r)[..|d|] == d && (d + r)[|d|..] == r;
  }

  lemma PortRejects(s: string) returns (d: string)
    requires ParsePort(s).Ok?
    ensures PortSpells(d, ParsePort(s).value.0) && s == ":" + d + ParsePort(s).value.1
  {
    hide Span, BencodeNumbers.Decimal;
    d := s[1..][..Span(DigitChar, s[1..])];
    assert s == ":" + s[1..];
  }

  // ----- TCP -----

  lemma TcpAccepts(s: string, h: string, d: string, t: string, host: string, port: nat, key: seq<byte>, qr: bool, curve: bool)
    requires TcpText(s, h, d, t, host, port, key, qr, curve)
    ensures s != "" && ParseTcp(s, qr, curve) == Ok((host, port, key))
  {
    hide ParseHost, ParsePort, DecodePubkey, LowerAll, PortSpells, KeySpells;
    var tail := if curve then "/" + t else "";
    var rest := ":" + d + tail;
    assert s == h + rest;
    HostAccepts(h, rest, qr);
    PortAccepts(d, port, tail);
    if curve {
      KeyExactly(t, key, qr);
      KeyLength(t, key, qr);
      assert tail[1..] == t;
    }
  }

  lemma KeyLength(t: string, key: seq<byte>, qr: bool)
    requires KeySpells(t, key, qr)
    ensures |t| >= if qr then 52 else 43
  {
  }

  lemma TcpRejects(s: string, qr: bool, curve: bool)
    requires s != "" && ParseTcp(s, qr, curve).Ok?
    ensures var (host, port, key) := ParseTcp(s, qr, curve).value; TcpSpells(s, host, port, key, qr, curve)
  {
    hide ParseHost, ParsePort, DecodePubkey, LowerAll, PortSpells, KeySpells, Ip6Char;
    var (host, port, key) := ParseTcp(s, qr, curve).value;
    var h := HostRejects(s, qr);
    var rest := ParseHost(s, qr).value.1;
    var d := PortRejects(rest);
    var tail := ParsePort(rest).value.1;
    Glued(s, h, d, tail);
    assert HostSpells(h, host, qr);
    hide HostSpells;
    if curve {
      KeyExactly(tail[1..], key, qr);
      assert TcpText(s, h, d, tail[1..], host, port, key, qr, curve);
    } else {
      assert TcpText(s, h, d, "", host, port, key, qr, curve);
    }
  }

  lemma Glued(s: string, h: string, d: string, tail: string)
    requires s == h + (":" + d + tail)
    ensures tail == "" ==> s == h + ":" + d
    ensures tail != "" && tail[0] == '/' ==> s == h + ":" + d + "/" + tail[1..]
  {
    if tail != "" && tail[0] == '/' { assert tail == "/" + tail[1..]; }
  }

  lemma TcpExactly(s: string, host: string, port: nat, key: seq<byte>, qr: bool, curve: bool)
    requires s != ""
    ensures ParseTcp(s, qr, curve) == Ok((host, port, key)) <==> TcpSpells(s, host, port, key, qr, curve)
  {
    hide ParseTcp, TcpText;
    if h, d, t :| TcpText(s, h, d, t, host, port, key, qr, curve) {
      TcpAccepts(s, h, d, t, host, port, key, qr, curve);
    }
    if ParseTcp(s, qr, curve) == Ok((host, port, key)) { TcpRejects(s, qr, curve); }
  }

  // ----- socket paths -----

  lemma NoPadding(t: string)
    requires |t| == 43 && IsBase64(t)
    ensures t[42] != '='
  {
    assert Body64(t) == 43 && Digit64(t[42]);
  }

  lemma PathAccepts(socket: string, t: string, key: seq<byte>)
    requires PathKeySpells(t, key)
    ensures ParseUnix(socket + "/" + t, true) == Ok((socket, key))
  {
    hide DecodeHex, DecodeBase32z, DecodeBase64, IsBase64, IsHex, IsBase32z;
    UnixByLength(socket, t);
    var s := socket + "/" + t;
    if |t| == 43 {
      if IsBase64(t) { NoPadding(t); }
    } else if |t| == 44 {
      TailIs(socket, t);
      NotLonger(socket, t, 64);
      NotLonger(socket, t, 52);
      assert s[|s| - 1] == t[43];
    }
  }

  lemma PathRejects(s: string)
    requires ParseUnix(s, true).Ok?
    ensures UnixSpells(s, ParseUnix(s, true).value.0, ParseUnix(s, true).value.1, true)
  {
    hide DecodeHex, DecodeBase32z, DecodeBase64, IsBase64, IsHex, IsBase32z;
    var (socket, key) := ParseUnix(s, true).value;
    var t := s[|socket| + 1..];
    assert s == socket + "/" + t && PathKeySpells(t, key);
  }

  lemma UnixExactly(s: string, socket: string, key: seq<byte>, curve: bool)
    ensures ParseUnix(s, curve) == Ok((socket, key)) <==> UnixSpells(s, socket, key, curve)
  {
    if curve {
      hide ParseUnix, PathKeySpells;
      if t :| s == socket + "/" + t && PathKeySpells(t, key) { PathAccepts(socket, t, key); }
      if ParseUnix(s, true) == Ok((socket, key)) { PathRejects(s); }
    }
  }

  // ----- whole addresses -----

  lemma SchemeExactly(p: string, protocol: Proto, qr: bool)
    ensures Protocol(p) == Ok((protocol, qr)) <==> SchemeOf(p, protocol, qr)
    ensures SchemeOf(p, protocol, qr) ==> p != "" && forall i | 0 <= i < |p| :: p[i] != ':'
  {
  }

  lemma PlaceExactly(r: string, a: Address, qr: bool)
    requires r != ""
    ensures ParseRest(a.protocol, qr, r) == Ok(a) <==> PlaceSpells(r, a, qr)
  {
    hide ParseTcp, ParseUnix, TcpSpells, UnixSpells, AllQr;
    TcpExactly(r, a.host, a.port, a.pubkey, qr, IsCurve(a.protocol));
    UnixExactly(r, a.socket, a.pubkey, IsCurve(a.protocol));
  }

  lemma {:induction false} SchemeEnds(s: string)
    requires FindScheme(s) < |s|
    ensures s[FindScheme(s)..FindScheme(s) + 3] == "://"
  {
    if s[..3] != "://" { SchemeEnds(s[1..]); }
  }

  /** A text is accepted as an address if and only if the grammar spells that address. */
  lemma AddressExactly(s: string, a: Address)
    ensures ParseAddress(s) == Ok(a) <==> Spells(s, a)
  {
    hide ParseRest, PlaceSpells, FindScheme, Protocol, SchemeOf;
    if ParseAddress(s) == Ok(a) {
      var n := FindScheme(s);
      SchemeEnds(s);
      var p, r := s[..n], s[n + 3..];
      assert s == p + "://" + r;
      var (protocol, qr) := Protocol(p).value;
      SchemeExactly(p, protocol, qr);
      RestKeeps(protocol, qr, r);
      PlaceExactly(r, a, qr);
    }
    if p, r, qr :| s == p + "://" + r && SchemeOf(p, a.protocol, qr) && PlaceSpells(r, a, qr) {
      SchemeExactly(p, a.protocol, qr);
      assert r != "" by { PlaceNotEmpty(r, a, qr); }
      PlaceExactly(r, a, qr);
      AfterScheme(p, r);
    }
  }

  lemma RestKeeps(protocol: Proto, qr: bool, r: string)
    requires r != "" && ParseRest(protocol, qr, r).Ok?
    ensures ParseRest(protocol, qr, r).value.protocol == protocol
  {
    hide ParseTcp, ParseUnix;
  }

  lemma PlaceNotEmpty(r: string, a: Address, qr: bool)
    requires PlaceSpells(r, a, qr)
    ensures r != ""
  {
  }

  /** An address is printed under one spelling of its scheme, the short one for a key over TCP. */
  lemma PrintedScheme(a: Address, enc: Encoding)
    ensures var start := match a.protocol
                         case Tcp => "tcp://" case TcpCurve => "curve://" case Ipc => "ipc://" case IpcCurve => "ipc+curve://";
            start <= FullAddress(a, enc) && FullAddress(a, enc)[|start|..] == Place(a, enc)
  {
    hide KeyText, HostPort, FullAddress, Place;
    FullIsPlace(a, enc);
  }

  // ----- what is accepted can be printed again -----

  lemma KeyBytes(t: string, key: seq<byte>, qr: bool)
    requires KeySpells(t, key, qr)
    ensures |key| == 32
  {
    hide IsHex, DecodeHex, IsBase32z, DecodeBase32z, DecodeBase64;
    if |t| == 43 || |t| == 44 {
      BytesOf43(t[..43]);
      assert |t| == 43 ==> t[..43] == t;
    } else {
      DecodersBounded(t);
    }
  }

  lemma BytesOf43(t: string)
    requires |t| == 43 && IsBase64(t)
    ensures |DecodeBase64(t)| == 32
  {
    DecodersBounded(t);
    assert Body64(t) == 43;
    assert forall i | 0 <= i < 43 :: t[i] != '=';
    hide DecodeBase64, Body64, Digit64, IsBase64;
    NothingPadded(t);
  }

  lemma {:induction false} NothingPadded(t: string)
    requires forall i | 0 <= i < |t| :: t[i] != '='
    ensures Unpadded(t) == t
  {
    if t != "" {
      var n := |t| - 1;
      NothingPadded(t[..n]);
      assert t == t[..n] + [t[n]];
    }
  }

  /** A path key is a whole one unless it ends in two padding characters. */
  lemma PathKeyBytes(t: string, key: seq<byte>)
    requires PathKeySpells(t, key)
    ensures |key| == if |t| == 44 && t[42] == '=' then 31 else 32
  {
    hide IsHex, DecodeHex, IsBase32z, DecodeBase32z, DecodeBase64;
    DecodersBounded(t);
    if |t| == 43 {
      BytesOf43(t);
    } else if |t| == 44 {
      PaddedLength(t);
    }
  }

  lemma PaddedLength(t: string)
    requires |t| == 44 && t[43] == '=' && IsBase64(t)
    ensures |Unpadded(t)| == if t[42] == '=' then 42 else 43
  {
    assert Body64(t) == if t[42] == '=' then 42 else 43;
    assert forall i | 0 <= i < 42 :: t[i] != '=' by { assert forall i | 0 <= i < 42 :: Digit64(t[i]); }
    hide Body64, Digit64, IsBase64;
    assert t[..43][..42] == t[..42] && t[..43][42] == t[42];
    NothingPadded(t[..42]);
  }

  lemma HostIsGood(h: string, host: string, qr: bool)
    requires HostSpells(h, host, qr)
    ensures PlainHost(host) || Bracketed(host)
  {
    if qr {
      assert forall c: char :: (Lower(c) == ':' <==> c == ':') && (Lower(c) == '[' <==> c == '[') && (Ip6Char(c) ==> Ip6Char(Lower(c)));
      if Opens(h[0], qr) {
        var inner := h[1..|h| - 1];
        var b := "[" + inner + "]";
        assert |host| == |b| && forall i | 0 <= i < |b| :: host[i] == Lower(b[i]);
        assert forall i | 0 < i < |b| - 1 :: b[i] == h[i];
      }
    }
  }

  /** The text ends in a key with two padding characters. */
  predicate EndsPadded(s: string) {
    |s| >= 2 && s[|s| - 2..] == "=="
  }

  /**
   Whatever is accepted is a well-formed address, except a socket path whose key ends in two padding characters: such a
   key is a byte short.
   */
  lemma AcceptedIsWellFormed(s: string, a: Address)
    requires ParseAddress(s) == Ok(a)
    ensures WellFormed(a) <==> !(a.protocol == IpcCurve && EndsPadded(s))
  {
    AddressExactly(s, a);
    hide ParseAddress, PlainHost, Bracketed, HostSpells, KeySpells, PathKeySpells;
    var p, r, qr :| s == p + "://" + r && SchemeOf(p, a.protocol, qr) && PlaceSpells(r, a, qr);
    if IsTcp(a.protocol) {
      var h, d, t :| TcpText(r, h, d, t, a.host, a.port, a.pubkey, qr, IsCurve(a.protocol));
      HostIsGood(h, a.host, qr);
      if IsCurve(a.protocol) { KeyBytes(t, a.pubkey, qr); }
    } else if IsCurve(a.protocol) {
      var t :| r == a.socket + "/" + t && PathKeySpells(t, a.pubkey);
      PathKeyBytes(t, a.pubkey);
      PathKeyEnds(t, a.pubkey);
      assert s == p + "://" + a.socket + "/" + t;
      assert s[|s| - 2..] == t[|t| - 2..];
    }
  }

  lemma PathKeyEnds(t: string, key: seq<byte>)
    requires PathKeySpells(t, key)
    ensures |t| >= 2 && (t[|t| - 2..] == "==" <==> |t| == 44 && t[42] == '=')
  {
    hide DecodeHex, DecodeBase32z, DecodeBase64;
    if |t| == 43 {
      NoPadding(t);
    } else if |t| == 44 {
      assert t[42..] == [t[42], t[43]];
    } else {
      assert !HexDigit('=') && !Digit32('=');
      assert t[|t| - 2..][1] == t[|t| - 1];
    }
  }

  /** A path that ends in such a key is accepted with a key of 31 bytes. */
  lemma ShortKeyAccepted()
    ensures var s := "ipc+curve" + "://" + ("x" + "/" + (seq(42, _ => 'A') + "=="));
            ParseAddress(s).Ok? && |ParseAddress(s).value.pubkey| == 31
  {
    var t := seq(42, _ => 'A') + "==";
    var key := DecodeBase64(t);
    assert t[42] == '=' && t[43] == '=' && Body64(t) == 42;
    assert forall i | 0 <= i < 42 :: t[i] == 'A';
    assert IsBase64(t);
    hide DecodeBase64, IsBase64;
    PathAccepts("x", t, key);
    PathKeyBytes(t, key);
    SchemeExactly("ipc+curve", IpcCurve, false);
    AfterScheme("ipc+curve", "x" + "/" + t);
  }

  /** Two well-formed addresses are equal if and only if they are printed alike, in whichever encoding. */
  lemma EqualExactly(a: Address, b: Address, enc: Encoding)
    requires WellFormed(a) && WellFormed(b)
    ensures Same(a, b) <==> FullAddress(a, enc) == FullAddress(b, enc)
  {
    FullAddressRoundTrip(a, enc);
    FullAddressRoundTrip(b, enc);
    hide ParseAddress, KeyText, HostPort, WellFormed;
  }

  /** Printing what was accepted, and parsing that, gives the same address again. */
  lemma PrintedAgain(s: string, a: Address, enc: Encoding)
    requires ParseAddress(s) == Ok(a) && !(a.protocol == IpcCurve && EndsPadded(s))
    ensures ParseAddress(FullAddress(a, enc)).Ok? && Same(ParseAddress(FullAddress(a, enc)).value, a)
  {
    AcceptedIsWellFormed(s, a);
    FullAddressRoundTrip(a, enc);
  }
}
