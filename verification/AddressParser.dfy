/** The address parser and printers as they run: a view that is eaten from the front, and strings that grow. */
module AddressParser {
  import opened BitPacking
  import opened BaseCodecs
  import opened BaseLoops
  import opened AddressModel
  import BencodeModel
  import BencodeNumbers

  method LowerCase(s: string) returns (r: string)
    ensures r == LowerAll(s)
  {
    r := s;
    for i := 0 to |s|
      invariant |r| == |s| && (forall j | 0 <= j < i :: r[j] == Lower(s[j])) && (forall j | i <= j < |s| :: r[j] == s[j])
    {
      if 'A' <= r[i] <= 'Z' {
        r := r[i := r[i] - 'A' + 'a'];
      }
    }
  }

  method UpperCase(s: string) returns (r: string)
    ensures r == UpperAll(s)
  {
    r := s;
    for i := 0 to |s|
      invariant |r| == |s| && (forall j | 0 <= j < i :: r[j] == Upper(s[j])) && (forall j | i <= j < |s| :: r[j] == s[j])
    {
      if 'a' <= r[i] <= 'z' {
        r := r[i := r[i] - 'a' + 'A'];
      }
    }
  }

  method CheckQr(s: string) returns (ok: bool)
    ensures ok == AllQr(s)
  {
    for i := 0 to |s|
      invariant forall j | 0 <= j < i :: QrChar(s[j])
    {
      if !QrChar(s[i]) {
        return false;
      }
    }
    return true;
  }

  /** The longest start of `s` whose characters all satisfy `p`, found by scanning. */
  method ScanWhile(p: char -> bool, s: string) returns (n: nat)
    ensures n == Span(p, s)
  {
    hide Span;
    n := 0;
    while n < |s| && p(s[n])
      invariant n <= |s| && forall i | 0 <= i < n :: p(s[i])
    {
      n := n + 1;
    }
  }

  method FindSeparator(s: string) returns (n: nat)
    ensures n == FindScheme(s)
  {
    n := 0;
    while n + 3 <= |s|
      invariant n <= |s| && FindScheme(s) == n + FindScheme(s[n..])
    {
      assert s[n..][..3] == s[n..n + 3] && s[n..][1..] == s[n + 1..];
      if s[n..n + 3] == "://" {
        return;
      }
      n := n + 1;
    }
    return |s|;
  }

  method ReadDecimal(s: string) returns (n: nat)
    requires BencodeNumbers.AllDigits(s)
    ensures n == BencodeNumbers.Decimal(s, 0)
  {
    n := 0;
    for i := 0 to |s|
      invariant BencodeNumbers.Decimal(s[i..], n) == BencodeNumbers.Decimal(s, 0)
    {
      assert s[i..][0] == s[i] && s[i..][1..] == s[i + 1..];
      n := n * 10 + BencodeModel.DigitValue(s[i]);
    }
  }

  method ReadPubkey(addr: string, qr: bool) returns (r: Result<(seq<byte>, string)>)
    ensures r == DecodePubkey(addr, qr)
  {
    hide IsHex, DecodeHex, IsBase32z, DecodeBase32z, IsBase64, DecodeBase64;
    var view := addr;
    if |view| >= 64 {
      var ok := CheckHex(view[..64]);
      if ok {
        var key := FromHexText(view[..64]);
        return Ok((key, view[64..]));
      }
    }
    if |view| >= 52 {
      var ok := CheckBase32z(view[..52]);
      if ok {
        var key := FromBase32z(view[..52]);
        return Ok((key, view[52..]));
      }
    }
    if !qr && |view| >= 43 {
      var ok := CheckBase64(view[..43]);
      if ok {
        var key := FromBase64(view[..43]);
        view := view[43..];
        if view != "" && view[0] == '=' {
          view := view[1..];
        }
        return Ok((key, view));
      }
    }
    return Error;
  }

  method ReadHost(addr: string, qr: bool) returns (r: Result<(string, string)>)
    requires addr != ""
    ensures r == ParseHost(addr, qr)
  {
    hide Span;
    if addr[0] == '[' || (qr && addr[0] == '$') {
      var pos := ScanWhile(Ip6Char, addr[1..]);
      pos := pos + 1;
      if pos == |addr| {
        return Error;
      }
      if !(addr[pos] == ']' || (qr && addr[pos] == '$')) {
        return Error;
      }
      var host := addr[..pos + 1];
      if qr {
        if host[0] == '$' {
          host := host[0 := '['];
        }
        if host[pos] == '$' {
          host := host[pos := ']'];
        }
        assert host == addr[..pos + 1][0 := '['][pos := ']'];
      }
      return Ok((host, addr[pos + 1..]));
    }
    var pos := ScanWhile(NotColon, addr);
    if pos == |addr| || pos == 0 {
      return Error;
    }
    return Ok((addr[..pos], addr[pos..]));
  }

  method ReadPort(addr: string) returns (r: Result<(nat, string)>)
    ensures r == ParsePort(addr)
  {
    hide Span, BencodeNumbers.Decimal;
    var view := addr;
    if |view| < 2 || view[0] != ':' {
      return Error;
    }
    view := view[1..];
    var pos := ScanWhile(DigitChar, view);
    if pos == 0 {
      return Error;
    }
    var port := ReadDecimal(view[..pos]);
    if port == 0 || port > 65535 {
      return Error;
    }
    return Ok((port, view[pos..]));
  }

  method ReadTcp(addr: string, qr: bool, curve: bool) returns (r: Result<(string, nat, seq<byte>)>)
    requires addr != ""
    ensures r == ParseTcp(addr, qr, curve)
  {
    hide ParseHost, ParsePort, DecodePubkey, LowerAll;
    var h := ReadHost(addr, qr);
    if h.Error? {
      return Error;
    }
    var (host, rest) := h.value;
    if qr {
      host := LowerCase(host);
    }
    var p := ReadPort(rest);
    if p.Error? {
      return Error;
    }
    var (port, view) := p.value;
    if !curve {
      return if view == "" then Ok((host, port, [])) else Error;
    }
    if |view| < 1 + (if qr then 52 else 43) || view[0] != '/' {
      return Error;
    }
    var key := ReadPubkey(view[1..], qr);
    if key.Error? || key.value.1 != "" {
      return Error;
    }
    return Ok((host, port, key.value.0));
  }

  /** The key is whichever encoding fits the end of the text after a slash. */
  method ReadUnix(addr: string, curve: bool) returns (r: Result<(string, seq<byte>)>)
    ensures r == ParseUnix(addr, curve)
  {
    hide IsHex, DecodeHex, IsBase32z, DecodeBase32z, IsBase64, DecodeBase64;
    if !curve {
      return Ok((addr, []));
    }
    var size := |addr|;
    var long := if size > 0 && addr[size - 1] == '=' then 44 else 43;
    if size > 64 && addr[size - 65] == '/' {
      var ok := CheckHex(addr[size - 64..]);
      if ok {
        var key := FromHexText(addr[size - 64..]);
        return Ok((addr[..size - 65], key));
      }
    }
    if size > 52 && addr[size - 53] == '/' {
      var ok := CheckBase32z(addr[size - 52..]);
      if ok {
        var key := FromBase32z(addr[size - 52..]);
        return Ok((addr[..size - 53], key));
      }
    }
    if size > long && addr[size - long - 1] == '/' {
      var ok := CheckBase64(addr[size - long..]);
      if ok {
        var key := FromBase64(addr[size - long..]);
        return Ok((addr[..size - long - 1], key));
      }
    }
    return Error;
  }

  method ReadAddress(addr: string) returns (r: Result<Address>)
    ensures r == ParseAddress(addr)
  {
    hide ParseTcp, ParseUnix, FindScheme, Protocol, AllQr;
    var end := FindSeparator(addr);
    if end == |addr| || end == 0 {
      return Error;
    }
    var scheme, view := addr[..end], addr[end + 3..];
    if view == "" {
      return Error;
    }
    var known := Protocol(scheme);
    if known.Error? {
      return Error;
    }
    var (protocol, qr) := known.value;
    if qr {
      var ok := CheckQr(view);
      if !ok {
        return Error;
      }
    }
    if IsTcp(protocol) {
      var t := ReadTcp(view, qr, IsCurve(protocol));
      match t
      case Error => return Error;
      case Ok((host, port, key)) => return Ok(Address(protocol, host, port, "", key));
    } else {
      var u := ReadUnix(view, IsCurve(protocol));
      match u
      case Error => return Error;
      case Ok((socket, key)) => return Ok(Address(protocol, "", 0, socket, key));
    }
  }

  method PrintKey(pubkey: seq<byte>, enc: Encoding) returns (pk: string)
    ensures pk == KeyText(pubkey, enc)
  {
    hide EncodeHex, EncodeBase32z, EncodeBase64, UpperAll;
    match enc
    case Hex => pk := ToHexText(pubkey);
    case Base32z => pk := ToBase32z(pubkey);
    case UpperBase32z =>
      pk := ToBase32z(pubkey);
      pk := UpperCase(pk);
    case Base64 =>
      pk := ToBase64(pubkey);
      if |pk| == 44 && pk[43] == '=' {
        pk := pk[..43];
      }
  }

  method PrintAddress(a: Address, enc: Encoding) returns (result: string)
    ensures result == FullAddress(a, enc)
  {
    hide KeyText, BencodeModel.PrintNat;
    var pk := "";
    if IsCurve(a.protocol) {
      pk := PrintKey(a.pubkey, enc);
    }
    result := Scheme(a.protocol);
    result := result + "://";
    ghost var start := result;
    if IsTcp(a.protocol) {
      result := result + a.host;
      result := result + ":";
      result := result + BencodeModel.PrintNat(a.port);
      assert result == start + HostPort(a.host, a.port);
    } else {
      result := result + a.socket;
    }
    if IsCurve(a.protocol) {
      ghost var place := result;
      result := result + "/";
      result := result + pk;
      assert start + (HostPort(a.host, a.port) + "/" + pk) == start + HostPort(a.host, a.port) + "/" + pk;
      assert start + (a.socket + "/" + pk) == start + a.socket + "/" + pk;
    }
  }

  method PrintQr(a: Address) returns (r: Result<string>)
    ensures r == QrAddress(a)
  {
    hide KeyText, BencodeModel.PrintNat, UpperAll;
    if !IsTcp(a.protocol) || a.host == "" {
      return Error;
    }
    var result := if IsCurve(a.protocol) then "CURVE://" else "TCP://";
    ghost var start := (if IsCurve(a.protocol) then "CURVE" else "TCP") + "://";
    assert result == start;
    var h := UpperCase(a.host);
    assert |h| == |a.host| by { UpperLength(a.host); }
    if h[0] == '[' && h[|h| - 1] == ']' {
      h := h[0 := '$'];
      h := h[|h| - 1 := '$'];
    }
    assert h == QrHostText(a.host);
    result := result + h;
    result := result + ":";
    result := result + BencodeModel.PrintNat(a.port);
    assert result == start + HostPort(h, a.port);
    if IsCurve(a.protocol) {
      var pk := PrintKey(a.pubkey, UpperBase32z);
      result := result + "/";
      result := result + pk;
    }
    return Ok(result);
  }

  lemma UpperLength(s: string)
    ensures |UpperAll(s)| == |s|
  {
  }
}
