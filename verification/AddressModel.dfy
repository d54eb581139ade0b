/** Addresses: a protocol, a host and port or a socket path, and a public key in one of four encodings. */
module AddressModel {
  import opened BitPacking
  import opened BaseCodecs
  import BencodeModel
  import BencodeNumbers

  datatype Proto = Tcp | TcpCurve | Ipc | IpcCurve

  datatype Encoding = Hex | Base32z | Base64 | UpperBase32z

  datatype Address = Address(protocol: Proto, host: string, port: nat, socket: string, pubkey: seq<byte>)

  datatype Result<T> = Ok(value: T) | Error

  predicate IsTcp(p: Proto) {
    p.Tcp? || p.TcpCurve?
  }

  predicate IsCurve(p: Proto) {
    p.TcpCurve? || p.IpcCurve?
  }

  /** Equality of addresses: only what the protocol uses is compared. */
  predicate Same(a: Address, b: Address) {
    && a.protocol == b.protocol
    && (IsTcp(a.protocol) ==> a.host == b.host && a.port == b.port)
    && (!IsTcp(a.protocol) ==> a.socket == b.socket)
    && (IsCurve(a.protocol) ==> a.pubkey == b.pubkey)
  }

  // ----- printing -----

  /** Without its single padding character a 32-byte key is 43 characters of base64. */
  function KeyText(pubkey: seq<byte>, enc: Encoding): string {
    match enc
    case Hex => EncodeHex(pubkey)
    case Base32z => EncodeBase32z(pubkey)
    case UpperBase32z => UpperAll(EncodeBase32z(pubkey))
    case Base64 =>
      var pk := EncodeBase64(pubkey);
      if |pk| == 44 && pk[43] == '=' then pk[..43] else pk
  }

  function Scheme(p: Proto): string {
    match p
    case Tcp => "tcp"
    case TcpCurve => "curve"
    case Ipc => "ipc"
    case IpcCurve => "ipc+curve"
  }

  function HostPort(host: string, port: nat): string {
    host + ":" + BencodeModel.PrintNat(port)
  }

  function FullAddress(a: Address, enc: Encoding): string {
    Scheme(a.protocol) + "://" +
    match a.protocol
    case Tcp => HostPort(a.host, a.port)
    case TcpCurve => HostPort(a.host, a.port) + "/" + KeyText(a.pubkey, enc)
    case Ipc => a.socket
    case IpcCurve => a.socket + "/" + KeyText(a.pubkey, enc)
  }

  /** An upper-case host, with $ in place of a literal IPv6 address's brackets. */
  function QrHostText(host: string): string
    requires host != ""
  {
    var h := UpperAll(host);
    if h[0] == '[' && h[|h| - 1] == ']' then h[0 := '$'][|h| - 1 := '$'] else h
  }

  function QrAddress(a: Address): Result<string> {
    if !IsTcp(a.protocol) || a.host == "" then Error
    else
      var start := (if IsCurve(a.protocol) then "CURVE" else "TCP") + "://" + HostPort(QrHostText(a.host), a.port);
      Ok(if IsCurve(a.protocol) then start + "/" + KeyText(a.pubkey, UpperBase32z) else start)
  }

  // ----- parsing -----

  predicate Ip6Char(c: char) {
    c == ':' || c == '.' || '0' <= c <= '9' || 'a' <= c <= 'f' || 'A' <= c <= 'F'
  }

  predicate DigitChar(c: char) {
    '0' <= c <= '9'
  }

  predicate NotColon(c: char) {
    c != ':'
  }

  /** Letters, digits and the symbols a QR-friendly address may use. */
  predicate QrChar(c: char) {
    'A' <= c <= 'Z' || '0' <= c <= '9' || c == '$' || c == ':' || c == '/' || c == '.' || c == '-'
  }

  /** The length of the longest start of `s` whose characters all satisfy `p`. */
  function Span(p: char -> bool, s: string): (n: nat)
    ensures n <= |s| && (forall i | 0 <= i < n :: p(s[i])) && (n < |s| ==> !p(s[n]))
  {
    if s == "" || !p(s[0]) then 0 else 1 + Span(p, s[1..])
  }

  /** The position of the first "://", or the length if there is none. */
  function FindScheme(s: string): (n: nat)
    ensures n <= |s| && (n < |s| ==> n + 3 <= |s|)
  {
    if |s| < 3 then |s|
    else if s[..3] == "://" then 0
    else
      var n := FindScheme(s[1..]);
      n + 1
  }

  function DecodePubkey(s: string, qr: bool): Result<(seq<byte>, string)> {
    if |s| >= 64 && IsHex(s[..64]) then Ok((DecodeHex(s[..64]), s[64..]))
    else if |s| >= 52 && IsBase32z(s[..52]) then Ok((DecodeBase32z(s[..52]), s[52..]))
    else if !qr && |s| >= 43 && IsBase64(s[..43]) then
      var rest := s[43..];
      Ok((DecodeBase64(s[..43]), if rest != "" && rest[0] == '=' then rest[1..] else rest))
    else Error
  }

  /** The host and what follows it. */
  function ParseHost(s: string, qr: bool): Result<(string, string)>
    requires s != ""
  {
    if s[0] == '[' || (qr && s[0] == '$') then
      var pos := 1 + Span(Ip6Char, s[1..]);
      if pos == |s| then Error
      else if !(s[pos] == ']' || (qr && s[pos] == '$')) then Error
      else
        var host := s[..pos + 1];
        Ok((if qr then host[0 := '['][pos := ']'] else host, s[pos + 1..]))
    else
      var pos := Span(NotColon, s);
      if pos == |s| || pos == 0 then Error else Ok((s[..pos], s[pos..]))
  }

  function ParsePort(s: string): Result<(nat, string)> {
    if |s| < 2 || s[0] != ':' then Error
    else
      var n := Span(DigitChar, s[1..]);
      var port := BencodeNumbers.Decimal(s[1..][..n], 0);
      if n == 0 || port == 0 || port > 65535 then Error else Ok((port, s[1..][n..]))
  }

  function ParseTcp(s: string, qr: bool, curve: bool): Result<(string, nat, seq<byte>)>
    requires s != ""
  {
    match ParseHost(s, qr)
    case Error => Error
    case Ok((host, rest)) =>
      match ParsePort(rest)
      case Error => Error
      case Ok((port, tail)) =>
        var h := if qr then LowerAll(host) else host;
        if !curve then if tail == "" then Ok((h, port, [])) else Error
        else if |tail| < 1 + (if qr then 52 else 43) || tail[0] != '/' then Error
        else
          match DecodePubkey(tail[1..], qr)
          case Error => Error
          case Ok((key, end)) => if end == "" then Ok((h, port, key)) else Error
  }

  /** Whether `s` ends in "/" and `n` more characters. */
  predicate SlashBefore(s: string, n: nat) {
    |s| > n && s[|s| - n - 1] == '/'
  }

  function ParseUnix(s: string, curve: bool): Result<(string, seq<byte>)> {
    if !curve then Ok((s, []))
    else
      var long := if s != "" && s[|s| - 1] == '=' then 44 else 43;
      if SlashBefore(s, 64) && IsHex(s[|s| - 64..]) then Ok((s[..|s| - 65], DecodeHex(s[|s| - 64..])))
      else if SlashBefore(s, 52) && IsBase32z(s[|s| - 52..]) then Ok((s[..|s| - 53], DecodeBase32z(s[|s| - 52..])))
      else if SlashBefore(s, long) && IsBase64(s[|s| - long..]) then Ok((s[..|s| - long - 1], DecodeBase64(s[|s| - long..])))
      else Error
  }

  function Protocol(scheme: string): Result<(Proto, bool)> {
    if scheme == "tcp" then Ok((Tcp, false))
    else if scheme == "tcp+curve" || scheme == "curve" then Ok((TcpCurve, false))
    else if scheme == "ipc" then Ok((Ipc, false))
    else if scheme == "ipc+curve" then Ok((IpcCurve, false))
    else if scheme == "TCP" then Ok((Tcp, true))
    else if scheme == "CURVE" then Ok((TcpCurve, true))
    else Error
  }

  predicate AllQr(s: string) {
    forall i | 0 <= i < |s| :: QrChar(s[i])
  }

  function ParseRest(protocol: Proto, qr: bool, s: string): Result<Address>
    requires s != ""
  {
    if qr && !AllQr(s) then Error
    else if IsTcp(protocol) then
      match ParseTcp(s, qr, IsCurve(protocol))
      case Error => Error
      case Ok((host, port, key)) => Ok(Address(protocol, host, port, "", key))
    else
      match ParseUnix(s, IsCurve(protocol))
      case Error => Error
      case Ok((socket, key)) => Ok(Address(protocol, "", 0, socket, key))
  }

  function ParseAddress(s: string): Result<Address> {
    var n := FindScheme(s);
    if n == |s| || n == 0 || n + 3 == |s| then Error
    else
      match Protocol(s[..n])
      case Error => Error
      case Ok((protocol, qr)) => ParseRest(protocol, qr, s[n + 3..])
  }
}
