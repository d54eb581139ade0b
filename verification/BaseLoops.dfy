/** The encode, check and decode loops of base32z and base64, against what `BaseCodecs` says they compute. */
module BaseLoops {
  import opened BitPacking
  import opened BaseCodecs

  lemma EncodedNext(w: nat, b: seq<byte>, i: nat)
    requires Width(w) && i < |b|
    ensures Encoded(w, b[..i + 1]) == Feed(w, Encoded(w, b[..i]), b[i])
    ensures EncoderOk(w, Encoded(w, b[..i]))
  {
    hide Feed, EncoderOk;
    assert b[..i + 1][..i] == b[..i];
    EncoderBounded(w, b[..i]);
  }

  method ToBase32z(b: seq<byte>) returns (s: string)
    ensures s == EncodeBase32z(b)
  {
    hide Shift, Up, High, Low, To32, Encoded;
    var bits: nat, r: nat := 0, 0;
    s := "";
    ghost var ds: seq<nat> := [];
    EmptyCodes();
    assert b[..0] == [];
    for i := 0 to |b|
      invariant Encoder(r, bits, ds) == Encoded(5, b[..i]) && bits < 5 && s == Text32(ds)
    {
      EncodedNext(5, b, i);
      r := Up(r, 8) + b[i];
      bits := bits + 3;
      ds, s := ds + [High(r, bits)], s + [To32(High(r, bits))];
      r := Low(r, bits);
      if bits >= 5 {
        bits := bits - 5;
        ds, s := ds + [High(r, bits)], s + [To32(High(r, bits))];
        r := Low(r, bits);
      }
    }
    assert b[..|b|] == b;
    if bits > 0 {
      s := s + [To32(Up(r, 5 - bits))];
    }
  }

  lemma EmptyCodes()
    ensures forall w | Width(w) :: Encoded(w, []) == Encoder(0, 0, [])
  {
  }

  method ToBase64(b: seq<byte>) returns (s: string)
    ensures s == EncodeBase64(b)
  {
    hide Shift, Up, High, Low, To64, Encoded;
    var bits: nat, r: nat := 0, 0;
    s := "";
    ghost var ds: seq<nat> := [];
    EmptyCodes();
    assert b[..0] == [];
    for i := 0 to |b|
      invariant Encoder(r, bits, ds) == Encoded(6, b[..i]) && bits in {0, 2, 4} && s == Text64(ds)
    {
      EncodedNext(6, b, i);
      r := Up(r, 8) + b[i];
      bits := bits + 2;
      ds, s := ds + [High(r, bits)], s + [To64(High(r, bits))];
      r := Low(r, bits);
      if bits == 6 {
        bits := 0;
        NoShift(r);
        ds, s := ds + [r], s + [To64(r)];
        r := 0;
      }
    }
    assert b[..|b|] == b;
    LeftOver(b);
    if bits == 2 {
      s := s + [To64(Up(r, 4))];
      s := s + ['='];
      s := s + ['='];
    } else if bits == 4 {
      s := s + [To64(Up(r, 2))];
      s := s + ['='];
    }
  }

  /** What is left in the register says how many bytes the last group has. */
  lemma LeftOver(b: seq<byte>)
    ensures Encoded(6, b).bits == 2 * (|b| % 3)
  {
    hide Encoded;
    EncoderBounded(6, b);
    var e := Encoded(6, b);
    assert |e.out| * 6 + e.bits == 8 * |b| && e.bits < 6;
  }

  method CheckBase32z(s: string) returns (ok: bool)
    ensures ok == IsBase32z(s)
  {
    hide From32;
    for i := 0 to |s|
      invariant forall j | 0 <= j < i :: Digit32(s[j])
    {
      if From32(s[i]) == 0 && !(s[i] == 'y' || s[i] == 'Y') {
        return false;
      }
    }
    return true;
  }

  method CheckBase64(s: string) returns (ok: bool)
    ensures ok == IsBase64(s)
  {
    hide From64;
    var end := |s|;
    if end != 0 && end % 4 == 0 {
      var last := end - 1;
      if s[last] == '=' {
        end := last;
        last := last - 1;
      }
      if s[last] == '=' {
        end := last;
      }
    }
    assert end == Body64(s);
    for i := 0 to end
      invariant forall j | 0 <= j < i :: Digit64(s[j])
    {
      if From64(s[i]) == 0 && s[i] != 'A' {
        return false;
      }
    }
    return true;
  }

  method FromBase32z(s: string) returns (b: seq<byte>)
    ensures b == DecodeBase32z(s)
  {
    hide Shift, Up, High, Low, From32, Absorbed;
    var curr: nat, bits: nat := 0, 0;
    b := [];
    ghost var start := Decoder(0, 0, []);
    AbsorbedNone(5, start);
    assert Values32(s[..0]) == [];
    for i := 0 to |s|
      invariant Decoder(curr, bits, b) == Absorbed(5, start, Values32(s[..i]))
    {
      assert Values32(s[..i + 1]) == Values32(s[..i]) + [From32(s[i])];
      AbsorbedStep(5, start, Values32(s[..i]), From32(s[i]));
      curr := Up(curr, 5) + From32(s[i]);
      if bits >= 3 {
        bits := bits - 3;
        b := b + [High(curr, bits) % 256];
        curr := Low(curr, bits);
      } else {
        bits := bits + 5;
      }
    }
    assert s[..|s|] == s;
  }

  lemma AbsorbedNone(w: nat, d: Decoder)
    requires Width(w)
    ensures Absorbed(w, d, []) == d
  {
  }

  method FromBase64(s: string) returns (b: seq<byte>)
    ensures b == DecodeBase64(s)
  {
    hide Shift, Up, High, Low, From64, Absorbed;
    var curr: nat, bits: nat := 0, 0;
    b := [];
    ghost var start := Decoder(0, 0, []);
    AbsorbedNone(6, start);
    assert Values64(Unpadded(s[..0])) == [];
    for i := 0 to |s|
      invariant Decoder(curr, bits, b) == Absorbed(6, start, Values64(Unpadded(s[..i]))) && bits in {0, 2, 4, 6}
    {
      var c := s[i];
      ghost var seen := Unpadded(s[..i]);
      assert s[..i + 1][..i] == s[..i];
      if c == '=' {
        continue;
      }
      assert Values64(seen + [c]) == Values64(seen) + [From64(c)];
      AbsorbedStep(6, start, Values64(seen), From64(c));
      curr := Up(curr, 6) + From64(c);
      if bits == 0 {
        bits := 6;
      } else {
        bits := bits - 2;
        b := b + [High(curr, bits) % 256];
        curr := Low(curr, bits);
      }
    }
    assert s[..|s|] == s;
  }

  // ----- hexadecimal: a byte is two digits -----

  lemma HexFeed(e: Encoder, x: byte)
    requires e.bits == 0 && e.r == 0
    ensures Feed(4, e, x) == Encoder(0, 0, e.out + [x / 16, x % 16])
  {
    assert Shift(4) == 16;
    ByteShift(0);
    NoShift(x % 16);
    assert e.out + [x / 16] + [x % 16] == e.out + [x / 16, x % 16];
  }

  lemma HexPair(d: Decoder, a: nat, b: nat)
    requires d.bits == 0 && d.curr == 0 && a < 16 && b < 16
    ensures Absorb(4, Absorb(4, d, a), b) == Decoder(0, 0, d.out + [a * 16 + b])
  {
    assert Shift(4) == 16;
    NoShift(a * 16 + b);
  }

  method ToHexText(b: seq<byte>) returns (s: string)
    ensures s == EncodeHex(b)
  {
    hide Shift, ToHex, Encoded, Feed;
    s := "";
    ghost var ds: seq<nat> := [];
    EmptyCodes();
    assert b[..0] == [];
    for i := 0 to |b|
      invariant Encoder(0, 0, ds) == Encoded(4, b[..i]) && s == TextHex(ds)
    {
      EncodedNext(4, b, i);
      HexFeed(Encoder(0, 0, ds), b[i]);
      ds := ds + [b[i] / 16, b[i] % 16];
      s := s + [ToHex(b[i] / 16)];
      s := s + [ToHex(b[i] % 16)];
    }
    assert b[..|b|] == b;
  }

  method CheckHex(s: string) returns (ok: bool)
    ensures ok == IsHex(s)
  {
    hide FromHex;
    if |s| % 2 != 0 {
      return false;
    }
    for i := 0 to |s|
      invariant forall j | 0 <= j < i :: HexDigit(s[j])
    {
      if FromHex(s[i]) == 0 && s[i] != '0' {
        return false;
      }
    }
    return true;
  }

  method FromHexText(s: string) returns (b: seq<byte>)
    requires IsHex(s)
    ensures b == DecodeHex(s)
  {
    hide Shift, FromHex, Absorbed, Absorb;
    var i := 0;
    b := [];
    ghost var start := Decoder(0, 0, []);
    AbsorbedNone(4, start);
    assert ValuesHex(s[..0]) == [];
    while i < |s|
      invariant i <= |s| && i % 2 == 0
      invariant Decoder(0, 0, b) == Absorbed(4, start, ValuesHex(s[..i]))
    {
      var one, two := FromHex(s[i]), FromHex(s[i + 1]);
      ghost var seen := ValuesHex(s[..i]);
      assert ValuesHex(s[..i + 2]) == seen + [one] + [two];
      AbsorbedStep(4, start, seen, one);
      AbsorbedStep(4, start, seen + [one], two);
      HexPair(Decoder(0, 0, b), one, two);
      b := b + [one * 16 + two];
      i := i + 2;
    }
    assert s[..|s|] == s;
  }
}
