/**
 The shift registers behind hex, base32z and base64: bytes go in eight bits at a time and digits of
 `w` bits (4, 5 or 6) come out, and the other way round.
 */
module BitPacking {

  type byte = x: nat | x < 256

  predicate Width(w: nat) {
    w == 4 || w == 5 || w == 6
  }

  // ----- shifts and masks -----

  /** 1 << n. */
  function Shift(n: nat): (p: nat)
    ensures p > 0
  {
    if n == 0 then 1 else 2 * Shift(n - 1)
  }

  /** x << n. */
  function Up(x: nat, n: nat): nat {
    x * Shift(n)
  }

  function Quotient(x: nat, p: nat): nat
    requires p > 0
  {
    x / p
  }

  /** x >> n. */
  function High(x: nat, n: nat): nat {
    Quotient(x, Shift(n))
  }

  /** x & ((1 << n) - 1). */
  function Low(x: nat, n: nat): nat {
    x % Shift(n)
  }

  lemma {:induction false} ShiftAdd(a: nat, b: nat)
    ensures Shift(a + b) == Shift(a) * Shift(b)
  {
    if a > 0 { ShiftAdd(a - 1, b); }
  }

  lemma ByteShift(x: nat)
    ensures Shift(8) == 256 && Up(x, 8) == x * 256
  {
    assert Shift(4) == 16;
    ShiftAdd(4, 4);
  }

  lemma NoShift(x: nat)
    ensures Shift(0) == 1 && Up(x, 0) == x && High(x, 0) == x && Low(x, 0) == 0
  {
  }

  lemma {:induction false} ShiftGrows(a: nat, b: nat)
    requires a <= b
    ensures Shift(a) <= Shift(b)
  {
    if a < b { ShiftGrows(a, b - 1); }
  }

  lemma UpUp(x: nat, a: nat, b: nat)
    ensures Up(Up(x, a), b) == Up(x, a + b)
  {
    hide Shift;
    ShiftAdd(a, b);
    Regroup(x, Shift(a), Shift(b));
  }

  lemma Regroup(x: nat, p: nat, q: nat)
    ensures x * p * q == x * (p * q)
  {
  }

  lemma UpSum(x: nat, y: nat, n: nat)
    ensures Up(x + y, n) == Up(x, n) + Up(y, n)
  {
    hide Shift;
  }

  lemma Cut(x: nat, n: nat)
    ensures x == Up(High(x, n), n) + Low(x, n) && Low(x, n) < Shift(n)
  {
    hide Shift;
  }

  /** A register is its top and its bottom, in one way only. */
  lemma Split(x: nat, hi: nat, lo: nat, n: nat)
    requires x == Up(hi, n) + lo && lo < Shift(n)
    ensures High(x, n) == hi && Low(x, n) == lo
  {
    hide Shift;
    OneQuotient(x, hi, lo, Shift(n));
  }

  lemma MulOrder(a: nat, b: nat, p: nat)
    ensures a < b || b * p <= a * p
  {
  }

  lemma OneQuotient(x: nat, hi: nat, lo: nat, p: nat)
    requires lo < p && x == hi * p + lo
    ensures x / p == hi && x % p == lo
  {
    MulOrder(hi, x / p + 1, p);
    MulOrder(x / p, hi + 1, p);
  }

  /** `b` bits behind `a` bits are `a + b` bits. */
  lemma Fits(x: nat, a: nat, v: nat, b: nat)
    requires x < Shift(a) && v < Shift(b)
    ensures Up(x, b) + v < Shift(a + b)
  {
    hide Shift;
    ShiftAdd(a, b);
    Behind(x, Shift(a), v, Shift(b));
  }

  lemma Behind(x: nat, p: nat, v: nat, q: nat)
    requires x < p && v < q
    ensures x * q + v < p * q
  {
    assert x * q + v < (x + 1) * q <= p * q;
  }

  lemma TopFits(x: nat, a: nat, b: nat)
    requires x < Shift(a + b)
    ensures High(x, a) < Shift(b)
  {
    hide Shift;
    ShiftAdd(a, b);
    Below(x, Shift(a), Shift(b));
  }

  lemma Below(x: nat, p: nat, q: nat)
    requires p > 0 && x < p * q
    ensures x / p < q
  {
    MulOrder(x / p, q, p);
  }

  // ----- encoding -----

  datatype Encoder = Encoder(r: nat, bits: nat, out: seq<nat>)

  /** Emits the register's top digit, leaving `bits` unconsumed. */
  function Emit(e: Encoder): Encoder {
    Encoder(Low(e.r, e.bits), e.bits, e.out + [High(e.r, e.bits)])
  }

  /** Eight more bits, and one digit out. */
  function Load(w: nat, e: Encoder, x: byte): Encoder
    requires Width(w)
  {
    Emit(Encoder(Up(e.r, 8) + x, e.bits + 8 - w, e.out))
  }

  /** A second digit if there is one. */
  function Drop(w: nat, f: Encoder): Encoder {
    if f.bits >= w then Emit(f.(bits := f.bits - w)) else f
  }

  function Feed(w: nat, e: Encoder, x: byte): Encoder
    requires Width(w)
  {
    Drop(w, Load(w, e, x))
  }

  function Encoded(w: nat, b: seq<byte>): Encoder
    requires Width(w)
  {
    if b == [] then Encoder(0, 0, []) else Feed(w, Encoded(w, b[..|b| - 1]), b[|b| - 1])
  }

  /** The last digit, right-filled with zeroes. */
  function Flush(w: nat, e: Encoder): seq<nat>
    requires e.bits < w
  {
    if e.bits > 0 then e.out + [Up(e.r, w - e.bits)] else e.out
  }

  function Pack(w: nat, b: seq<byte>): seq<nat>
    requires Width(w)
  {
    EncoderBounded(w, b);
    Flush(w, Encoded(w, b))
  }

  // ----- decoding -----

  datatype Decoder = Decoder(curr: nat, bits: nat, out: seq<byte>)

  function Absorb(w: nat, d: Decoder, v: nat): Decoder
    requires Width(w)
  {
    var c := Up(d.curr, w) + v;
    if d.bits >= 8 - w then
      var k := d.bits - (8 - w);
      Decoder(Low(c, k), k, d.out + [High(c, k) % 256])
    else Decoder(c, d.bits + w, d.out)
  }

  function Absorbed(w: nat, d: Decoder, digits: seq<nat>): Decoder
    requires Width(w)
  {
    if digits == [] then d else Absorb(w, Absorbed(w, d, digits[..|digits| - 1]), digits[|digits| - 1])
  }

  function Unpack(w: nat, digits: seq<nat>): seq<byte>
    requires Width(w)
  {
    Absorbed(w, Decoder(0, 0, []), digits).out
  }

  // ----- the register never holds more bits than its counter says -----

  predicate Digits(w: nat, s: seq<nat>) {
    forall i | 0 <= i < |s| :: s[i] < Shift(w)
  }

  /** The counter values that occur, and a register that fits them. */
  predicate EncoderOk(w: nat, e: Encoder) {
    && e.bits < w && e.r < Shift(e.bits) && Digits(w, e.out)
    && (w == 6 ==> e.bits % 2 == 0) && (w == 4 ==> e.bits == 0)
  }

  predicate DecoderOk(w: nat, d: Decoder) {
    && d.bits < 8 && d.curr < Shift(d.bits)
    && (w == 6 ==> d.bits % 2 == 0) && (w == 4 ==> d.bits % 4 == 0)
  }

  lemma EmitBounded(w: nat, g: Encoder)
    requires Width(w) && g.r < Shift(g.bits + w) && Digits(w, g.out)
    ensures Emit(g).r < Shift(g.bits) && Digits(w, Emit(g).out)
  {
    hide Shift, High, Low, Up;
    Cut(g.r, g.bits);
    TopFits(g.r, g.bits, w);
  }

  /** Sixteen bits are enough for the register at its fullest. */
  lemma LoadBounded(w: nat, e: Encoder, x: byte)
    requires Width(w) && EncoderOk(w, e)
    ensures Up(e.r, 8) + x < Shift(16)
    ensures Load(w, e, x).r < Shift(Load(w, e, x).bits) && Digits(w, Load(w, e, x).out)
  {
    hide Shift, High, Low, Up, Digits, Emit;
    ByteShift(0);
    Fits(e.r, e.bits, x, 8);
    ShiftGrows(e.bits + 8, 16);
    EmitBounded(w, Encoder(Up(e.r, 8) + x, e.bits + 8 - w, e.out));
    assert Load(w, e, x).bits == e.bits + 8 - w by { EmitBits(Encoder(Up(e.r, 8) + x, e.bits + 8 - w, e.out)); }
  }

  lemma EmitBits(g: Encoder)
    ensures Emit(g).bits == g.bits && |Emit(g).out| == |g.out| + 1
  {
    hide Shift, High, Low;
  }

  lemma FeedBounded(w: nat, e: Encoder, x: byte)
    requires Width(w) && EncoderOk(w, e)
    ensures EncoderOk(w, Feed(w, e, x))
    ensures |Feed(w, e, x).out| * w + Feed(w, e, x).bits == |e.out| * w + e.bits + 8
  {
    hide Shift, High, Low, Up, Digits, Emit;
    LoadBounded(w, e, x);
    EmitBits(Encoder(Up(e.r, 8) + x, e.bits + 8 - w, e.out));
    var f := Load(w, e, x);
    if f.bits >= w {
      EmitBounded(w, f.(bits := f.bits - w));
      EmitBits(f.(bits := f.bits - w));
    }
  }

  lemma {:induction false} EncoderBounded(w: nat, b: seq<byte>)
    requires Width(w)
    ensures EncoderOk(w, Encoded(w, b))
    ensures |Encoded(w, b).out| * w + Encoded(w, b).bits == 8 * |b|
  {
    if b != [] {
      hide Feed, EncoderOk;
      EncoderBounded(w, b[..|b| - 1]);
      FeedBounded(w, Encoded(w, b[..|b| - 1]), b[|b| - 1]);
    } else {
      assert EncoderOk(w, Encoder(0, 0, []));
    }
  }

  lemma PackLength(w: nat, b: seq<byte>)
    requires Width(w)
    ensures |Pack(w, b)| == (8 * |b| + w - 1) / w && Digits(w, Pack(w, b))
  {
    EncoderBounded(w, b);
    NoShift(0);
    hide Shift, Encoded, Up;
    var e := Encoded(w, b);
    if e.bits > 0 {
      assert Shift(w - e.bits) > 0;
      Fits(e.r, e.bits, 0, w - e.bits);
      OneQuotient(8 * |b| + w - 1, |e.out| + 1, e.bits - 1, w);
    } else {
      OneQuotient(8 * |b| + w - 1, |e.out|, w - 1, w);
    }
  }

  lemma AbsorbBounded(w: nat, d: Decoder, v: nat)
    requires Width(w) && DecoderOk(w, d) && v < Shift(w)
    ensures DecoderOk(w, Absorb(w, d, v)) && Up(d.curr, w) + v < Shift(16)
    ensures 8 * |Absorb(w, d, v).out| + Absorb(w, d, v).bits == 8 * |d.out| + d.bits + w
  {
    hide Shift, High, Low, Up;
    var c := Up(d.curr, w) + v;
    Fits(d.curr, d.bits, v, w);
    ShiftGrows(d.bits + w, 16);
    if d.bits >= 8 - w { Cut(c, d.bits - (8 - w)); }
  }

  /** The same along a whole decoding of any digits, with every bit accounted for. */
  lemma {:induction false} DecoderBounded(w: nat, digits: seq<nat>)
    requires Width(w) && Digits(w, digits)
    ensures var d := Absorbed(w, Decoder(0, 0, []), digits);
            DecoderOk(w, d) && 8 * |d.out| + d.bits == w * |digits|
  {
    var start, n := Decoder(0, 0, []), |digits| - 1;
    if digits == [] {
      NoShift(0);
      hide Shift;
      assert DecoderOk(w, start);
    } else {
      hide DecoderOk, Absorb, Shift;
      DecoderBounded(w, digits[..n]);
      AbsorbBounded(w, Absorbed(w, start, digits[..n]), digits[n]);
    }
  }

  // ----- round trip -----

  /**
   After whole digits have passed from encoder to decoder, the decoder has every finished byte, and
   the two registers together hold the one that is split between them.
   */
  predicate InStep(b: seq<byte>, e: Encoder, d: Decoder) {
    if e.bits == 0 then e.r == 0 && d == Decoder(0, 0, b)
    else
      && e.bits < 8 && b != [] && d.bits == 8 - e.bits && d.out == b[..|b| - 1]
      && b[|b| - 1] == Up(d.curr, e.bits) + e.r
  }

  /** Cutting r:x at m, and the upper part again at j where m + j is a byte, leaves r on top. */
  lemma Thirds(r: nat, x: byte, m: nat, j: nat)
    requires m + j == 8
    ensures var digit := High(Up(r, 8) + x, m);
            digit == Up(r, j) + Low(digit, j) && x == Up(Low(digit, j), m) + Low(Up(r, 8) + x, m)
  {
    ByteShift(r);
    hide Shift, High, Low, Up;
    var hi, lo := High(x, m), Low(x, m);
    Cut(x, m);
    TopFits(x, m, j);
    UpUp(r, j, m);
    UpSum(Up(r, j), hi, m);
    Split(Up(r, 8) + x, Up(r, j) + hi, lo, m);
    Split(Up(r, j) + hi, r, hi, j);
  }

  lemma FirstDigit(w: nat, b: seq<byte>, e: Encoder, d: Decoder, x: byte)
    requires Width(w) && EncoderOk(w, e) && InStep(b, e, d)
    ensures var f := Load(w, e, x);
            f.out != [] && InStep(b + [x], f, Absorb(w, d, f.out[|f.out| - 1]))
  {
    assert Up(0, 8) == 0 && Up(0, w) == 0;
    hide Shift, High, Low, Up;
    var m := e.bits + 8 - w;
    assert (b + [x])[..|b|] == b;
    if e.bits > 0 {
      SharedByte(w, b, e, d, x);
    } else {
      Cut(x, m);
    }
  }

  /** The digit that finishes the shared byte and starts the next. */
  lemma SharedByte(w: nat, b: seq<byte>, e: Encoder, d: Decoder, x: byte)
    requires Width(w) && EncoderOk(w, e) && InStep(b, e, d) && e.bits > 0
    ensures var m := e.bits + 8 - w;
            var reg := Up(e.r, 8) + x;
            var next := Absorb(w, d, High(reg, m));
            next.bits == 8 - m && next.out == b && x == Up(next.curr, m) + Low(reg, m)
  {
    hide Shift, High, Low, Up;
    var m, y, j := e.bits + 8 - w, b[|b| - 1], w - e.bits;
    var digit := High(Up(e.r, 8) + x, m);
    var s := Low(digit, j);
    Thirds(e.r, x, m, j);
    Cut(digit, j);
    UpUp(d.curr, e.bits, j);
    UpSum(Up(d.curr, e.bits), e.r, j);
    Split(Up(d.curr, w) + digit, y, s, j);
    OneQuotient(y, 0, y, 256);
    assert b == b[..|b| - 1] + [y];
  }

  lemma SecondDigit(w: nat, b: seq<byte>, f: Encoder, d: Decoder)
    requires Width(w) && b != [] && w <= f.bits < 8 && InStep(b, f, d)
    ensures var g := Drop(w, f);
            g.out != [] && InStep(b, g, Absorb(w, d, g.out[|g.out| - 1]))
  {
    var y, k := b[|b| - 1], f.bits - w;
    var digit := High(f.r, k);
    NoShift(f.r);
    NoShift(y);
    hide Shift, High, Low, Up;
    Cut(f.r, k);
    UpUp(d.curr, w, k);
    UpSum(Up(d.curr, w), digit, k);
    assert b == b[..|b| - 1] + [y];
  }

  lemma LastDigit(w: nat, b: seq<byte>, e: Encoder, d: Decoder)
    requires Width(w) && 0 < e.bits < w && InStep(b, e, d)
    ensures Absorb(w, d, Up(e.r, w - e.bits)).out == b
  {
    hide Shift, High, Low, Up;
    var y, j := b[|b| - 1], w - e.bits;
    UpUp(d.curr, e.bits, j);
    UpSum(Up(d.curr, e.bits), e.r, j);
    Split(Up(d.curr, w) + Up(e.r, j), y, 0, j);
    assert b == b[..|b| - 1] + [y];
  }

  lemma AbsorbedStep(w: nat, d: Decoder, digits: seq<nat>, v: nat)
    requires Width(w)
    ensures Absorbed(w, d, digits + [v]) == Absorb(w, Absorbed(w, d, digits), v)
  {
    hide Absorb;
    assert (digits + [v])[..|digits|] == digits;
  }

  lemma FeedInStep(w: nat, b: seq<byte>, e: Encoder, x: byte, start: Decoder)
    requires Width(w) && EncoderOk(w, e) && InStep(b, e, Absorbed(w, start, e.out))
    ensures InStep(b + [x], Feed(w, e, x), Absorbed(w, start, Feed(w, e, x).out))
  {
    hide InStep, Absorb, Absorbed, Shift, Up, High, Low;
    var f := Load(w, e, x);
    FirstDigit(w, b, e, Absorbed(w, start, e.out), x);
    AbsorbedStep(w, start, e.out, f.out[|f.out| - 1]);
    if f.bits >= w {
      var g := Drop(w, f);
      SecondDigit(w, b + [x], f, Absorbed(w, start, f.out));
      AbsorbedStep(w, start, f.out, g.out[|g.out| - 1]);
    }
  }

  lemma {:induction false} KeepsInStep(w: nat, b: seq<byte>)
    requires Width(w)
    ensures InStep(b, Encoded(w, b), Absorbed(w, Decoder(0, 0, []), Encoded(w, b).out))
  {
    if b != [] {
      var n := |b| - 1;
      KeepsInStep(w, b[..n]);
      EncoderBounded(w, b[..n]);
      hide InStep, Absorbed, Feed, EncoderOk;
      FeedInStep(w, b[..n], Encoded(w, b[..n]), b[n], Decoder(0, 0, []));
      assert b[..n] + [b[n]] == b;
    }
  }

  /** Decoding what was encoded gives back every byte string. */
  lemma RoundTrip(w: nat, b: seq<byte>)
    requires Width(w)
    ensures Unpack(w, Pack(w, b)) == b
  {
    KeepsInStep(w, b);
    EncoderBounded(w, b);
    hide Encoded, Shift, Absorbed, Absorb, Up;
    var e, start := Encoded(w, b), Decoder(0, 0, []);
    if e.bits > 0 {
      AbsorbedStep(w, start, e.out, Up(e.r, w - e.bits));
      LastDigit(w, b, e, Absorbed(w, start, e.out));
    }
  }

  // ----- what the digits mean -----

  /** A sequence of `n`-bit digits read as one number, most significant first. */
  function Value(n: nat, s: seq<nat>): nat {
    if s == [] then 0 else Up(Value(n, s[..|s| - 1]), n) + s[|s| - 1]
  }

  lemma ValueStep(n: nat, s: seq<nat>, v: nat)
    ensures Value(n, s + [v]) == Up(Value(n, s), n) + v
  {
    hide Up;
    assert (s + [v])[..|s|] == s;
  }

  lemma EmitValue(w: nat, g: Encoder)
    ensures Up(Value(w, Emit(g).out), g.bits) + Emit(g).r == Up(Value(w, g.out), g.bits + w) + g.r
  {
    hide Up, High, Low, Value;
    var v, digit := Value(w, g.out), High(g.r, g.bits);
    Cut(g.r, g.bits);
    ValueStep(w, g.out, digit);
    UpSum(Up(v, w), digit, g.bits);
    UpUp(v, w, g.bits);
  }

  lemma FeedValue(w: nat, e: Encoder, x: byte)
    requires Width(w)
    ensures var f := Feed(w, e, x);
            Up(Value(w, f.out), f.bits) + f.r == Up(Up(Value(w, e.out), e.bits) + e.r, 8) + x
  {
    hide Up, Value, High, Low;
    UpUp(Value(w, e.out), e.bits, 8);
    UpSum(Up(Value(w, e.out), e.bits), e.r, 8);
    EmitValue(w, Encoder(Up(e.r, 8) + x, e.bits + 8 - w, e.out));
    var f := Load(w, e, x);
    if f.bits >= w { EmitValue(w, f.(bits := f.bits - w)); }
  }

  lemma {:induction false} EncodedValue(w: nat, b: seq<byte>)
    requires Width(w)
    ensures Up(Value(w, Encoded(w, b).out), Encoded(w, b).bits) + Encoded(w, b).r == Value(8, b)
  {
    hide Feed, Up;
    if b != [] {
      EncodedValue(w, b[..|b| - 1]);
      FeedValue(w, Encoded(w, b[..|b| - 1]), b[|b| - 1]);
    } else {
      NoShift(0);
    }
  }

  /** The digits spell the bytes' own number, padded with zero bits to a whole digit. */
  lemma PackValue(w: nat, b: seq<byte>)
    requires Width(w)
    ensures var digits := Pack(w, b);
            && w * |digits| >= 8 * |b|
            && Value(w, digits) == Up(Value(8, b), w * |digits| - 8 * |b|)
  {
    hide Up, Value, Encoded, Shift, Digits, High, Low;
    EncodedValue(w, b);
    EncoderBounded(w, b);
    var e := Encoded(w, b);
    NoShift(Value(8, b));
    FlushValue(w, e);
    if e.bits > 0 { Padding(w, |e.out|, e.bits, 8 * |b|); }
  }

  lemma Padding(w: nat, n: nat, bits: nat, total: nat)
    requires n * w + bits == total && bits < w
    ensures w * (n + 1) - total == w - bits
  {
  }

  lemma FlushValue(w: nat, e: Encoder)
    requires Width(w) && e.bits < w && (e.bits == 0 ==> e.r == 0)
    ensures Value(w, Flush(w, e)) == Up(Up(Value(w, e.out), e.bits) + e.r, if e.bits > 0 then w - e.bits else 0)
  {
    NoShift(Value(w, e.out));
    hide Up, Value;
    if e.bits > 0 {
      var j := w - e.bits;
      ValueStep(w, e.out, Up(e.r, j));
      UpUp(Value(w, e.out), e.bits, j);
      UpSum(Up(Value(w, e.out), e.bits), e.r, j);
    }
  }
}
