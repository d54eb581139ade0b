/** Decimal numbers: exactly which digit strings the wrapping digit loop reads correctly. */
module BencodeNumbers {
  import opened BencodeModel

  predicate AllDigits(s: string) {
    forall i | 0 <= i < |s| :: IsDigit(s[i])
  }

  /** `s` cannot continue a run of digits. */
  predicate NoDigitNext(s: string) {
    s != "" ==> !IsDigit(s[0])
  }

  /** The number that `acc` followed by the digits of `s` denotes. */
  function Decimal(s: string, acc: nat): nat
    requires AllDigits(s)
  {
    if s == "" then acc else Decimal(s[1..], acc * 10 + DigitValue(s[0]))
  }

  lemma {:induction false} DecimalAtLeast(s: string, acc: nat)
    requires AllDigits(s)
    ensures Decimal(s, acc) >= acc
    decreases |s|
  {
    if s != "" {
      DecimalAtLeast(s[1..], acc * 10 + DigitValue(s[0]));
    }
  }

  lemma {:induction false} DecimalConcat(a: string, b: string, acc: nat)
    requires AllDigits(a) && AllDigits(b)
    ensures AllDigits(a + b) && Decimal(a + b, acc) == Decimal(b, Decimal(a, acc))
    decreases |a|
  {
    if a == "" {
      assert a + b == b;
    } else {
      assert (a + b)[1..] == a[1..] + b && (a + b)[0] == a[0];
      DecimalConcat(a[1..], b, acc * 10 + DigitValue(a[0]));
    }
  }

  lemma WrapFits(n: nat)
    requires n < TWO64
    ensures Wrap(n) == n
  {
  }

  /** Reading continues from the value of the digits read so far, while that value fits. */
  lemma {:induction false} AccumulateStep(s: string, r: string, acc: nat)
    requires AllDigits(s) && Decimal(s, acc) < TWO64
    ensures acc < TWO64 && Accumulate(s + r, acc) == Accumulate(r, Decimal(s, acc))
    decreases |s|
  {
    hide Wrap;
    DecimalAtLeast(s, acc);
    if s == "" {
      assert s + r == r;
    } else {
      var next := acc * 10 + DigitValue(s[0]);
      DecimalAtLeast(s[1..], next);
      WrapFits(next);
      assert (s + r)[1..] == s[1..] + r && (s + r)[0] == s[0];
      AccumulateStep(s[1..], r, next);
    }
  }

  function Pow10(n: nat): nat {
    if n == 0 then 1 else 10 * Pow10(n - 1)
  }

  lemma {:induction false} DecimalShift(s: string, acc: nat, k: nat)
    requires AllDigits(s)
    ensures Decimal(s, acc + k * TWO64) == Decimal(s, acc) + k * Pow10(|s|) * TWO64
    decreases |s|
  {
    if s != "" {
      var d := DigitValue(s[0]);
      DecimalShift(s[1..], acc * 10 + d, 10 * k);
      calc {
        (10 * k) * Pow10(|s| - 1) * TWO64;
        k * (10 * Pow10(|s| - 1)) * TWO64;
      }
    }
  }

  /** What is accepted is the number modulo 2^64. */
  lemma {:induction false} AccumulateModulo(s: string, r: string, acc: nat)
    requires AllDigits(s) && NoDigitNext(r) && acc < TWO64
    requires Accumulate(s + r, acc).Ok?
    ensures Accumulate(s + r, acc).rest == r
    ensures Accumulate(s + r, acc).value == Wrap(Decimal(s, acc))
    decreases |s|
  {
    hide Wrap;
    if s == "" {
      assert s + r == r;
      WrapFits(acc);
    } else {
      var next := acc * 10 + DigitValue(s[0]);
      assert (s + r)[1..] == s[1..] + r && (s + r)[0] == s[0];
      AccumulateModulo(s[1..], r, Wrap(next));
      WrapDecimal(s[1..], next);
    }
  }

  lemma WrapDecimal(s: string, acc: nat)
    requires AllDigits(s)
    ensures Wrap(Decimal(s, Wrap(acc))) == Wrap(Decimal(s, acc))
  {
    hide Wrap, Decimal;
    var k := WrapSplit(acc);
    DecimalShift(s, Wrap(acc), k);
    WrapShift(Decimal(s, Wrap(acc)), k * Pow10(|s|));
  }

  lemma WrapSplit(n: nat) returns (k: nat)
    ensures n == Wrap(n) + k * TWO64
  {
    k := n / TWO64;
  }

  lemma WrapShift(a: nat, m: nat)
    ensures Wrap(a + m * TWO64) == Wrap(a)
  {
  }

  /** A digit string is read as the number it denotes if and only if that number fits into 64 bits. */
  lemma ReadsExactlyWhenItFits(s: string, r: string)
    requires s != "" && AllDigits(s) && NoDigitNext(r)
    ensures ExtractUnsigned(s + r) == Ok(Decimal(s, 0), r) <==> Decimal(s, 0) < TWO64
  {
    var d := DigitValue(s[0]);
    assert (s + r)[0] == s[0] && (s + r)[1..] == s[1..] + r;
    assert Decimal(s, 0) == Decimal(s[1..], d);
    if Decimal(s, 0) < TWO64 {
      AccumulateStep(s[1..], r, d);
    }
  }

  /** And whatever is accepted is that number modulo 2^64. */
  lemma ReadsModulo(s: string, r: string)
    requires s != "" && AllDigits(s) && NoDigitNext(r) && ExtractUnsigned(s + r).Ok?
    ensures ExtractUnsigned(s + r) == Ok(Wrap(Decimal(s, 0)), r)
  {
    var d := DigitValue(s[0]);
    assert (s + r)[0] == s[0] && (s + r)[1..] == s[1..] + r;
    assert Decimal(s, 0) == Decimal(s[1..], d);
    AccumulateModulo(s[1..], r, d);
  }

  /** The first `k` digits as a number modulo 2^64. */
  function Residue(s: string, k: nat): nat
    requires AllDigits(s) && k <= |s|
  {
    Wrap(Decimal(s[..k], 0))
  }

  /** A digit string is accepted if and only if the residues of its ever longer beginnings never decrease. */
  predicate NeverShrinks(s: string, k: nat)
    requires AllDigits(s)
  {
    forall j | k <= j < |s| :: Residue(s, j) <= Residue(s, j + 1)
  }

  lemma ResidueNext(s: string, k: nat)
    requires AllDigits(s) && k < |s|
    ensures Residue(s, k) < TWO64 && Residue(s, k + 1) == Wrap(Residue(s, k) * 10 + DigitValue(s[k]))
  {
    var a := Decimal(s[..k], 0);
    assert s[..k + 1] == s[..k] + [s[k]];
    DecimalConcat(s[..k], [s[k]], 0);
    assert [s[k]][1..] == "";
    WrapDecimal([s[k]], a);
  }

  lemma {:induction false} AccumulateAccepts(s: string, r: string, k: nat)
    requires AllDigits(s) && NoDigitNext(r) && k <= |s| && Residue(s, k) < TWO64
    ensures Accumulate(s[k..] + r, Residue(s, k)).Ok? <==> NeverShrinks(s, k)
    decreases |s| - k
  {
    hide Residue, Wrap;
    if k == |s| {
      assert s[k..] + r == r;
    } else {
      assert (s[k..] + r)[0] == s[k] && (s[k..] + r)[1..] == s[k + 1..] + r;
      ResidueNext(s, k);
      if Residue(s, k) <= Residue(s, k + 1) {
        ResidueBounded(s, k + 1);
        AccumulateAccepts(s, r, k + 1);
      }
    }
  }

  lemma ResidueBounded(s: string, k: nat)
    requires AllDigits(s) && k <= |s|
    ensures Residue(s, k) < TWO64
  {
  }

  /** So the wrapping test accepts some numbers that do not fit, and exactly these. */
  lemma AcceptedExactly(s: string, r: string)
    requires s != "" && AllDigits(s) && NoDigitNext(r)
    ensures ExtractUnsigned(s + r) == if NeverShrinks(s, 1) then Ok(Wrap(Decimal(s, 0)), r) else Invalid
  {
    assert (s + r)[0] == s[0] && (s + r)[1..] == s[1..] + r;
    assert Residue(s, 1) == DigitValue(s[0]) by {
      assert s[..1] == [s[0]] && [s[0]][1..] == "";
      assert Decimal([s[0]], 0) == DigitValue(s[0]);
      WrapFits(DigitValue(s[0]));
    }
    AccumulateAccepts(s, r, 1);
    hide Residue, Wrap;
    if NeverShrinks(s, 1) { ReadsModulo(s, r); }
  }

  /** An oversized number that the wrap test lets through, read as a different number. */
  lemma OversizedAccepted()
    ensures ExtractUnsigned(PrintNat(30_000_000_000_000_000_000) + "e") == Ok(11_553_255_926_290_448_384, "e")
  {
    hide PrintNat, ExtractUnsigned;
    var n: nat := 3_000_000_000_000_000_000;
    var p := PrintNat(n);
    PrintNatDigits(n);
    LastDigit(n);
    assert p + "0" + "e" == p + "0e";
    ExtractStep(p, "0e");
    assert "0e"[1..] == "e";
    OneMoreZero(n);
  }

  lemma LastDigit(n: nat)
    requires n == 3_000_000_000_000_000_000
    ensures PrintNat(10 * n) == PrintNat(n) + "0"
  {
    assert (10 * n) / 10 == n && (10 * n) % 10 == 0;
  }

  lemma ExtractStep(s: string, r: string)
    requires s != "" && AllDigits(s) && Decimal(s, 0) < TWO64
    ensures ExtractUnsigned(s + r) == Accumulate(r, Decimal(s, 0))
  {
    assert (s + r)[0] == s[0] && (s + r)[1..] == s[1..] + r;
    assert Decimal(s, 0) == Decimal(s[1..], DigitValue(s[0]));
    AccumulateStep(s[1..], r, DigitValue(s[0]));
  }

  lemma OneMoreZero(n: nat)
    requires n == 3_000_000_000_000_000_000
    ensures Accumulate("0e", n) == Ok(11_553_255_926_290_448_384, "e")
  {
    assert Wrap(10 * n) == 11_553_255_926_290_448_384;
    assert "0e"[1..] == "e";
  }

  // ----- printing and reading back -----

  lemma {:induction false} PrintNatDigits(n: nat)
    ensures PrintNat(n) != "" && AllDigits(PrintNat(n)) && Decimal(PrintNat(n), 0) == n
  {
    if n < 10 {
      assert [Digit(n)][1..] == "";
    } else {
      PrintNatDigits(n / 10);
      var last := [Digit(n % 10)];
      assert last[1..] == "";
      DecimalConcat(PrintNat(n / 10), last, 0);
      assert Decimal(last, n / 10) == (n / 10) * 10 + n % 10;
    }
  }

  lemma ExtractPrinted(n: nat, r: string)
    requires n < TWO64 && NoDigitNext(r)
    ensures ExtractUnsigned(PrintNat(n) + r) == Ok(n, r)
  {
    hide PrintNat, ExtractUnsigned, Decimal;
    PrintNatDigits(n);
    ReadsExactlyWhenItFits(PrintNat(n), r);
  }

  lemma ParseStringPrinted(s: string, r: string)
    requires |s| < TWO64
    ensures ParseString(PrintString(s) + r) == Ok(s, r)
  {
    var n := PrintNat(|s|);
    PrintNatDigits(|s|);
    var t := n + (":" + s + r);
    assert PrintString(s) + r == t;
    assert (":" + s + r)[0] == ':';
    ExtractPrinted(|s|, ":" + s + r);
    assert t[0] == n[0];
    assert (":" + s + r)[1..1 + |s|] == s && (":" + s + r)[1 + |s|..] == r;
  }

  lemma ParseIntegerPrinted(n: int, r: string)
    requires -TWO63 <= n < TWO64
    ensures ParseInteger("i" + PrintInt(n) + "e" + r) == Ok(Magnitude(if n < 0 then -n else n, n < 0), r)
  {
    var m := if n < 0 then -n else n;
    var t := "i" + PrintInt(n) + "e" + r;
    IntegerShape(n, r);
    ExtractPrinted(m, "e" + r);
    hide PrintNat, PrintInt, ExtractUnsigned, Decimal;
    assert ("e" + r)[1..] == r;
  }

  lemma IntegerShape(n: int, r: string)
    ensures var t := "i" + PrintInt(n) + "e" + r;
            && |t| >= 3 && t[0] == 'i' && (t[1] == '-' <==> n < 0)
            && (if n < 0 then t[2..] == PrintNat(-n) + ("e" + r) else t[1..] == PrintNat(n) + ("e" + r))
  {
    var m := if n < 0 then -n else n;
    PrintNatDigits(m);
    FrontOf(PrintNat(m), r);
    hide PrintNat, Decimal, AllDigits;
    assert n < 0 ==> "i" + ("-" + PrintNat(m)) + "e" + r == "i-" + PrintNat(m) + "e" + r;
  }

  lemma FrontOf(p: string, r: string)
    requires p != "" && AllDigits(p)
    ensures var t := "i-" + p + "e" + r; |t| >= 4 && t[0] == 'i' && t[1] == '-' && t[2..] == p + ("e" + r)
    ensures var t := "i" + p + "e" + r; |t| >= 3 && t[0] == 'i' && t[1] != '-' && t[1..] == p + ("e" + r)
  {
    assert ("i" + p + "e" + r)[1] == p[0];
  }
}
