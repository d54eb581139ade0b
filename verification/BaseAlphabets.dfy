/** The alphabets spelled out, and which texts are valid. */
module BaseAlphabets {
  import opened BaseCodecs

  const HEX_DIGITS: string := "0123456789abcdef"

  /** The alphabet of z-base-32. */
  const Z_BASE_32: string := "ybndrfg8ejkmcpqxot1uwisza345h769"

  /** The alphabet of table 1 in section 4 of RFC 4648. */
  const RFC_4648: string := "ABCDEFGHIJKLM" + "NOPQRSTUVWXYZ" + "abcdefghijklm" + "nopqrstuvwxyz" + "0123456789+/"

  lemma LettersHex(d: nat)
    requires d < 16
    ensures |HEX_DIGITS| == 16 && ToHex(d) == HEX_DIGITS[d]
  {
  }

  lemma Letters32(d: nat)
    requires d < 32
    ensures |Z_BASE_32| == 32 && To32(d) == Z_BASE_32[d]
  {
  }

  lemma Letters64(d: nat)
    requires d < 64
    ensures |RFC_4648| == 64 && To64(d) == RFC_4648[d]
  {
    if d < 13 {
    } else if d < 26 {
    } else if d < 39 {
    } else if d < 52 {
    } else {
    }
  }

  /** The validity tests accept exactly the alphabets: hex and base32z in either case, base64 as it is. */
  lemma ValidHex(c: char)
    ensures HexDigit(c) <==> Lower(c) in HEX_DIGITS
  {
    if HexDigit(c) { LettersHex(FromHex(c)); }
    if d :| 0 <= d < |HEX_DIGITS| && HEX_DIGITS[d] == Lower(c) { LettersHex(d); }
  }

  lemma Valid32(c: char)
    ensures Digit32(c) <==> Lower(c) in Z_BASE_32
  {
    Digits32(c);
    hide Digit32, To32, Lower;
    if d :| 0 <= d < 32 && To32(d) == Lower(c) { Letters32(d); }
    if d :| 0 <= d < |Z_BASE_32| && Z_BASE_32[d] == Lower(c) { Letters32(d); }
  }

  lemma Valid64(c: char)
    ensures Digit64(c) <==> c in RFC_4648
  {
    if Digit64(c) {
      assert To64(From64(c)) == c;
      Letters64(From64(c));
    }
    hide To64;
    if d :| 0 <= d < |RFC_4648| && RFC_4648[d] == c {
      Letters64(d);
      Alphabet64(d);
    }
  }

  predicate BodyAndPadding(s: string, n: nat) {
    && n <= |s| && (forall i | 0 <= i < n :: s[i] in RFC_4648)
    && (s[n..] == "" || (s[n..] in {"=", "=="} && |s| % 4 == 0))
  }

  /** A text is base64 if and only if it is letters followed by at most two padding characters that complete a group of four. */
  lemma Base64Exactly(s: string)
    ensures IsBase64(s) <==> exists n: nat :: BodyAndPadding(s, n)
  {
    hide Digit64;
    if IsBase64(s) {
      forall i | 0 <= i < Body64(s) ensures s[i] in RFC_4648 { Valid64(s[i]); }
      var n := Body64(s);
      assert n == |s| ==> s[n..] == "";
      assert n == |s| - 1 ==> s[n..] == "=";
      assert n == |s| - 2 ==> s[n..] == "==";
      assert BodyAndPadding(s, n);
    }
    if n: nat :| BodyAndPadding(s, n) {
      BodyIs(s, n);
      forall i | 0 <= i < Body64(s) ensures Digit64(s[i]) { Valid64(s[i]); }
    }
  }

  lemma BodyIs(s: string, n: nat)
    requires BodyAndPadding(s, n)
    ensures Body64(s) == n
  {
    NoLetter();
    var pad := s[n..];
    assert pad == "=" || pad == "==" ==> s[|s| - 1] == '=';
    assert pad == "==" ==> s[|s| - 2] == pad[0];
    assert n > 0 ==> s[n - 1] != '=';
    if pad == "" { assert n == |s|; }
  }

  lemma NoLetter()
    ensures '=' !in RFC_4648
  {
    Valid64('=');
  }
}
