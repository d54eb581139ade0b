/** The skipper and the deserializer accept the same inputs and consume the same bytes. */
module BencodeSkip {
  import opened BencodeModel

  ghost predicate SameOutcome<A, B>(a: Parsed<A>, b: Parsed<B>) {
    (a.Ok? <==> b.Ok?) && (a.Ok? && b.Ok? ==> a.rest == b.rest)
  }

  /** For every input, valid or malformed, skipping succeeds exactly when parsing does, and both leave the same rest. */
  lemma {:induction false} SkipAgrees(s: string)
    ensures SameOutcome(SkipValue(s), ParseValue(s))
    decreases |s|, 0
  {
    if |s| >= 2 {
      if s[0] == 'l' {
        SkipItemsAgrees(s[1..]);
      } else if s[0] == 'd' {
        SkipEntriesAgrees(s[1..]);
      }
    }
  }

  lemma {:induction false} SkipItemsAgrees(s: string)
    requires s != ""
    ensures SameOutcome(SkipItems(s), ParseItems(s))
    decreases |s|, 1
  {
    if s[0] != 'e' {
      SkipAgrees(s);
      var r := ParseValue(s);
      if r.Ok? && r.rest != "" {
        SkipItemsAgrees(r.rest);
      }
    }
  }

  lemma {:induction false} SkipEntriesAgrees(s: string)
    requires s != ""
    ensures SameOutcome(SkipEntries(s), ParseEntries(s))
    decreases |s|, 1
  {
    if s[0] != 'e' {
      var k := ParseString(s);
      if k.Ok? && k.rest != "" {
        SkipAgrees(k.rest);
        var r := ParseValue(k.rest);
        if r.Ok? && r.rest != "" {
          SkipEntriesAgrees(r.rest);
        }
      }
    }
  }
}
