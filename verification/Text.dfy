/** String handling the services rely on: trimming, upper-casing of codes and
    case-insensitive comparison, over ASCII letters and white space. */
module Text {

  predicate IsSpace(c: char) {
    c == ' ' || '\t' <= c <= '\r'
  }

  function UpperChar(c: char): (u: char)
    ensures IsSpace(u) <==> IsSpace(c)
    ensures !('a' <= u <= 'z')
  {
    if 'a' <= c <= 'z' then ((c as int) - 32) as char else c
  }

  function Upper(s: string): string {
    seq(|s|, i requires 0 <= i < |s| => UpperChar(s[i]))
  }

  predicate Bare(s: string) {
    s == "" || (!IsSpace(s[0]) && !IsSpace(s[|s| - 1]))
  }

  function Trim(s: string): (t: string)
    ensures Bare(t)
    ensures Bare(s) ==> t == s
  {
    if s == "" then s
    else if IsSpace(s[0]) then Trim(s[1..])
    else if IsSpace(s[|s| - 1]) then Trim(s[..|s| - 1])
    else s
  }

  /** The form in which codes are stored and looked up. */
  function Canonical(code: string): string {
    Upper(Trim(code))
  }

  predicate EqualFold(a: string, b: string) {
    Upper(a) == Upper(b)
  }

  // ---- What these functions compute ----

  const LOWER := "abcdefghijklmnopqrstuvwxyz"
  const CAPITAL := "ABCDEFGHIJKLMNOPQRSTUVWXYZ"

  /** White space is the blank and the five control characters of that class. */
  lemma SpacesAre(c: char)
    ensures IsSpace(c) <==> c in " \t\n\U{0b}\U{0c}\r"
  {
    var spaces := " \t\n\U{0b}\U{0c}\r";
    assert spaces[0] == ' ' && spaces[1] == '\t' && spaces[2] == '\n' && spaces[5] == '\r';
    assert spaces[3] == '\U{0b}' && spaces[4] == '\U{0c}';
  }

  lemma LowerAt(i: nat)
    requires i < 26
    ensures LOWER[i] as int == 'a' as int + i
  {
  }

  lemma CapitalAt(i: nat)
    requires i < 26
    ensures CAPITAL[i] as int == 'A' as int + i
  {
  }

  /** Letters become their capitals, everything else stays. */
  lemma CapitalsAre(c: char, i: nat)
    requires i < 26
    ensures UpperChar(LOWER[i]) == CAPITAL[i]
    ensures c !in LOWER ==> UpperChar(c) == c
  {
    LowerAt(i);
    CapitalAt(i);
    if 'a' <= c <= 'z' {
      LowerAt(c as int - 'a' as int);
      assert LOWER[c as int - 'a' as int] in LOWER;
    }
  }

  lemma UpperIsPointwise(s: string)
    ensures |Upper(s)| == |s| && forall i | 0 <= i < |s| :: Upper(s)[i] == UpperChar(s[i])
  {
  }

  /** `s[i..j]` is what is left of `s` without the white space at its ends. */
  predicate Middle(s: string, i: nat, j: nat) {
    && i <= j <= |s|
    && (forall k | 0 <= k < i :: IsSpace(s[k])) && (forall k | j <= k < |s| :: IsSpace(s[k]))
    && (i < j ==> !IsSpace(s[i]) && !IsSpace(s[j - 1]))
  }

  lemma MiddleOfTail(s: string, i: nat, j: nat)
    requires s != "" && IsSpace(s[0]) && Middle(s[1..], i, j)
    ensures Middle(s, i + 1, j + 1) && s[i + 1..j + 1] == s[1..][i..j]
  {
    forall k | 0 < k < |s|
      ensures s[k] == s[1..][k - 1]
    {
    }
  }

  lemma MiddleOfFront(s: string, i: nat, j: nat)
    requires s != "" && IsSpace(s[|s| - 1]) && Middle(s[..|s| - 1], i, j)
    ensures Middle(s, i, j) && s[i..j] == s[..|s| - 1][i..j]
  {
  }

  /** Trimming cuts white space at both ends, all of it and nothing else. */
  lemma {:induction false} TrimCutsSpaces(s: string) returns (i: nat, j: nat)
    ensures Middle(s, i, j) && Trim(s) == s[i..j]
  {
    i, j := 0, |s|;
    if s != "" && IsSpace(s[0]) {
      var a, b := TrimCutsSpaces(s[1..]);
      MiddleOfTail(s, a, b);
      i, j := a + 1, b + 1;
    } else if s != "" && IsSpace(s[|s| - 1]) {
      i, j := TrimCutsSpaces(s[..|s| - 1]);
      MiddleOfFront(s, i, j);
    }
  }

  /** Two texts match without regard to case when their characters do, one by one. */
  lemma EqualFoldIff(a: string, b: string)
    ensures EqualFold(a, b) <==> |a| == |b| && forall i | 0 <= i < |a| :: UpperChar(a[i]) == UpperChar(b[i])
  {
    if EqualFold(a, b) {
      assert |Upper(a)| == |a| && |Upper(b)| == |b|;
      forall i | 0 <= i < |a|
        ensures UpperChar(a[i]) == UpperChar(b[i])
      {
        assert Upper(a)[i] == Upper(b)[i];
      }
    }
    if |a| == |b| && forall i | 0 <= i < |a| :: UpperChar(a[i]) == UpperChar(b[i]) {
      assert forall i | 0 <= i < |a| :: Upper(a)[i] == Upper(b)[i];
    }
  }

  lemma CanonicalIsStable(code: string)
    ensures Canonical(Canonical(code)) == Canonical(code)
  {
    var u := Canonical(code);
    assert Bare(u);
    assert Upper(u) == u;
  }
}
