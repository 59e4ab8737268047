/** Text operations of the source's language, over strings. */
module StringOps {
  // ------------------------------------------------------------------ decimals

  predicate IsDigit(c: char) { '0' <= c <= '9' }

  predicate AllDigits(s: string) { forall i :: 0 <= i < |s| ==> IsDigit(s[i]) }

  function DigitChar(d: nat): (c: char)
    requires d < 10
    ensures IsDigit(c)
  {
    '0' + d as char
  }

  function NatText(n: nat): (s: string)
    ensures s != "" && AllDigits(s)
  {
    if n < 10 then [DigitChar(n)] else NatText(n / 10) + [DigitChar(n % 10)]
  }

  function NatOf(s: string): nat
    requires AllDigits(s)
  {
    if s == "" then 0 else 10 * NatOf(s[..|s| - 1]) + (s[|s| - 1] as int - '0' as int)
  }

  lemma {:induction false} NatOfText(n: nat)
    ensures NatOf(NatText(n)) == n
  {
    if n >= 10 {
      NatOfText(n / 10);
      assert NatText(n)[..|NatText(n)| - 1] == NatText(n / 10);
    }
  }

  // --------------------------------------------------------- character classes

  predicate IsControl(c: char) { c < ' ' || c == '\U{7F}' }

  predicate IsSpace(c: char) {
    '\t' <= c <= '\r' || c == ' ' || c == '\U{A0}' || c == '\U{1680}' || '\U{2000}' <= c <= '\U{200A}'
    || c == '\U{2028}' || c == '\U{2029}' || c == '\U{202F}' || c == '\U{205F}' || c == '\U{3000}'
    || c == '\U{FEFF}'
  }

  predicate IsNameStart(c: char) { 'A' <= c <= 'Z' || 'a' <= c <= 'z' || '0' <= c <= '9' }

  predicate IsNameChar(c: char) { IsNameStart(c) || c == '_' || c == '.' || c == '-' }

  // ----------------------------------------------------------- searching, cutting

  /** `s.includes(part)` */
  predicate Contains(s: string, part: string) {
    part <= s || (s != "" && Contains(s[1..], part))
  }

  predicate StandsAt(s: string, part: string, i: nat) { i + |part| <= |s| && s[i..i + |part|] == part }

  /** It is found wherever it stands, and nowhere else. */
  lemma {:induction false} ContainsIff(s: string, part: string)
    ensures Contains(s, part) <==> exists i: nat :: StandsAt(s, part, i)
  {
    hide StandsAt;
    AtStart(s, part);
    if s == "" {
      NotBehind(part);
    } else {
      ContainsIff(s[1..], part);
      if i: nat :| StandsAt(s[1..], part, i) {
        OneFurther(s, part, i);
      }
      if i: nat :| StandsAt(s, part, i) {
        if i > 0 { OneFurther(s, part, i - 1); }
      }
    }
  }

  lemma AtStart(s: string, part: string)
    ensures StandsAt(s, part, 0) <==> part <= s
  {
    assert part <= s ==> s[0..0 + |part|] == part;
  }

  lemma NotBehind(part: string)
    ensures forall i: nat :: StandsAt("", part, i) ==> i == 0
  {
  }

  lemma OneFurther(s: string, part: string, i: nat)
    requires s != ""
    ensures StandsAt(s, part, i + 1) <==> StandsAt(s[1..], part, i)
  {
    if i + 1 + |part| <= |s| {
      assert s[i + 1..i + 1 + |part|] == s[1..][i..i + |part|];
    }
  }

  function Trim(s: string): string {
    if s == "" then ""
    else if IsSpace(s[0]) then Trim(s[1..])
    else if IsSpace(s[|s| - 1]) then Trim(s[..|s| - 1])
    else s
  }

  /** `s` up to the first `mark`, or all of it. */
  function UpTo(s: string, mark: char): (head: string)
    ensures mark !in head && head <= s
    ensures head != s ==> s[|head|] == mark
  {
    if s == "" || s[0] == mark then "" else [s[0]] + UpTo(s[1..], mark)
  }

  /** `s.indexOf(c)`, or the length of `s` where that is -1. */
  function FirstOf(s: string, c: char): (i: nat)
    ensures i <= |s| && (i < |s| ==> s[i] == c)
    ensures forall j :: 0 <= j < i ==> s[j] != c
  {
    if s == "" || s[0] == c then 0 else 1 + FirstOf(s[1..], c)
  }

  /** `s.lastIndexOf(c)` */
  function LastOf(s: string, c: char): (i: int)
    ensures -1 <= i < |s| && (i >= 0 ==> s[i] == c)
    ensures forall j :: i < j < |s| ==> s[j] != c
  {
    if s == "" then -1 else if s[|s| - 1] == c then |s| - 1 else LastOf(s[..|s| - 1], c)
  }

  lemma {:induction false} FirstIs(s: string, c: char, i: nat)
    requires i < |s| && s[i] == c && forall j :: 0 <= j < i ==> s[j] != c
    ensures FirstOf(s, c) == i
    decreases i
  {
    if i > 0 {
      FirstIs(s[1..], c, i - 1);
    }
  }

  lemma {:induction false} LastIs(s: string, c: char, i: nat)
    requires i < |s| && s[i] == c && forall j :: i < j < |s| ==> s[j] != c
    ensures LastOf(s, c) == i
  {
    if i < |s| - 1 {
      LastIs(s[..|s| - 1], c, i);
    }
  }

  lemma {:induction false} NoneIs(s: string, c: char)
    requires c !in s
    ensures FirstOf(s, c) == |s|
  {
    if s != "" {
      NoneIs(s[1..], c);
    }
  }

  lemma {:induction false} LastBehind(q: string, m: string, c: char)
    ensures LastOf(q + m, c) == if LastOf(m, c) == -1 then LastOf(q, c) else |q| + LastOf(m, c)
    decreases m
  {
    if m == "" {
      assert q + m == q;
    } else {
      assert (q + m)[..|q + m| - 1] == q + m[..|m| - 1];
      LastBehind(q, m[..|m| - 1], c);
    }
  }
}
