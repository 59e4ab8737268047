/** The two shapes a credential is recorded in (`AUTH_HEADER_RE` and `CRED_QUERY_RE` in
    `src/contracts.ts`), as matchers that read from left to right. */
module CredentialShapes {
  import opened StringOps

  function Lower(c: char): char { if 'A' <= c <= 'Z' then c - 'A' + 'a' else c }

  /** The same text but for the case of its letters. */
  predicate SameLetters(s: string, word: string) {
    |s| == |word| && forall i :: 0 <= i < |s| ==> Lower(s[i]) == Lower(word[i])
  }

  /** `word` stands at `i`. */
  predicate WordAt(text: string, i: nat, word: string): (yes: bool)
    ensures yes ==> i + |word| <= |text|
  {
    i + |word| <= |text| && SameLetters(text[i..i + |word|], word)
  }

  predicate AllSpaces(text: string, from: nat, to: nat)
    requires to <= |text|
  {
    forall i :: from <= i < to ==> IsSpace(text[i])
  }

  /** The first place from `i` on that holds no space. */
  function SkipSpaces(text: string, i: nat): (j: nat)
    requires i <= |text|
    ensures i <= j <= |text| && AllSpaces(text, i, j)
    ensures j < |text| ==> !IsSpace(text[j])
    decreases |text| - i
  {
    if i < |text| && IsSpace(text[i]) then SkipSpaces(text, i + 1) else i
  }

  // ------------------------------------------------------ authorization header

  const REDACTED := "<redacted>"
  const SCHEMES := ["token", "bearer", "basic"]
  const HEADER_NAME := "authorization"

  predicate ValueAt(text: string, end: nat)
    requires end <= |text|
  {
    var value := SkipSpaces(text, end);
    end < value < |text| && !WordAt(text, value, REDACTED)
  }

  predicate SchemeAt(text: string, scheme: nat) {
    exists word | word in SCHEMES :: WordAt(text, scheme, word) && ValueAt(text, scheme + |word|)
  }

  predicate HeaderAt(text: string, i: nat) {
    && WordAt(text, i, HEADER_NAME)
    && var colon := SkipSpaces(text, i + |HEADER_NAME|);
       colon < |text| && text[colon] == ':' && SchemeAt(text, SkipSpaces(text, colon + 1))
  }

  predicate HasAuthHeader(text: string) {
    exists i | 0 <= i < |text| :: HeaderAt(text, i)
  }

  /** Something other than the elision stands at `value`, after nothing but space from `end` on. */
  predicate IsValue(text: string, end: nat, value: nat) {
    end < value < |text| && AllSpaces(text, end, value) && !IsSpace(text[value]) && !WordAt(text, value, REDACTED)
  }

  /** The header's name at `i`, a colon, a scheme and a value, with nothing but space between them. */
  predicate IsHeader(text: string, i: nat, colon: nat, scheme: nat, word: string, value: nat) {
    && WordAt(text, i, HEADER_NAME)
    && i + |HEADER_NAME| <= colon < scheme <= |text|
    && AllSpaces(text, i + |HEADER_NAME|, colon) && text[colon] == ':' && AllSpaces(text, colon + 1, scheme)
    && word in SCHEMES && WordAt(text, scheme, word)
    && IsValue(text, scheme + |word|, value)
  }

  lemma {:induction false} SkipsTo(text: string, i: nat, j: nat)
    requires i <= j < |text| && AllSpaces(text, i, j) && !IsSpace(text[j])
    ensures SkipSpaces(text, i) == j
    decreases j - i
  {
    if i < j {
      SkipsTo(text, i + 1, j);
    }
  }

  lemma ValueIsFound(text: string, end: nat)
    requires end <= |text| && ValueAt(text, end)
    ensures IsValue(text, end, SkipSpaces(text, end))
  {
  }

  lemma SchemeIsNoSpace(text: string, scheme: nat, word: string)
    requires word in SCHEMES && WordAt(text, scheme, word)
    ensures scheme < |text| && !IsSpace(text[scheme])
  {
    assert text[scheme..scheme + |word|][0] == text[scheme];
    assert Lower(text[scheme]) == 't' || Lower(text[scheme]) == 'b';
  }

  /** The matcher sees exactly the texts that hold a populated header. */
  lemma HasAuthHeaderIff(text: string)
    ensures HasAuthHeader(text)
            <==> exists i: nat, colon: nat, scheme: nat, word, value: nat ::
                   IsHeader(text, i, colon, scheme, word, value)
  {
    if HasAuthHeader(text) {
      var i :| 0 <= i < |text| && HeaderAt(text, i);
      HeaderIsSound(text, i);
    }
    if i: nat, colon: nat, scheme: nat, word, value: nat :| IsHeader(text, i, colon, scheme, word, value) {
      HeaderIsSeen(text, i, colon, scheme, word, value);
    }
  }

  lemma SchemeIsSound(text: string, scheme: nat) returns (word: string, value: nat)
    requires SchemeAt(text, scheme)
    ensures word in SCHEMES && WordAt(text, scheme, word) && IsValue(text, scheme + |word|, value)
  {
    hide WordAt, IsSpace, AllSpaces, SkipSpaces, IsValue, ValueAt;
    word :| word in SCHEMES && WordAt(text, scheme, word) && ValueAt(text, scheme + |word|);
    ValueIsFound(text, scheme + |word|);
    value := SkipSpaces(text, scheme + |word|);
  }

  lemma HeaderIsSound(text: string, i: nat)
    requires HeaderAt(text, i)
    ensures exists colon: nat, scheme: nat, word, value: nat :: IsHeader(text, i, colon, scheme, word, value)
  {
    hide WordAt, IsSpace, AllSpaces, SkipSpaces, IsValue, SchemeAt;
    var colon := SkipSpaces(text, i + |HEADER_NAME|);
    var scheme := SkipSpaces(text, colon + 1);
    var word, value := SchemeIsSound(text, scheme);
    assert IsHeader(text, i, colon, scheme, word, value);
  }

  lemma HeaderIsSeen(text: string, i: nat, colon: nat, scheme: nat, word: string, value: nat)
    requires IsHeader(text, i, colon, scheme, word, value)
    ensures HasAuthHeader(text)
  {
    SchemeIsNoSpace(text, scheme, word);
    SchemeIsSeen(text, scheme, word, value);
    ColonIsSeen(text, i, colon, scheme);
  }

  lemma SchemeIsSeen(text: string, scheme: nat, word: string, value: nat)
    requires word in SCHEMES && WordAt(text, scheme, word) && IsValue(text, scheme + |word|, value)
    ensures SchemeAt(text, scheme)
  {
    hide WordAt, SkipSpaces, IsSpace, AllSpaces;
    SkipsTo(text, scheme + |word|, value);
  }

  lemma ColonIsSeen(text: string, i: nat, colon: nat, scheme: nat)
    requires WordAt(text, i, HEADER_NAME) && i + |HEADER_NAME| <= colon < scheme < |text|
    requires AllSpaces(text, i + |HEADER_NAME|, colon) && text[colon] == ':' && AllSpaces(text, colon + 1, scheme)
    requires !IsSpace(text[scheme]) && SchemeAt(text, scheme)
    ensures HasAuthHeader(text)
  {
    hide WordAt, SkipSpaces, AllSpaces, SchemeAt;
    SkipsTo(text, i + |HEADER_NAME|, colon);
    SkipsTo(text, colon + 1, scheme);
    assert HeaderAt(text, i);
  }

  // ------------------------------------------------------- query parameters

  const CREDENTIAL_NAMES := ["token", "apikey", "api_key", "access_token", "auth", "password"]

  predicate QueryAt(text: string, i: nat, name: string) {
    var value := i + |name| + 2;
    && value < |text| && (text[i] == '?' || text[i] == '&')
    && WordAt(text, i + 1, name)
    && text[value - 1] == '=' && text[value] != '&' && !IsSpace(text[value])
  }

  predicate HasCredentialQuery(text: string) {
    exists i, name | 0 <= i < |text| && name in CREDENTIAL_NAMES :: QueryAt(text, i, name)
  }

  // ------------------------------------------------------------ written shapes

  lemma WordIsThere(before: string, word: string, after: string)
    ensures WordAt(before + word + after, |before|, word)
  {
    assert (before + word + after)[|before|..|before| + |word|] == word;
  }

  /** A credential in a query string is seen wherever it stands. */
  lemma WrittenQueryIsSeen(before: string, mark: char, name: string, value: string)
    requires (mark == '?' || mark == '&') && value != "" && value[0] != '&' && !IsSpace(value[0])
    requires name in ["token", "apikey", "api_key", "access_token", "auth", "password"]
    ensures HasCredentialQuery(before + [mark] + name + "=" + value)
  {
    hide WordAt, IsSpace;
    var text := before + [mark] + name + "=" + value;
    assert text == before + [mark] + name + ("=" + value);
    WordIsThere(before + [mark], name, "=" + value);
    assert text[|before|] == mark && text[|before| + |name| + 1] == '=' && text[|before| + |name| + 2] == value[0];
    assert name in CREDENTIAL_NAMES;
    assert QueryAt(text, |before|, name);
  }

  /** So is an authorization header with a value that was not elided. */
  lemma WrittenHeaderIsSeen(before: string, scheme: string, value: string)
    requires scheme in ["token", "bearer", "basic"] && value != "" && !IsSpace(value[0])
    requires !WordAt(value, 0, "<redacted>")
    ensures HasAuthHeader(before + "authorization" + ": " + scheme + " " + value)
  {
    hide WordAt;
    var text := before + "authorization" + ": " + scheme + " " + value;
    var i, colon := |before|, |before| + 13;
    assert text == before + "authorization" + (": " + scheme + " " + value);
    WordIsThere(before, "authorization", ": " + scheme + " " + value);
    assert text == before + "authorization" + ": " + scheme + (" " + value);
    WordIsThere(before + "authorization" + ": ", scheme, " " + value);
    var at := colon + 2 + |scheme| + 1;
    assert text[colon] == ':' && text[colon + 1] == ' ' && text[at - 1] == ' ' && text[at] == value[0];
    assert text[at..] == value;
    ValueIsShifted(text, at, value);
    assert IsValue(text, colon + 2 + |scheme|, at);
    assert IsHeader(text, i, colon, colon + 2, scheme, at);
    HeaderIsSeen(text, i, colon, colon + 2, scheme, at);
  }

  lemma ValueIsShifted(text: string, at: nat, value: string)
    requires at <= |text| && text[at..] == value
    ensures WordAt(text, at, REDACTED) <==> WordAt(value, 0, REDACTED)
  {
    if at + |REDACTED| <= |text| {
      assert text[at..at + |REDACTED|] == value[0..0 + |REDACTED|];
    }
  }
}
