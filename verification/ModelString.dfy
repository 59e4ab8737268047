/** Model strings and the models allowlist (`src/config/load.ts`). */
module ModelString {
  import opened Optional
  import opened StringOps
  import opened FleetConfig

  predicate IsLevel(s: string) {
    s == "off" || s == "minimal" || s == "low" || s == "medium" || s == "high" || s == "xhigh"
  }

  datatype Spec = Spec(provider: string, model: string, thinking: Option<string>)

  /** Provider and rest, when a `/` stands behind at least one character. */
  function SplitPrefix(raw: string, fallback: string): (string, string) {
    var slash := FirstOf(raw, '/');
    if 0 < slash < |raw| then (raw[..slash], raw[slash + 1..]) else (fallback, raw)
  }

  /** The text without a thinking level behind its last colon. */
  function StripLevel(model: string, merged: Option<string>): (string, Option<string>) {
    var colon := LastOf(model, ':');
    if colon != -1 && IsLevel(model[colon + 1..]) then (model[..colon], Some(model[colon + 1..])) else (model, merged)
  }

  function Decompose(raw: string, fallback: string, merged: Option<string>, isTagStyle: string -> bool): Spec {
    var (provider, rest) := SplitPrefix(raw, fallback);
    var (model, thinking) := if isTagStyle(provider) then (rest, merged) else StripLevel(rest, merged);
    Spec(provider, model, thinking)
  }

  method DecomposeModel(raw: string, fallback: string, merged: Option<string>, isTagStyle: string -> bool)
    returns (spec: Spec)
    ensures spec == Decompose(raw, fallback, merged, isTagStyle)
  {
    hide IsLevel, FirstOf, LastOf;
    var provider, model, thinking := fallback, raw, merged;
    var slash := FirstOf(model, '/');
    if 0 < slash < |model| {
      provider := model[..slash];
      model := model[slash + 1..];
    }
    if !isTagStyle(provider) {
      var colon := LastOf(model, ':');
      if colon != -1 {
        var suffix := model[colon + 1..];
        if IsLevel(suffix) {
          thinking := Some(suffix);
          model := model[..colon];
        }
      }
    }
    return Spec(provider, model, thinking);
  }

  // -------------------------------------------------------------- the two orders

  /** The order the steps once had: the level goes first. */
  function SuffixFirst(raw: string, fallback: string, merged: Option<string>): Spec {
    var (rest, thinking) := StripLevel(raw, merged);
    var (provider, model) := SplitPrefix(rest, fallback);
    Spec(provider, model, thinking)
  }

  lemma LevelIsPlain(s: string)
    requires IsLevel(s)
    ensures '/' !in s && ':' !in s && s != ""
  {
  }

  /** A suffix that starts before the slash is no level. */
  lemma NoLevelAcrossSlash(p: string, m: string, d: nat)
    requires d <= |p|
    ensures !IsLevel((p + "/" + m)[d..])
  {
    hide IsLevel;
    var suffix := (p + "/" + m)[d..];
    assert suffix[|p| - d] == '/';
    if IsLevel(suffix) { LevelIsPlain(suffix); }
  }

  /** Behind a prefix, the last colon of the whole is the last colon of the rest. */
  lemma StripBehindPrefix(p: string, m: string, merged: Option<string>)
    ensures StripLevel(p + "/" + m, merged)
            == var (rest, thinking) := StripLevel(m, merged); (p + "/" + rest, thinking)
  {
    hide IsLevel, LastOf;
    var c := LastOf(m, ':');
    LastBehind(p + "/", m, ':');
    if c == -1 {
      var d := LastOf(p + "/", ':');
      if d != -1 {
        assert d != |p|;
        NoLevelAcrossSlash(p, m, d + 1);
      }
    } else {
      SuffixBehind(p + "/", m, c);
    }
  }

  lemma SuffixBehind(q: string, m: string, c: nat)
    requires c < |m|
    ensures (q + m)[|q| + c + 1..] == m[c + 1..] && (q + m)[..|q| + c] == q + m[..c]
  {
  }

  lemma SplitOfJoined(p: string, m: string, fallback: string)
    requires p != "" && '/' !in p
    ensures SplitPrefix(p + "/" + m, fallback) == (p, m)
  {
    var raw := p + "/" + m;
    assert raw[..|p|] == p && raw[|p| + 1..] == m;
    FirstIs(raw, '/', |p|);
  }

  lemma UnprefixedStays(raw: string, n: nat, fallback: string)
    requires n <= |raw| && SplitPrefix(raw, fallback) == (fallback, raw)
    requires FirstOf(raw, '/') == 0 ==> n > 0 || raw == ""
    requires FirstOf(raw, '/') == 0 || FirstOf(raw, '/') == |raw|
    ensures SplitPrefix(raw[..n], fallback) == (fallback, raw[..n])
  {
    if FirstOf(raw, '/') == 0 {
      if raw != "" {
        FirstIs(raw[..n], '/', 0);
      }
    } else {
      assert raw[..|raw|] == raw;
      NoneIs(raw[..n], '/');
    }
  }

  /** Splitting the prefix first or stripping the level first: the same, for every string. */
  lemma StepsCommute(raw: string, fallback: string, merged: Option<string>)
    ensures Decompose(raw, fallback, merged, _ => false) == SuffixFirst(raw, fallback, merged)
  {
    var slash := FirstOf(raw, '/');
    if 0 < slash < |raw| {
      var p, m := raw[..slash], raw[slash + 1..];
      assert raw == p + "/" + m;
      StripBehindPrefix(p, m, merged);
      SplitOfJoined(p, StripLevel(m, merged).0, fallback);
    } else {
      var colon := LastOf(raw, ':');
      if colon != -1 && IsLevel(raw[colon + 1..]) {
        UnprefixedStays(raw, colon, fallback);
      }
    }
  }

  /** With tag-style providers among them the two orders agree exactly when the provider named is not
      one, or its model ends in no level. */
  lemma StepsCommuteIff(raw: string, fallback: string, merged: Option<string>, isTagStyle: string -> bool)
    ensures var (provider, rest) := SplitPrefix(raw, fallback);
            Decompose(raw, fallback, merged, isTagStyle) == SuffixFirst(raw, fallback, merged)
            <==> !isTagStyle(provider) || StripLevel(rest, merged) == (rest, merged)
  {
    StepsCommute(raw, fallback, merged);
  }

  // ------------------------------------------------------------------- inverses

  /** Every part of `p/m:level` comes back, for any model text at all. */
  lemma PrintedSpecIsRead(p: string, m: string, level: string, fallback: string, merged: Option<string>,
                          isTagStyle: string -> bool)
    requires p != "" && '/' !in p && IsLevel(level) && !isTagStyle(p)
    ensures Decompose(p + "/" + m + ":" + level, fallback, merged, isTagStyle) == Spec(p, m, Some(level))
  {
    var rest := m + ":" + level;
    assert p + "/" + m + ":" + level == p + "/" + rest;
    SplitOfJoined(p, rest, fallback);
    LevelIsPlain(level);
    assert rest[|m| + 1..] == level && rest[..|m|] == m;
    LastIs(rest, ':', |m|);
  }

  /** A tag-style provider loses nothing of its model; any other keeps it whole exactly when it ends in
      no level. */
  lemma PrefixedModelIsKept(p: string, m: string, fallback: string, merged: Option<string>, isTagStyle: string -> bool)
    requires p != "" && '/' !in p
    ensures Decompose(p + "/" + m, fallback, merged, isTagStyle) == Spec(p, m, merged)
            <==> isTagStyle(p) || LastOf(m, ':') == -1 || !IsLevel(m[LastOf(m, ':') + 1..])
  {
    SplitOfJoined(p, m, fallback);
  }

  /** A model without a prefix, or with nothing in front of its first slash, goes to the fleet's provider. */
  lemma UnprefixedIsInherited(raw: string, fallback: string, merged: Option<string>, isTagStyle: string -> bool)
    requires '/' !in raw || raw[0] == '/'
    ensures Decompose(raw, fallback, merged, isTagStyle).provider == fallback
    ensures isTagStyle(fallback) || LastOf(raw, ':') == -1 ==>
              Decompose(raw, fallback, merged, isTagStyle) == Spec(fallback, raw, merged)
  {
    if '/' !in raw {
      NoneIs(raw, '/');
    } else {
      FirstIs(raw, '/', 0);
    }
  }

  // ------------------------------------------------------------- the allowlist

  function TagStyle(llm: Llm, provider: string): bool {
    llm.providers.Some?
    && var slot := Get(llm.providers.value, provider); slot.Own? && slot.value.tagStyle
  }

  function ProviderAllowlist(llm: Llm, provider: string): seq<string> {
    if llm.providers.None? then llm.modelsAllowlist
    else
      var slot := Get(llm.providers.value, provider);
      if slot.Own? then slot.value.modelsAllowlist else []
  }

  /** The entry's prefix names a declared provider that is not this worker's. */
  predicate IsForeign(llm: Llm, entry: string, provider: string) {
    var slash := FirstOf(entry, '/');
    && 0 < slash < |entry|
    && llm.providers.Some? && entry[..slash] in llm.providers.value && entry[..slash] != provider
  }

  function Fallback(llm: Llm, provider: string): string {
    if llm.providers.Some? then provider else llm.provider
  }

  function ModelOf(llm: Llm, entry: string, provider: string): string {
    Decompose(entry, Fallback(llm, provider), None, p => TagStyle(llm, p)).model
  }

  function Permitted(llm: Llm, allowlist: seq<string>, provider: string): seq<string> {
    if allowlist == [] then []
    else (if IsForeign(llm, allowlist[0], provider) then [] else [ModelOf(llm, allowlist[0], provider)])
         + Permitted(llm, allowlist[1..], provider)
  }

  /** Does `assertModelAllowed` return for a worker resolved to this provider and model? */
  predicate IsAllowed(llm: Llm, provider: string, model: string) {
    var allowlist := ProviderAllowlist(llm, provider);
    allowlist == [] || model in Permitted(llm, allowlist, provider)
  }

  lemma {:induction false} PermittedHolds(llm: Llm, allowlist: seq<string>, provider: string, model: string)
    ensures model in Permitted(llm, allowlist, provider)
            <==> exists i :: 0 <= i < |allowlist| && !IsForeign(llm, allowlist[i], provider)
                             && ModelOf(llm, allowlist[i], provider) == model
  {
    hide IsForeign, ModelOf;
    if allowlist != [] {
      var rest := allowlist[1..];
      PermittedHolds(llm, rest, provider, model);
      assert forall i | 0 < i < |allowlist| :: allowlist[i] == rest[i - 1];
    }
  }

  lemma ThinkingIsBeside(raw: string, fallback: string, merged: Option<string>, isTagStyle: string -> bool)
    ensures Decompose(raw, fallback, merged, isTagStyle).model == Decompose(raw, fallback, None, isTagStyle).model
    ensures Decompose(raw, fallback, merged, isTagStyle).provider == Decompose(raw, fallback, None, isTagStyle).provider
  {
  }

  /** The gate is reflexive: the string that named the model admits it, on the list of the provider it
      resolved to. */
  lemma OwnEntryIsAllowed(llm: Llm, raw: string, merged: Option<string>)
    requires raw in ProviderAllowlist(llm, Decompose(raw, llm.provider, merged, p => TagStyle(llm, p)).provider)
    ensures var spec := Decompose(raw, llm.provider, merged, p => TagStyle(llm, p));
            IsAllowed(llm, spec.provider, spec.model)
  {
    var isTagStyle := p => TagStyle(llm, p);
    var spec := Decompose(raw, llm.provider, merged, isTagStyle);
    ThinkingIsBeside(raw, llm.provider, merged, isTagStyle);
    var allowlist := ProviderAllowlist(llm, spec.provider);
    var i :| 0 <= i < |allowlist| && allowlist[i] == raw;
    assert ModelOf(llm, raw, spec.provider) == spec.model;
    PermittedHolds(llm, allowlist, spec.provider, spec.model);
  }

  /** A worker is admitted exactly when the list is empty or an entry that is not another declared
      provider's names its model. */
  lemma AllowedIff(llm: Llm, provider: string, model: string)
    ensures var allowlist := ProviderAllowlist(llm, provider);
            IsAllowed(llm, provider, model)
            <==> allowlist == []
                 || exists i :: 0 <= i < |allowlist| && !IsForeign(llm, allowlist[i], provider)
                                && ModelOf(llm, allowlist[i], provider) == model
  {
    PermittedHolds(llm, ProviderAllowlist(llm, provider), provider, model);
  }

  function WithAllowlist(llm: Llm, provider: string, allowlist: seq<string>): Llm
    requires llm.providers.Some? && provider in llm.providers.value
  {
    var block := llm.providers.value[provider].(modelsAllowlist := allowlist);
    llm.(providers := Some(llm.providers.value[provider := block]))
  }

  /** Other providers' entries contribute no admission: adding one anywhere to a list that already
      admits or refuses this worker changes nothing, unless the list was empty. */
  lemma ForeignEntryAdmitsNothing(llm: Llm, provider: string, before: seq<string>, entry: string, after: seq<string>,
                                  model: string)
    requires llm.providers.Some? && provider in llm.providers.value && IsForeign(llm, entry, provider)
    ensures IsAllowed(WithAllowlist(llm, provider, before + [entry] + after), provider, model)
            <==> before + after != [] && IsAllowed(WithAllowlist(llm, provider, before + after), provider, model)
  {
    var long := WithAllowlist(llm, provider, before + [entry] + after);
    var short := WithAllowlist(llm, provider, before + after);
    PermittedConcat(long, before + [entry], after, provider);
    PermittedConcat(long, before, [entry], provider);
    PermittedConcat(short, before, after, provider);
    SameListing(long, short, provider, before);
    SameListing(long, short, provider, after);
    assert IsForeign(long, entry, provider);
    assert Permitted(long, [entry], provider) == [];
  }

  lemma {:induction false} PermittedConcat(llm: Llm, xs: seq<string>, ys: seq<string>, provider: string)
    ensures Permitted(llm, xs + ys, provider) == Permitted(llm, xs, provider) + Permitted(llm, ys, provider)
    decreases xs
  {
    hide IsForeign, ModelOf;
    if xs == [] {
      assert xs + ys == ys;
    } else {
      assert (xs + ys)[1..] == xs[1..] + ys;
      PermittedConcat(llm, xs[1..], ys, provider);
    }
  }

  /** Only the names of the providers and their tag style matter to what a list permits. */
  lemma {:induction false} SameListing(a: Llm, b: Llm, provider: string, list: seq<string>)
    requires a.providers.Some? && b.providers.Some? && a.providers.value.Keys == b.providers.value.Keys
    requires forall p :: TagStyle(a, p) == TagStyle(b, p)
    ensures Permitted(a, list, provider) == Permitted(b, list, provider)
    decreases list
  {
    if list != [] {
      SameListing(a, b, provider, list[1..]);
      assert IsForeign(a, list[0], provider) <==> IsForeign(b, list[0], provider);
      assert ModelOf(a, list[0], provider) == ModelOf(b, list[0], provider);
    }
  }
}
