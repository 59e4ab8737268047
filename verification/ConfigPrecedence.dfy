/** Who decides a worker's settings: the most specific level that says anything. */
module ConfigPrecedence {
  import opened Optional
  import opened StringOps
  import opened LaunchArgv
  import opened FleetConfig
  import opened ModelString
  import opened ConfigResolution

  /** `said` is what the levels say: the worker's own word, else the role's, else the default. */
  ghost predicate Decides<T>(worker: Option<T>, role: Option<T>, defaults: Option<T>, said: Option<T>) {
    && (worker.Some? ==> said == worker)
    && (worker.None? && role.Some? ==> said == role)
    && (worker.None? && role.None? ==> said == defaults)
  }

  /** The fields of a worker's entry and of its role. */
  ghost predicate HasFields(cfg: Config, id: string, w: RoleFields, role: RoleFields) {
    && FindWorker(cfg.workers, id).Some? && FindWorker(cfg.workers, id).value.fields == w
    && RoleOf(cfg, FindWorker(cfg.workers, id).value.role) == Some(role)
  }

  /** Tools, skills, pane mode, kind and read-only are the most specific level's own, never merged; what no
      level says is all tools, no skills, `rpc`, persistent and writable. The contract skill is in front when
      the list lacks it. */
  lemma SettingsAreDecided(cfg: Config, id: string, w: RoleFields, role: RoleFields)
    requires ResolveWorker(cfg, id).Resolved? && HasFields(cfg, id, w, role)
    ensures var d, r := cfg.defaults, ResolveWorker(cfg, id).worker;
            && Decides(w.tools, role.tools, d.tools, r.tools)
            && Decides(w.paneMode, role.paneMode, Some(OrElse(d.paneMode, Rpc)), Some(r.paneMode))
            && Decides(w.kind, role.kind, Some(OrElse(d.kind, Persistent)), Some(r.kind))
            && Decides(w.readOnly, role.readOnly, Some(OrElse(d.readOnly, false)), Some(r.readOnly))
    ensures forall skills :: Decides(w.skills, role.skills, Some(OrElse(cfg.defaults.skills, [])), Some(skills)) ==>
              ResolveWorker(cfg, id).worker.skills
              == if "pifleet-worker" in skills then skills else ["pifleet-worker"] + skills
    ensures ResolveWorker(cfg, id).worker.id == id
    ensures ResolveWorker(cfg, id).worker.role == FindWorker(cfg.workers, id).value.role
  {
    hide SpecOf;
  }

  /** A worker's `skills: []` leaves the contract skill alone, whatever role and defaults list. */
  lemma EmptySkillsAreKept(cfg: Config, id: string, w: RoleFields, role: RoleFields)
    requires ResolveWorker(cfg, id).Resolved? && HasFields(cfg, id, w, role) && w.skills == Some([])
    ensures ResolveWorker(cfg, id).worker.skills == ["pifleet-worker"]
  {
    hide ResolveWorker, HasFields;
    SettingsAreDecided(cfg, id, w, role);
    var none: seq<string> := [];
    assert Decides(w.skills, role.skills, Some(OrElse(cfg.defaults.skills, [])), Some(none));
  }

  /** The model string that counts is the most specific level's, else the fleet's, and so is the thinking
      level beside it; provider, model and level are what that string decomposes to. */
  lemma ModelIsDecided(cfg: Config, id: string, w: RoleFields, role: RoleFields, raw: string, level: Option<string>)
    requires ResolveWorker(cfg, id).Resolved? && HasFields(cfg, id, w, role)
    requires Decides(w.model, role.model, Some(OrElse(cfg.defaults.model, cfg.llm.model)), Some(raw))
    requires Decides(w.thinking, role.thinking, Or(cfg.defaults.thinking, cfg.llm.thinking), level)
    ensures var r := ResolveWorker(cfg, id).worker;
            Spec(r.provider, r.model, r.thinking) == Decompose(raw, cfg.llm.provider, level, p => TagStyle(cfg.llm, p))
  {
    hide Decompose, WithContractSkill, TagStyle;
    SpecIs(cfg, w, role, raw, level);
  }

  lemma SpecIs(cfg: Config, w: RoleFields, role: RoleFields, raw: string, level: Option<string>)
    requires Decides(w.model, role.model, Some(OrElse(cfg.defaults.model, cfg.llm.model)), Some(raw))
    requires Decides(w.thinking, role.thinking, Or(cfg.defaults.thinking, cfg.llm.thinking), level)
    ensures SpecOf(cfg, w, role) == Decompose(raw, cfg.llm.provider, level, p => TagStyle(cfg.llm, p))
  {
    hide Decompose, TagStyle;
    assert Or(Pick(w.thinking, role.thinking, cfg.defaults.thinking), cfg.llm.thinking) == level;
    assert OrElse(Pick(w.model, role.model, cfg.defaults.model), cfg.llm.model) == raw;
  }

  /** A worker that spells out `p/m:level` for a declared provider gets just that, whatever any level says
      about thinking and whatever the others say at all. */
  lemma SpelledModelIsUsed(cfg: Config, id: string, w: RoleFields, role: RoleFields, p: string, m: string,
                           level: string)
    requires HasFields(cfg, id, w, role) && w.model == Some(p + "/" + m + ":" + level)
    requires p != "" && '/' !in p && m != "" && IsLevel(level)
    requires cfg.llm.providers.Some? ==> p in cfg.llm.providers.value && !cfg.llm.providers.value[p].tagStyle
    ensures var resolution := ResolveWorker(cfg, id);
            && resolution.Resolved? && resolution.worker.provider == p && resolution.worker.model == m
            && resolution.worker.thinking == Some(level)
  {
    hide Decompose, WithContractSkill, IsLevel;
    var merged := if w.thinking.Some? then w.thinking
                  else if role.thinking.Some? then role.thinking
                  else Or(cfg.defaults.thinking, cfg.llm.thinking);
    SpecIs(cfg, w, role, p + "/" + m + ":" + level, merged);
    PrintedSpecIsRead(p, m, level, cfg.llm.provider, merged, q => TagStyle(cfg.llm, q));
  }

  /** For a tag-style provider the whole text behind the prefix is the model, colons and all. */
  lemma TaggedModelIsKept(cfg: Config, id: string, w: RoleFields, role: RoleFields, p: string, m: string)
    requires HasFields(cfg, id, w, role) && w.model == Some(p + "/" + m) && p != "" && '/' !in p && m != ""
    requires cfg.llm.providers.Some? && p in cfg.llm.providers.value && cfg.llm.providers.value[p].tagStyle
    ensures var resolution := ResolveWorker(cfg, id);
            resolution.Resolved? && resolution.worker.provider == p && resolution.worker.model == m
  {
    hide Decompose, WithContractSkill, IsLevel, LastOf;
    var merged := Said(w.thinking, role.thinking, Or(cfg.defaults.thinking, cfg.llm.thinking));
    SpecIs(cfg, w, role, p + "/" + m, merged);
    PrefixedModelIsKept(p, m, cfg.llm.provider, merged, q => TagStyle(cfg.llm, q));
  }

  /** What a worker says for itself, no other level can change: two fleets that agree on its entry, on the
      provider a model without a prefix goes to and on the tag-style providers resolve it alike. */
  lemma OwnWordDecides(a: Config, b: Config, id: string, w: RoleFields, roleA: RoleFields, roleB: RoleFields)
    requires HasFields(a, id, w, roleA) && HasFields(b, id, w, roleB)
    requires ResolveWorker(a, id).Resolved? && ResolveWorker(b, id).Resolved?
    ensures var x, y := ResolveWorker(a, id).worker, ResolveWorker(b, id).worker;
            && (w.tools.Some? ==> x.tools == y.tools) && (w.skills.Some? ==> x.skills == y.skills)
            && (w.paneMode.Some? ==> x.paneMode == y.paneMode) && (w.kind.Some? ==> x.kind == y.kind)
            && (w.readOnly.Some? ==> x.readOnly == y.readOnly)
    ensures w.model.Some? && a.llm.provider == b.llm.provider
            && (forall p :: TagStyle(a.llm, p) == TagStyle(b.llm, p)) ==>
              var x, y := ResolveWorker(a, id).worker, ResolveWorker(b, id).worker;
              && x.provider == y.provider && x.model == y.model
              && (w.thinking.Some? ==> x.thinking == y.thinking)
  {
    hide ResolveWorker, HasFields, TagStyle;
    SettingsAreDecided(a, id, w, roleA);
    SettingsAreDecided(b, id, w, roleB);
    if w.skills.Some? {
      assert Decides(w.skills, roleA.skills, Some(OrElse(a.defaults.skills, [])), Some(w.skills.value));
      assert Decides(w.skills, roleB.skills, Some(OrElse(b.defaults.skills, [])), Some(w.skills.value));
    }
    if w.model.Some? && a.llm.provider == b.llm.provider && forall p :: TagStyle(a.llm, p) == TagStyle(b.llm, p) {
      var levelA := Said(w.thinking, roleA.thinking, Or(a.defaults.thinking, a.llm.thinking));
      var levelB := Said(w.thinking, roleB.thinking, Or(b.defaults.thinking, b.llm.thinking));
      ModelIsDecided(a, id, w, roleA, w.model.value, levelA);
      ModelIsDecided(b, id, w, roleB, w.model.value, levelB);
      SameStyle(a.llm, b.llm, w.model.value, levelA, levelB);
    }
  }

  lemma Said<T>(worker: Option<T>, role: Option<T>, defaults: Option<T>) returns (said: Option<T>)
    ensures Decides(worker, role, defaults, said)
  {
    said := if worker.Some? then worker else if role.Some? then role else defaults;
  }

  lemma SameStyle(a: Llm, b: Llm, raw: string, levelA: Option<string>, levelB: Option<string>)
    requires a.provider == b.provider && forall p :: TagStyle(a, p) == TagStyle(b, p)
    ensures var x, y := Decompose(raw, a.provider, levelA, p => TagStyle(a, p)),
                        Decompose(raw, b.provider, levelB, p => TagStyle(b, p));
            && x.provider == y.provider && x.model == y.model && (levelA == levelB ==> x.thinking == y.thinking)
  {
    hide TagStyle, SplitPrefix, LastOf, IsLevel;
  }

  // ----------------------------------------------------------------- endpoints

  /** A declared provider's endpoint and key are its own block's: another fleet gives the same exactly when
      the block holds the same, whatever else differs, the flat keys and the other blocks among it. */
  lemma EndpointIsTheBlocks(a: Llm, b: Llm, p: string)
    requires a.providers.Some? && p in a.providers.value && b.providers.Some? && p in b.providers.value
    ensures ProviderBaseUrl(a, p).Set? && ProviderApiKeyEnv(a, p).Set?
    ensures ProviderBaseUrl(a, p) == ProviderBaseUrl(b, p)
            <==> a.providers.value[p].baseUrl == b.providers.value[p].baseUrl
    ensures ProviderApiKeyEnv(a, p) == ProviderApiKeyEnv(b, p)
            <==> a.providers.value[p].apiKeyEnv == b.providers.value[p].apiKeyEnv
    ensures ProviderBaseUrl(a, p).text == a.providers.value[p].baseUrl
    ensures ProviderApiKeyEnv(a, p).text == a.providers.value[p].apiKeyEnv
  {
  }

  /** Without a map every provider has the flat endpoint and key. */
  lemma FlatEndpoint(llm: Llm, p: string)
    requires llm.providers.None?
    ensures ProviderBaseUrl(llm, p) == Set(llm.baseUrl) && ProviderApiKeyEnv(llm, p) == Set(llm.apiKeyEnv)
  {
  }

  // ----------------------------------------------------------------- allowlists

  /** A model name that is neither prefixed nor ends in a level. */
  predicate IsPlainName(name: string) { '/' !in name && ':' !in name }

  lemma PlainNameIsItself(llm: Llm, name: string, provider: string)
    requires IsPlainName(name)
    ensures ModelOf(llm, name, provider) == name && !IsForeign(llm, name, provider)
  {
    NoneIs(name, '/');
    NoColon(name);
  }

  lemma {:induction false} NoColon(s: string)
    requires ':' !in s
    ensures LastOf(s, ':') == -1
  {
    if s != "" {
      NoColon(s[..|s| - 1]);
    }
  }

  /** A list of plain names that is not empty admits exactly those names: the flat list in a fleet without a
      map, and otherwise the provider's own list. */
  lemma PlainListAdmitsItsNames(llm: Llm, provider: string, list: seq<string>, model: string)
    requires list != [] && forall i :: 0 <= i < |list| ==> IsPlainName(list[i])
    requires if llm.providers.None? then list == llm.modelsAllowlist
             else provider in llm.providers.value && list == llm.providers.value[provider].modelsAllowlist
    ensures IsAllowed(llm, provider, model) <==> model in list
  {
    hide ModelOf, IsForeign, IsPlainName;
    AllowedIff(llm, provider, model);
    forall i | 0 <= i < |list|
      ensures ModelOf(llm, list[i], provider) == list[i] && !IsForeign(llm, list[i], provider)
    {
      PlainNameIsItself(llm, list[i], provider);
    }
  }

  /** A prefixed entry admits its model wherever it is not another declared provider's: on its own provider's
      list, and on any list when nobody declared its prefix. */
  lemma PrefixedEntryAdmits(llm: Llm, provider: string, list: seq<string>, q: string, m: string)
    requires llm.providers.Some? && provider in llm.providers.value
    requires list == llm.providers.value[provider].modelsAllowlist && q + "/" + m in list
    requires q != "" && '/' !in q && ':' !in m && (q == provider || q !in llm.providers.value)
    ensures IsAllowed(llm, provider, m)
  {
    var entry := q + "/" + m;
    EntryIs(llm, provider, q, m);
    hide ModelOf, IsForeign;
    AllowedIff(llm, provider, m);
    var i :| 0 <= i < |list| && list[i] == entry;
    assert !IsForeign(llm, list[i], provider) && ModelOf(llm, list[i], provider) == m;
  }

  lemma EntryIs(llm: Llm, provider: string, q: string, m: string)
    requires q != "" && '/' !in q && ':' !in m
    ensures ModelOf(llm, q + "/" + m, provider) == m
    ensures IsForeign(llm, q + "/" + m, provider)
            <==> llm.providers.Some? && q in llm.providers.value && q != provider
  {
    var entry := q + "/" + m;
    FirstIs(entry, '/', |q|);
    assert entry[..|q|] == q;
    NoColon(m);
    PrefixedModelIsKept(q, m, Fallback(llm, provider), None, p => TagStyle(llm, p));
  }

  /** And one of another declared provider admits nothing. */
  lemma OthersEntryAdmitsNothing(llm: Llm, provider: string, list: seq<string>, model: string)
    requires llm.providers.Some? && provider in llm.providers.value
    requires list == llm.providers.value[provider].modelsAllowlist && list != []
    requires forall i :: 0 <= i < |list| ==> IsOthersEntry(llm, provider, list[i])
    ensures !IsAllowed(llm, provider, model)
  {
    hide ModelOf, IsForeign;
    AllowedIff(llm, provider, model);
    forall i | 0 <= i < |list| ensures IsForeign(llm, list[i], provider) {
      assert IsOthersEntry(llm, provider, list[i]);
      var q, m :|
        && list[i] == q + "/" + m && q != "" && '/' !in q && ':' !in m && q in llm.providers.value && q != provider;
      EntryIs(llm, provider, q, m);
    }
  }

  ghost predicate IsOthersEntry(llm: Llm, provider: string, entry: string)
    requires llm.providers.Some?
  {
    exists q, m ::
      && entry == q + "/" + m && q != "" && '/' !in q && ':' !in m && q in llm.providers.value && q != provider
  }
}
