/** The config validator (`src/config/schema.ts`) against the resolver that reads what it accepted
    (`src/config/load.ts`). The two merge defaults, role and worker each in its own way. */
module ConfigResolution {
  import opened Optional
  import opened StringOps
  import opened Paths
  import opened LaunchArgv
  import opened ArgvReaders
  import opened FleetConfig
  import opened ModelString

  // ---------------------------------------------------------------- tool grants

  const PI_BUILTIN_TOOLS := [Read, Bash, Edit, Write, Grep, Find, Ls]

  /** Declaring no tools grants every builtin. */
  function EffectiveToolGrant(declared: Option<seq<Tool>>): seq<Tool> { OrElse(declared, PI_BUILTIN_TOOLS) }

  function WriteCapableIn(tools: seq<Tool>): (found: seq<Tool>)
    ensures forall t :: t in found <==> t in tools && IsWriteCapable(t)
  {
    (if Bash in tools then [Bash] else []) + (if Write in tools then [Write] else [])
    + (if Edit in tools then [Edit] else [])
  }

  predicate IsWriteCapable(t: Tool) { t == Bash || t == Write || t == Edit }

  // -------------------------------------------------------------- the validator

  /** `cfg.roles[name]`: a name that every object inherits reads as a role that says nothing. */
  function RoleOf(cfg: Config, name: string): Option<RoleFields> {
    match Get(cfg.roles, name)
    case Own(fields) => Some(fields)
    case Inherited => Some(NO_FIELDS)
    case Absent => None
  }

  predicate SkillNamesOk(skills: Option<seq<string>>) {
    skills.Some? ==> forall i :: 0 <= i < |skills.value| ==> IsSessionName(skills.value[i])
  }

  predicate ReadOnlyOk(readOnly: bool, declared: Option<seq<Tool>>) {
    !(readOnly && |WriteCapableIn(EffectiveToolGrant(declared))| > 0)
  }

  predicate PaneModeOk(cfg: Config, paneMode: Option<PaneMode>, kind: Option<Kind>) {
    OrElse(paneMode, Rpc) != Tui || (OrElse(kind, Persistent) != Oneshot && cfg.backend != Some(Headless))
  }

  predicate RoleOk(cfg: Config, name: string, role: RoleFields) {
    && IsSessionName(name)
    && SkillNamesOk(role.skills)
    && ReadOnlyOk(OrElse(role.readOnly, OrElse(cfg.defaults.readOnly, false)), Or(role.tools, cfg.defaults.tools))
    && PaneModeOk(cfg, Or(role.paneMode, cfg.defaults.paneMode), Or(role.kind, cfg.defaults.kind))
  }

  predicate WorkerOk(cfg: Config, w: WorkerEntry) {
    var role := RoleOf(cfg, w.role);
    && role.Some?
    && SkillNamesOk(w.fields.skills)
    && ReadOnlyOk(OrElse(w.fields.readOnly, OrElse(role.value.readOnly, OrElse(cfg.defaults.readOnly, false))),
                  Or(w.fields.tools, Or(role.value.tools, cfg.defaults.tools)))
    && PaneModeOk(cfg, Or(w.fields.paneMode, Or(role.value.paneMode, cfg.defaults.paneMode)),
                  Or(w.fields.kind, Or(role.value.kind, cfg.defaults.kind)))
  }

  /** `^[A-Za-z0-9][A-Za-z0-9_.-]*$` */
  predicate IsProviderKey(name: string) { IsVolumeName(name) }

  predicate LlmOk(llm: Llm) {
    llm.providers.Some? ==>
      && (forall name :: name in llm.providers.value ==> IsProviderKey(name))
      && llm.provider in llm.providers.value
  }

  /** What the refinements accept. */
  ghost predicate Accepted(cfg: Config) {
    && (forall i :: 0 <= i < |cfg.workers| ==> WorkerOk(cfg, cfg.workers[i]))
    && (forall i, j :: 0 <= i < j < |cfg.workers| ==> cfg.workers[i].id != cfg.workers[j].id)
    && (forall name :: name in cfg.roles ==> RoleOk(cfg, name, cfg.roles[name]))
    && SkillNamesOk(cfg.defaults.skills)
    && LlmOk(cfg.llm)
  }

  method CheckSkillNames(skills: Option<seq<string>>) returns (ok: bool)
    ensures ok <==> SkillNamesOk(skills)
  {
    if skills.None? { return true; }
    ok := true;
    for i := 0 to |skills.value|
      invariant ok <==> forall j :: 0 <= j < i ==> IsSessionName(skills.value[j])
    {
      if !IsSessionName(skills.value[i]) { ok := false; }
    }
  }

  method CheckWorkers(cfg: Config) returns (ok: bool)
    ensures ok <==> (forall i :: 0 <= i < |cfg.workers| ==> WorkerOk(cfg, cfg.workers[i]))
                    && (forall i, j :: 0 <= i < j < |cfg.workers| ==> cfg.workers[i].id != cfg.workers[j].id)
  {
    hide WorkerOk;
    ok := true;
    var seen: set<string> := {};
    for n := 0 to |cfg.workers|
      invariant seen == set i | 0 <= i < n :: cfg.workers[i].id
      invariant ok <==> (forall i :: 0 <= i < n ==> WorkerOk(cfg, cfg.workers[i]))
                        && (forall i, j :: 0 <= i < j < n ==> cfg.workers[i].id != cfg.workers[j].id)
    {
      var w := cfg.workers[n];
      if w.id in seen { ok := false; }
      seen := seen + {w.id};
      var fine := CheckWorker(cfg, w);
      if !fine { ok := false; }
    }
  }

  method CheckWorker(cfg: Config, w: WorkerEntry) returns (ok: bool)
    ensures ok <==> WorkerOk(cfg, w)
  {
    hide WriteCapableIn, IsSessionName;
    ok := CheckSkillNames(w.fields.skills);
    var found := RoleOf(cfg, w.role);
    if found.None? { return false; }
    var role := found.value;
    var readOnly := OrElse(w.fields.readOnly, OrElse(role.readOnly, OrElse(cfg.defaults.readOnly, false)));
    var tools := EffectiveToolGrant(Or(w.fields.tools, Or(role.tools, cfg.defaults.tools)));
    if readOnly && |WriteCapableIn(tools)| > 0 { ok := false; }
    var pane := CheckPaneMode(cfg, Or(w.fields.paneMode, Or(role.paneMode, cfg.defaults.paneMode)),
                              Or(w.fields.kind, Or(role.kind, cfg.defaults.kind)));
    ok := ok && pane;
  }

  method CheckPaneMode(cfg: Config, paneMode: Option<PaneMode>, kind: Option<Kind>) returns (ok: bool)
    ensures ok <==> PaneModeOk(cfg, paneMode, kind)
  {
    if OrElse(paneMode, Rpc) != Tui { return true; }
    ok := true;
    if OrElse(kind, Persistent) == Oneshot { ok := false; }
    if cfg.backend == Some(Headless) { ok := false; }
  }

  method CheckRoles(cfg: Config) returns (ok: bool)
    ensures ok <==> forall name :: name in cfg.roles ==> RoleOk(cfg, name, cfg.roles[name])
  {
    ok := true;
    var left := cfg.roles.Keys;
    while left != {}
      invariant left <= cfg.roles.Keys
      invariant ok <==> forall name :: name in cfg.roles.Keys - left ==> RoleOk(cfg, name, cfg.roles[name])
    {
      var name :| name in left;
      left := left - {name};
      var fine := CheckRole(cfg, name, cfg.roles[name]);
      if !fine { ok := false; }
    }
  }

  method CheckRole(cfg: Config, name: string, role: RoleFields) returns (ok: bool)
    ensures ok <==> RoleOk(cfg, name, role)
  {
    hide WriteCapableIn, IsSessionName;
    ok := CheckSkillNames(role.skills);
    if !IsSessionName(name) { ok := false; }
    var readOnly := OrElse(role.readOnly, OrElse(cfg.defaults.readOnly, false));
    var tools := EffectiveToolGrant(Or(role.tools, cfg.defaults.tools));
    if readOnly && |WriteCapableIn(tools)| > 0 { ok := false; }
    var pane := CheckPaneMode(cfg, Or(role.paneMode, cfg.defaults.paneMode), Or(role.kind, cfg.defaults.kind));
    ok := ok && pane;
  }

  method RefineConfig(cfg: Config) returns (ok: bool)
    ensures ok <==> Accepted(cfg)
  {
    var workers := CheckWorkers(cfg);
    var roles := CheckRoles(cfg);
    var skills := CheckSkillNames(cfg.defaults.skills);
    ok := workers && roles && skills && LlmOk(cfg.llm);
  }

  // --------------------------------------------------------------- the resolver

  datatype ResolvedWorker = ResolvedWorker(
    id: string, role: string, provider: string, model: string, thinking: Option<string>, tools: Option<seq<Tool>>,
    skills: seq<string>, paneMode: PaneMode, kind: Kind, readOnly: bool)

  datatype Resolution =
    | Resolved(worker: ResolvedWorker)
    | UnknownWorker | UnknownRole | EmptyModel | UndeclaredProvider

  const CONTRACT_SKILL := "pifleet-worker"

  /** The worker's own setting, else the role's, else the default; settings are never merged. */
  function Pick<T>(worker: Option<T>, role: Option<T>, defaults: Option<T>): Option<T> {
    if worker.Some? then worker else if role.Some? then role else defaults
  }

  function FindWorker(workers: seq<WorkerEntry>, id: string): (found: Option<WorkerEntry>)
    ensures found.Some? ==> found.value in workers && found.value.id == id
    ensures found.None? ==> forall i :: 0 <= i < |workers| ==> workers[i].id != id
  {
    if workers == [] then None
    else if workers[0].id == id then Some(workers[0])
    else FindWorker(workers[1..], id)
  }

  function SpecOf(cfg: Config, w: RoleFields, role: RoleFields): Spec {
    var d := cfg.defaults;
    Decompose(OrElse(Pick(w.model, role.model, d.model), cfg.llm.model), cfg.llm.provider,
              Or(Pick(w.thinking, role.thinking, d.thinking), cfg.llm.thinking), p => TagStyle(cfg.llm, p))
  }

  function WithContractSkill(skills: seq<string>): seq<string> {
    if CONTRACT_SKILL in skills then skills else [CONTRACT_SKILL] + skills
  }

  function ResolveWorker(cfg: Config, id: string): Resolution {
    var found := FindWorker(cfg.workers, id);
    if found.None? then UnknownWorker
    else
      var entry := found.value;
      var foundRole := RoleOf(cfg, entry.role);
      if foundRole.None? then UnknownRole
      else
        var w, role, d := entry.fields, foundRole.value, cfg.defaults;
        var spec := SpecOf(cfg, w, role);
        if spec.model == "" then EmptyModel
        else if cfg.llm.providers.Some? && Get(cfg.llm.providers.value, spec.provider).Absent? then UndeclaredProvider
        else
          Resolved(ResolvedWorker(
            entry.id, entry.role, spec.provider, spec.model, spec.thinking, Pick(w.tools, role.tools, d.tools),
            WithContractSkill(OrElse(Pick(w.skills, role.skills, d.skills), [])),
            OrElse(Pick(w.paneMode, role.paneMode, d.paneMode), Rpc),
            OrElse(Pick(w.kind, role.kind, d.kind), Persistent),
            OrElse(Pick(w.readOnly, role.readOnly, d.readOnly), false)))
  }

  /** What a per-provider setting reads as: a text, nothing at all, or an error. */
  datatype Setting = Set(text: string) | Unset | Throws

  function ProviderBaseUrl(llm: Llm, provider: string): Setting {
    if llm.providers.None? then Set(llm.baseUrl)
    else
      match Get(llm.providers.value, provider)
      case Own(block) => Set(block.baseUrl)
      case Inherited => Unset
      case Absent => Throws
  }

  function ProviderApiKeyEnv(llm: Llm, provider: string): Setting {
    if llm.providers.None? then Set(llm.apiKeyEnv)
    else
      match Get(llm.providers.value, provider)
      case Own(block) => Set(block.apiKeyEnv)
      case Inherited => Unset
      case Absent => Throws
  }

  // ------------------------------------------------------------- main results

  lemma ResolvedParts(cfg: Config, id: string)
    requires ResolveWorker(cfg, id).Resolved?
    ensures var entry := FindWorker(cfg.workers, id).value; var role := RoleOf(cfg, entry.role);
            && FindWorker(cfg.workers, id).Some? && role.Some?
            && exists i :: 0 <= i < |cfg.workers| && cfg.workers[i] == entry
  {
    var entry := FindWorker(cfg.workers, id).value;
    assert entry in cfg.workers;
  }

  /** A worker that is read-only has a tool list of its own, as without one it would get every builtin, and
      nothing on it can write. */
  lemma ReadOnlyHoldsNoWriter(cfg: Config, id: string)
    requires Accepted(cfg) && ResolveWorker(cfg, id).Resolved? && ResolveWorker(cfg, id).worker.readOnly
    ensures var tools := ResolveWorker(cfg, id).worker.tools;
            tools.Some? && Bash !in tools.value && Edit !in tools.value && Write !in tools.value
  {
    hide SkillNamesOk, PaneModeOk, ReadOnlyOk, LlmOk, RoleOk, SpecOf, WithContractSkill;
    ResolvedParts(cfg, id);
    assert WorkerOk(cfg, FindWorker(cfg.workers, id).value);
    NoWriterIn(ResolveWorker(cfg, id).worker.tools);
  }

  lemma NoWriterIn(declared: Option<seq<Tool>>)
    requires ReadOnlyOk(true, declared)
    ensures declared.Some? && Bash !in declared.value && Edit !in declared.value && Write !in declared.value
  {
    hide WriteCapableIn;
    var grant := EffectiveToolGrant(declared);
    assert WriteCapableIn(grant) == [];
    assert Bash !in WriteCapableIn(grant) && Edit !in WriteCapableIn(grant) && Write !in WriteCapableIn(grant);
    assert PI_BUILTIN_TOOLS[1] == Bash;
  }

  /** A role that is accepted can be used as it is: a worker that adds nothing to it passes every check. */
  lemma RoleStandsAlone(cfg: Config, role: string, id: string)
    requires Accepted(cfg) && role in cfg.roles
    ensures WorkerOk(cfg, WorkerEntry(id, role, NO_FIELDS))
  {
    hide PaneModeOk, ReadOnlyOk, LlmOk, IsSessionName;
    assert RoleOk(cfg, role, cfg.roles[role]);
  }

  /** Every declared provider can be named by a prefix. */
  lemma DeclaredProviderCanBeNamed(cfg: Config, name: string, model: string)
    requires Accepted(cfg) && cfg.llm.providers.Some? && name in cfg.llm.providers.value
    ensures SplitPrefix(name + "/" + model, cfg.llm.provider) == (name, model)
  {
    hide WorkerOk, RoleOk, SkillNamesOk;
    assert IsProviderKey(name) && '/' !in name;
    SplitOfJoined(name, model, cfg.llm.provider);
  }

  /** A worker with a pane of its own is persistent, and no backend without panes is configured. */
  lemma TuiHasPane(cfg: Config, id: string)
    requires Accepted(cfg) && ResolveWorker(cfg, id).Resolved? && ResolveWorker(cfg, id).worker.paneMode == Tui
    ensures ResolveWorker(cfg, id).worker.kind == Persistent && cfg.backend != Some(Headless)
  {
    hide SkillNamesOk, ReadOnlyOk, LlmOk, RoleOk, SpecOf, WithContractSkill;
    ResolvedParts(cfg, id);
    assert WorkerOk(cfg, FindWorker(cfg.workers, id).value);
  }

  lemma SessionNameIsOneSegment(base: string, name: string)
    requires IsSessionName(name)
    ensures Segments(base + "/" + name) == Segments(base) + [name]
  {
    SegmentsBelow(base, name);
    assert '/' !in name;
    SplitOne(name, '/');
  }

  /** The result contract's skill is always there, the configured ones follow in order, and each name is
      one segment under whatever directory it is joined to. */
  lemma SkillsAreSegments(cfg: Config, id: string, base: string)
    requires Accepted(cfg) && ResolveWorker(cfg, id).Resolved?
    ensures var skills := ResolveWorker(cfg, id).worker.skills;
            && CONTRACT_SKILL in skills
            && forall i :: 0 <= i < |skills| ==> Segments(base + "/" + skills[i]) == Segments(base) + [skills[i]]
  {
    hide PaneModeOk, ReadOnlyOk, LlmOk, SpecOf, IsSessionName;
    ResolvedParts(cfg, id);
    var entry := FindWorker(cfg.workers, id).value;
    assert WorkerOk(cfg, entry);
    assert SkillNamesOk(RoleOf(cfg, entry.role).value.skills) by {
      if entry.role in cfg.roles { assert RoleOk(cfg, entry.role, cfg.roles[entry.role]); }
    }
    var skills := ResolveWorker(cfg, id).worker.skills;
    ContractSkillName();
    forall i | 0 <= i < |skills| ensures Segments(base + "/" + skills[i]) == Segments(base) + [skills[i]] {
      SessionNameIsOneSegment(base, skills[i]);
    }
  }

  lemma ContractSkillName()
    ensures IsSessionName(CONTRACT_SKILL)
  {
  }

  /** A resolved worker has a model, and its endpoint and key never throw; they are a declared block's
      own (or the flat keys) exactly when the provider's name is not one that every object inherits. */
  lemma EndpointsAreDeclared(cfg: Config, id: string)
    requires Accepted(cfg) && ResolveWorker(cfg, id).Resolved?
    ensures var w := ResolveWorker(cfg, id).worker;
            && w.model != ""
            && !ProviderBaseUrl(cfg.llm, w.provider).Throws? && !ProviderApiKeyEnv(cfg.llm, w.provider).Throws?
            && (ProviderBaseUrl(cfg.llm, w.provider).Set? && ProviderApiKeyEnv(cfg.llm, w.provider).Set?
                <==> cfg.llm.providers.None? || w.provider in cfg.llm.providers.value || w.provider !in INHERITED)
  {
    hide SpecOf, WithContractSkill, Accepted;
  }

  predicate NamesNoProvider(cfg: Config, spec: Spec) {
    cfg.llm.providers.Some? && Get(cfg.llm.providers.value, spec.provider).Absent?
  }

  /** Each worker of an accepted document resolves, unless its own model string leaves no model or names
      a provider nobody declared; a string without a prefix never does the second. */
  lemma AcceptedResolves(cfg: Config, i: nat)
    requires Accepted(cfg) && i < |cfg.workers|
    ensures RoleOf(cfg, cfg.workers[i].role).Some?
    ensures var w := cfg.workers[i];
            var spec, resolution := SpecOf(cfg, w.fields, RoleOf(cfg, w.role).value), ResolveWorker(cfg, w.id);
            && (resolution.EmptyModel? <==> spec.model == "")
            && (resolution.UndeclaredProvider? <==> spec.model != "" && NamesNoProvider(cfg, spec))
            && (resolution.Resolved? <==> spec.model != "" && !NamesNoProvider(cfg, spec))
            && (resolution.Resolved? ==>
                  resolution.worker.provider == spec.provider && resolution.worker.model == spec.model)
            && (spec.provider == cfg.llm.provider ==> !NamesNoProvider(cfg, spec))
  {
    hide SpecOf, WithContractSkill, SkillNamesOk, ReadOnlyOk, PaneModeOk, RoleOk;
    var w := cfg.workers[i];
    assert WorkerOk(cfg, w);
    var found := FindWorker(cfg.workers, w.id);
    assert found.Some?;
    var j :| 0 <= j < |cfg.workers| && cfg.workers[j] == found.value;
    assert i == j;
  }

  // ------------------------------------------------------------ an inherited name

  const BLOCK := Provider("http://a/v1", "KEY", false, [])

  /** One worker, whose model string names a method that every object has. */
  function InheritedDocument(): Config {
    Config(None, Llm("omlx", "", "", "m", None, [], Some(map["omlx" := BLOCK])), NO_FIELDS, map["r" := NO_FIELDS],
           [WorkerEntry("w", "r", NO_FIELDS.(model := Some("valueOf/m")))])
  }

  /** An accepted document whose worker resolves to a provider with neither endpoint nor key. */
  lemma InheritedNameHasNoEndpoint()
    ensures Accepted(InheritedDocument()) && ResolveWorker(InheritedDocument(), "w").Resolved?
    ensures var provider := ResolveWorker(InheritedDocument(), "w").worker.provider;
            ProviderBaseUrl(InheritedDocument().llm, provider).Unset?
            && ProviderApiKeyEnv(InheritedDocument().llm, provider).Unset?
  {
    hide SpecOf;
    var cfg := InheritedDocument();
    InheritedSpec();
    InheritedIsAccepted();
    AcceptedResolves(cfg, 0);
  }

  lemma InheritedSpec()
    ensures var cfg := InheritedDocument();
            SpecOf(cfg, cfg.workers[0].fields, NO_FIELDS) == Spec("valueOf", "m", None)
  {
    hide IsLevel, FirstOf, SplitPrefix, TagStyle;
    var cfg := InheritedDocument();
    assert "valueOf" + "/" + "m" == "valueOf/m";
    assert LastOf("m", ':') == -1;
    PrefixedModelIsKept("valueOf", "m", cfg.llm.provider, None, p => TagStyle(cfg.llm, p));
  }

  lemma InheritedIsAccepted()
    ensures Accepted(InheritedDocument())
  {
    var cfg := InheritedDocument();
    assert IsSessionName("r") && IsProviderKey("omlx");
    assert WorkerOk(cfg, cfg.workers[0]);
    assert RoleOk(cfg, "r", NO_FIELDS);
  }
}
