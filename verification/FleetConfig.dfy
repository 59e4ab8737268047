/** The parts of a parsed `fleet.yaml` that resolution reads (`src/config/schema.ts`). */
module FleetConfig {
  import opened Optional
  import opened StringOps
  import opened LaunchArgv

  // ------------------------------------------------------------------ records

  /** Looking a name up in a record: an entry of its own, a name every object inherits, or nothing. */
  datatype Slot<T> = Own(value: T) | Inherited | Absent

  const INHERITED: set<string> := {
    "constructor", "hasOwnProperty", "isPrototypeOf", "propertyIsEnumerable", "toLocaleString", "toString", "valueOf",
    "__defineGetter__", "__defineSetter__", "__lookupGetter__", "__lookupSetter__", "__proto__"}

  function Get<T>(record: map<string, T>, name: string): (slot: Slot<T>)
    ensures slot.Own? <==> name in record
    ensures slot.Own? ==> slot.value == record[name]
  {
    if name in record then Own(record[name]) else if name in INHERITED then Inherited else Absent
  }

  // ----------------------------------------------------------------- document

  datatype Tool = Read | Bash | Edit | Write | Grep | Find | Ls | SubmitReport | DispatchRequest | GetReplies

  datatype Kind = Persistent | Oneshot

  datatype Backend = Cmux | Tmux | Headless

  /** The fields that defaults, roles and workers share. */
  datatype RoleFields = RoleFields(
    model: Option<string>, thinking: Option<string>, tools: Option<seq<Tool>>, skills: Option<seq<string>>,
    paneMode: Option<PaneMode>, kind: Option<Kind>, readOnly: Option<bool>)

  const NO_FIELDS := RoleFields(None, None, None, None, None, None, None)

  datatype WorkerEntry = WorkerEntry(id: string, role: string, fields: RoleFields)

  datatype Provider = Provider(baseUrl: string, apiKeyEnv: string, tagStyle: bool, modelsAllowlist: seq<string>)

  datatype Llm = Llm(
    provider: string, baseUrl: string, apiKeyEnv: string, model: string, thinking: Option<string>,
    modelsAllowlist: seq<string>, providers: Option<map<string, Provider>>)

  datatype Config = Config(
    backend: Option<Backend>, llm: Llm, defaults: RoleFields, roles: map<string, RoleFields>,
    workers: seq<WorkerEntry>)

  function Or<T>(first: Option<T>, second: Option<T>): Option<T> { if first.Some? then first else second }

  function OrElse<T>(first: Option<T>, value: T): T { if first.Some? then first.value else value }

  /** `^[A-Za-z0-9](?:[A-Za-z0-9._-]*[A-Za-z0-9])?$`, at most 64 long. */
  predicate IsSessionName(s: string) {
    && 0 < |s| <= 64 && IsNameStart(s[0]) && IsNameStart(s[|s| - 1])
    && forall i :: 0 <= i < |s| ==> IsNameChar(s[i])
  }
}
