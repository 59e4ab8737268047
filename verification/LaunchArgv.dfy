/** The launch of one worker (`src/config/render.ts`): a Pi argv, and the `docker run` argv around it. */
module LaunchArgv {
  import opened Optional
  import opened StringOps
  import opened Paths

  datatype PaneMode = Rpc | Tui

  datatype Isolation = Worktree | SharedReadOnly | NoCode

  /** What resolving a worker leaves for its launch. */
  datatype Worker = Worker(
    id: string, role: string, provider: string, model: string, thinking: Option<string>,
    tools: Option<seq<string>>, excludeTools: Option<seq<string>>, skills: seq<string>, paneMode: PaneMode,
    autoTrigger: bool, isolation: Isolation, cloudAccess: bool)

  /** The fleet's container settings, and whether it declares a `providers:` map. */
  datatype Docker = Docker(
    readOnlyRoot: bool, scratchExec: bool, scratchSize: string, pidsLimit: nat, memory: string, cpus: string,
    network: string, flat: bool, kubeconfig: bool)

  /** `repo` and `cloneSource` are absolute; `runRoot` is the run's own directory. */
  datatype Options = Options(
    runId: string, runRoot: string, repo: string, image: string, hasBriefing: bool, cloneSource: Option<string>)

  // ---------------------------------------------------------------- elements

  /** What one push puts on an argv. */
  datatype Arg = Flag(name: string) | Pair(name: string, value: string) | Word(text: string)

  function ArgTexts(a: Arg): (texts: seq<string>)
    ensures texts != []
  {
    match a
    case Flag(name) => [name]
    case Pair(name, value) => [name, value]
    case Word(text) => [text]
  }

  function Texts(args: seq<Arg>): seq<string> {
    if args == [] then [] else ArgTexts(args[0]) + Texts(args[1..])
  }

  lemma {:induction false} TextsConcat(xs: seq<Arg>, ys: seq<Arg>)
    ensures Texts(xs + ys) == Texts(xs) + Texts(ys)
    decreases xs
  {
    if xs == [] {
      assert xs + ys == ys;
    } else {
      assert (xs + ys)[1..] == xs[1..] + ys;
      TextsConcat(xs[1..], ys);
    }
  }

  // ------------------------------------------------------------------ Pi argv

  const TRUNCATION_RECOVERY_PATH := "/opt/pifleet/truncation-recovery.ts"
  const REPORT_TOOLS_PATH := "/opt/pifleet/report-tools.ts"
  const OUTPUT_TOKEN_CAP_PATH := "/opt/pifleet/output-token-cap.ts"
  const DISPATCH_TRIGGER_PATH := "/opt/pifleet/dispatch-trigger.ts"
  const THEMES_DIR := "/opt/pifleet/themes"
  const BRIEFING_MOUNT := "/briefing/system-append.md"

  function ModeArgs(w: Worker): seq<Arg> { if w.paneMode == Tui then [] else [Pair("--mode", "rpc")] }

  function SessionArgs(w: Worker): seq<Arg> {
    [Pair("--session-id", w.id), Pair("--session-dir", "/sessions"), Flag("--no-extensions"), Flag("--no-skills"),
     Flag("--no-context-files"), Pair("--theme", THEMES_DIR)]
  }

  function ExtensionArgs(w: Worker): seq<Arg> {
    (if w.paneMode == Tui && w.autoTrigger then [Pair("--extension", DISPATCH_TRIGGER_PATH)] else [])
    + [Pair("--extension", TRUNCATION_RECOVERY_PATH), Pair("--extension", REPORT_TOOLS_PATH),
       Pair("--extension", OUTPUT_TOKEN_CAP_PATH)]
  }

  function ModelArgs(w: Worker): seq<Arg> {
    [Pair("--provider", w.provider), Pair("--model", w.model)]
    + (if w.thinking.Some? then [Pair("--thinking", w.thinking.value)] else [])
  }

  function ToolArgs(w: Worker): seq<Arg> {
    (if w.tools.Some? then [Pair("--tools", Join(w.tools.value, ','))] else [])
    + (if w.excludeTools.Some? && w.excludeTools.value != [] then
         [Pair("--exclude-tools", Join(w.excludeTools.value, ','))] else [])
  }

  function SkillArgs(skills: seq<string>): seq<Arg> {
    seq(|skills|, i requires 0 <= i < |skills| => Pair("--skill", "/skills/" + skills[i]))
  }

  function BriefingArgs(hasBriefing: bool): seq<Arg> {
    if hasBriefing then [Pair("--append-system-prompt", BRIEFING_MOUNT)] else []
  }

  function StartFlags(w: Worker): seq<Arg> { ModeArgs(w) + SessionArgs(w) + ExtensionArgs(w) }

  function TaskFlags(w: Worker, hasBriefing: bool): seq<Arg> {
    ModelArgs(w) + ToolArgs(w) + BriefingArgs(hasBriefing) + SkillArgs(w.skills)
  }

  /** The Pi argv behind its program name. */
  function PiFlags(w: Worker, hasBriefing: bool): seq<Arg> { StartFlags(w) + TaskFlags(w, hasBriefing) }

  // -------------------------------------------------------------- mount table

  datatype Mount = Bind(host: string, target: string, readOnly: bool) | Volume(name: string, target: string)

  function MountSpec(m: Mount): string {
    match m
    case Bind(host, target, readOnly) => host + ":" + (target + if readOnly then ":ro" else "")
    case Volume(name, target) => name + ":" + target
  }

  function MountArgs(mounts: seq<Mount>): seq<Arg> {
    seq(|mounts|, i requires 0 <= i < |mounts| => Pair("-v", MountSpec(mounts[i])))
  }

  lemma MountArgsConcat(xs: seq<Mount>, ys: seq<Mount>)
    ensures MountArgs(xs + ys) == MountArgs(xs) + MountArgs(ys)
  {
    hide MountSpec;
  }

  function WorkerDir(o: Options, id: string): string { o.runRoot + "/workers/" + id }

  /** The last segment that is not empty, which names the clone source in the container. */
  function CloneMount(source: string): string {
    var segments := Segments(source);
    "/repos-src/" + if segments == [] then "" else segments[|segments| - 1]
  }

  predicate CloneIsNameless(o: Options) {
    o.cloneSource.Some? && o.cloneSource.value != "" && Segments(o.cloneSource.value) == []
  }

  function CloneMounts(o: Options): seq<Mount> {
    if o.cloneSource.Some? && o.cloneSource.value != "" then
      [Bind(o.cloneSource.value, CloneMount(o.cloneSource.value), true)]
    else []
  }

  function CodeMounts(w: Worker, o: Options): seq<Mount> {
    match w.isolation
    case Worktree => [Bind(o.runRoot + "/worktrees/" + w.id, "/workspace", false)]
    case SharedReadOnly => [Bind(o.repo, "/workspace", true)]
    case NoCode => []
  }

  function RunMounts(w: Worker, o: Options): seq<Mount> {
    [Bind(o.runRoot + "/outbox/" + w.id, "/outbox", false),
     Bind(o.runRoot + "/replies/" + w.id, "/replies", true),
     Bind(o.runRoot + "/sessions", "/sessions", false),
     Bind(o.runRoot + "/skills/" + w.role, "/skills", true)]
  }

  function PolicyMounts(w: Worker, o: Options): seq<Mount> {
    [Bind(WorkerDir(o, w.id) + "/cloud-allow", "/policy/cloud-allow", true),
     Bind(WorkerDir(o, w.id) + "/task-policy", "/policy/task", true),
     Bind(WorkerDir(o, w.id) + "/dispatch-policy", "/policy/dispatch", true),
     Bind(WorkerDir(o, w.id) + "/replies-policy", "/policy/replies", true),
     Bind(WorkerDir(o, w.id) + "/secrets", "/secrets", true)]
  }

  function StateMounts(w: Worker, d: Docker, o: Options): seq<Mount> {
    [Volume("pifleet-piagent-" + w.id, "/home/pi/.pi/agent")]
    + (if o.hasBriefing then [Bind(WorkerDir(o, w.id) + "/system-append.md", BRIEFING_MOUNT, true)] else [])
    + (if d.kubeconfig && w.cloudAccess then [Bind(WorkerDir(o, w.id) + "/kubeconfig", "/home/pi/.kube/config", true)]
       else [])
  }

  function WorkerMounts(w: Worker, d: Docker, o: Options): seq<Mount> {
    CodeMounts(w, o) + RunMounts(w, o) + PolicyMounts(w, o) + StateMounts(w, d, o)
  }

  // -------------------------------------------------------------- docker argv

  const WORKER_UID := "10001"
  const GCLOUD_CONFIG_DIR := "/home/pi/.config/gcloud"

  function EgressNetwork(w: Worker, d: Docker): string {
    if d.flat then d.network else d.network + "-" + w.provider
  }

  function ContainerName(w: Worker, o: Options): string { "pifleet-" + o.runId + "-" + w.id }

  function HeadArgs(w: Worker, o: Options): seq<Arg> {
    [Word("docker"), Word("run"), Flag("-i")]
    + (if w.paneMode == Tui then [Flag("-t")] else [])
    + [Flag("--rm"), Pair("--name", ContainerName(w, o))]
  }

  function HardeningArgs(d: Docker): seq<Arg> {
    [Pair("--user", WORKER_UID + ":" + WORKER_UID), Pair("--security-opt", "no-new-privileges"),
     Pair("--cap-drop", "ALL")]
    + (if d.readOnlyRoot then [Flag("--read-only")] else [])
  }

  /** `<target>:<option>,<option>…` */
  function TmpfsSpec(target: string, options: seq<string>): string { target + ":" + Join(options, ',') }

  const OWNED := ["uid=" + WORKER_UID, "gid=" + WORKER_UID]

  function ScratchOptions(d: Docker): seq<string> {
    ["rw", if d.scratchExec then "exec" else "noexec", "nosuid", "nodev", "size=" + d.scratchSize] + OWNED
  }

  function ScratchArgs(d: Docker): seq<Arg> {
    [Pair("--tmpfs", TmpfsSpec("/tmp", ["rw", "noexec", "nosuid", "size=256m"])),
     Pair("--tmpfs", TmpfsSpec("/run", ["rw", "noexec", "nosuid", "size=1m"] + OWNED)),
     Pair("--tmpfs", TmpfsSpec("/home/pi/repos", ScratchOptions(d)))]
  }

  function GcloudArgs(): seq<Arg> {
    [Pair("--tmpfs", TmpfsSpec(GCLOUD_CONFIG_DIR, ["rw", "noexec", "nosuid", "size=16m"] + OWNED))]
  }

  function LimitArgs(d: Docker): seq<Arg> {
    [Pair("--pids-limit", NatText(d.pidsLimit)), Pair("--memory", d.memory), Pair("--cpus", d.cpus)]
  }

  function BeforeNetwork(w: Worker, d: Docker, o: Options): seq<Arg> {
    HeadArgs(w, o) + HardeningArgs(d) + ScratchArgs(d) + MountArgs(CloneMounts(o)) + GcloudArgs()
    + LimitArgs(d)
  }

  function AfterNetwork(w: Worker, d: Docker, o: Options): seq<Arg> {
    [Pair("--env-file", WorkerDir(o, w.id) + "/env")] + MountArgs(WorkerMounts(w, d, o)) + [Word(o.image)]
  }

  function DockerArgs(w: Worker, d: Docker, o: Options): seq<Arg> {
    BeforeNetwork(w, d, o) + [Pair("--network", EgressNetwork(w, d))] + AfterNetwork(w, d, o)
    + PiFlags(w, o.hasBriefing)
  }

  // -------------------------------------------------------------- the builders

  /** An argv that grows by pushes. */
  class Argv {
    var elements: seq<string>
    ghost var args: seq<Arg>

    ghost predicate Valid()
      reads this
    {
      elements == Texts(args)
    }

    constructor ()
      ensures Valid() && args == []
    {
      elements, args := [], [];
    }

    method Push(arg: Arg)
      requires Valid()
      modifies this
      ensures Valid() && args == old(args) + [arg]
    {
      TextsConcat(args, [arg]);
      assert Texts([arg]) == ArgTexts(arg) + Texts([]);
      elements := elements + ArgTexts(arg);
      args := args + [arg];
    }

    method PushMount(mount: Mount)
      requires Valid()
      modifies this
      ensures Valid() && args == old(args) + MountArgs([mount])
    {
      Push(Pair("-v", MountSpec(mount)));
    }
  }

  method BuildPiArgv(w: Worker, hasBriefing: bool) returns (argv: seq<string>)
    ensures argv == Texts([Word("pi")] + PiFlags(w, hasBriefing))
  {
    hide StartFlags, TaskFlags, Texts;
    var a := new Argv();
    a.Push(Word("pi"));
    PushStart(w, a);
    PushTask(w, hasBriefing, a);
    assert a.args == [Word("pi")] + PiFlags(w, hasBriefing);
    return a.elements;
  }

  method PushStart(w: Worker, a: Argv)
    requires a.Valid()
    modifies a
    ensures a.Valid() && a.args == old(a.args) + StartFlags(w)
  {
    hide ModeArgs, SessionArgs, ExtensionArgs;
    PushSession(w, a);
    PushExtensions(w, a);
  }

  method PushTask(w: Worker, hasBriefing: bool, a: Argv)
    requires a.Valid()
    modifies a
    ensures a.Valid() && a.args == old(a.args) + TaskFlags(w, hasBriefing)
  {
    hide ModelArgs, ToolArgs, BriefingArgs, SkillArgs;
    PushModel(w, a);
    PushTools(w, a);
    PushBriefing(w, hasBriefing, a);
  }

  method PushSession(w: Worker, a: Argv)
    requires a.Valid()
    modifies a
    ensures a.Valid() && a.args == old(a.args) + ModeArgs(w) + SessionArgs(w)
  {
    if w.paneMode != Tui { a.Push(Pair("--mode", "rpc")); }
    a.Push(Pair("--session-id", w.id));
    a.Push(Pair("--session-dir", "/sessions"));
    a.Push(Flag("--no-extensions"));
    a.Push(Flag("--no-skills"));
    a.Push(Flag("--no-context-files"));
    a.Push(Pair("--theme", THEMES_DIR));
  }

  method PushExtensions(w: Worker, a: Argv)
    requires a.Valid()
    modifies a
    ensures a.Valid() && a.args == old(a.args) + ExtensionArgs(w)
  {
    if w.paneMode == Tui && w.autoTrigger { a.Push(Pair("--extension", DISPATCH_TRIGGER_PATH)); }
    a.Push(Pair("--extension", TRUNCATION_RECOVERY_PATH));
    a.Push(Pair("--extension", REPORT_TOOLS_PATH));
    a.Push(Pair("--extension", OUTPUT_TOKEN_CAP_PATH));
  }

  method PushModel(w: Worker, a: Argv)
    requires a.Valid()
    modifies a
    ensures a.Valid() && a.args == old(a.args) + ModelArgs(w)
  {
    a.Push(Pair("--provider", w.provider));
    a.Push(Pair("--model", w.model));
    if w.thinking.Some? { a.Push(Pair("--thinking", w.thinking.value)); }
  }

  method PushTools(w: Worker, a: Argv)
    requires a.Valid()
    modifies a
    ensures a.Valid() && a.args == old(a.args) + ToolArgs(w)
  {
    hide Join;
    if w.tools.Some? { a.Push(Pair("--tools", Join(w.tools.value, ','))); }
    if w.excludeTools.Some? && |w.excludeTools.value| > 0 {
      a.Push(Pair("--exclude-tools", Join(w.excludeTools.value, ',')));
    }
  }

  method PushBriefing(w: Worker, hasBriefing: bool, a: Argv)
    requires a.Valid()
    modifies a
    ensures a.Valid() && a.args == old(a.args) + BriefingArgs(hasBriefing) + SkillArgs(w.skills)
  {
    if hasBriefing { a.Push(Pair("--append-system-prompt", BRIEFING_MOUNT)); }
    ghost var before := a.args;
    for i := 0 to |w.skills|
      invariant a.Valid() && a.args == before + SkillArgs(w.skills[..i])
    {
      a.Push(Pair("--skill", "/skills/" + w.skills[i]));
      assert SkillArgs(w.skills[..i + 1]) == SkillArgs(w.skills[..i]) + [Pair("--skill", "/skills/" + w.skills[i])];
    }
    assert w.skills[..|w.skills|] == w.skills;
  }

  /** No argv when the clone source has no directory name to be mounted under. */
  method BuildDockerArgv(w: Worker, d: Docker, o: Options, piFlags: seq<string>) returns (argv: Option<seq<string>>)
    requires piFlags == Texts(PiFlags(w, o.hasBriefing))
    ensures argv == if CloneIsNameless(o) then None else Some(Texts(DockerArgs(w, d, o)))
  {
    hide BeforeNetwork, AfterNetwork, PiFlags, EgressNetwork, Texts, CloneIsNameless;
    if CloneIsNameless(o) { return None; }
    var a := new Argv();
    PushBefore(w, d, o, a);
    a.Push(Pair("--network", EgressNetwork(w, d)));
    PushAfter(w, d, o, a);
    TextsConcat(a.args, PiFlags(w, o.hasBriefing));
    return Some(a.elements + piFlags);
  }

  method PushBefore(w: Worker, d: Docker, o: Options, a: Argv)
    requires a.Valid() && a.args == []
    modifies a
    ensures a.Valid() && a.args == BeforeNetwork(w, d, o)
  {
    hide HeadArgs, HardeningArgs, ScratchArgs, GcloudArgs, LimitArgs, MountArgs, CloneMounts;
    PushHead(w, o, a);
    PushHardening(d, a);
    PushScratch(d, a);
    PushClone(o, a);
    PushGcloud(a);
    PushLimits(d, a);
  }

  method PushAfter(w: Worker, d: Docker, o: Options, a: Argv)
    requires a.Valid()
    modifies a
    ensures a.Valid() && a.args == old(a.args) + AfterNetwork(w, d, o)
  {
    hide MountArgs, WorkerMounts, WorkerDir;
    a.Push(Pair("--env-file", WorkerDir(o, w.id) + "/env"));
    PushMounts(w, d, o, a);
    a.Push(Word(o.image));
  }

  method PushHead(w: Worker, o: Options, a: Argv)
    requires a.Valid() && a.args == []
    modifies a
    ensures a.Valid() && a.args == HeadArgs(w, o)
  {
    a.Push(Word("docker"));
    a.Push(Word("run"));
    a.Push(Flag("-i"));
    if w.paneMode == Tui { a.Push(Flag("-t")); }
    a.Push(Flag("--rm"));
    a.Push(Pair("--name", ContainerName(w, o)));
  }

  method PushHardening(d: Docker, a: Argv)
    requires a.Valid()
    modifies a
    ensures a.Valid() && a.args == old(a.args) + HardeningArgs(d)
  {
    a.Push(Pair("--user", WORKER_UID + ":" + WORKER_UID));
    a.Push(Pair("--security-opt", "no-new-privileges"));
    a.Push(Pair("--cap-drop", "ALL"));
    if d.readOnlyRoot { a.Push(Flag("--read-only")); }
  }

  method PushScratch(d: Docker, a: Argv)
    requires a.Valid()
    modifies a
    ensures a.Valid() && a.args == old(a.args) + ScratchArgs(d)
  {
    hide Join;
    a.Push(Pair("--tmpfs", TmpfsSpec("/tmp", ["rw", "noexec", "nosuid", "size=256m"])));
    a.Push(Pair("--tmpfs", TmpfsSpec("/run", ["rw", "noexec", "nosuid", "size=1m"] + OWNED)));
    a.Push(Pair("--tmpfs", TmpfsSpec("/home/pi/repos", ScratchOptions(d))));
  }

  method PushClone(o: Options, a: Argv)
    requires a.Valid()
    modifies a
    ensures a.Valid() && a.args == old(a.args) + MountArgs(CloneMounts(o))
  {
    hide CloneMount, MountSpec;
    if o.cloneSource.Some? && o.cloneSource.value != "" {
      a.PushMount(Bind(o.cloneSource.value, CloneMount(o.cloneSource.value), true));
    }
  }

  method PushGcloud(a: Argv)
    requires a.Valid()
    modifies a
    ensures a.Valid() && a.args == old(a.args) + GcloudArgs()
  {
    hide Join;
    a.Push(Pair("--tmpfs", TmpfsSpec(GCLOUD_CONFIG_DIR, ["rw", "noexec", "nosuid", "size=16m"] + OWNED)));
  }

  method PushLimits(d: Docker, a: Argv)
    requires a.Valid()
    modifies a
    ensures a.Valid() && a.args == old(a.args) + LimitArgs(d)
  {
    a.Push(Pair("--pids-limit", NatText(d.pidsLimit)));
    a.Push(Pair("--memory", d.memory));
    a.Push(Pair("--cpus", d.cpus));
  }

  method PushMounts(w: Worker, d: Docker, o: Options, a: Argv)
    requires a.Valid()
    modifies a
    ensures a.Valid() && a.args == old(a.args) + MountArgs(WorkerMounts(w, d, o))
  {
    hide MountArgs, CodeMounts, RunMounts, PolicyMounts, StateMounts;
    PushCode(w, o, a);
    PushRun(w, o, a);
    PushPolicy(w, o, a);
    PushState(w, d, o, a);
    MountArgsConcat(CodeMounts(w, o), RunMounts(w, o));
    MountArgsConcat(CodeMounts(w, o) + RunMounts(w, o), PolicyMounts(w, o));
    MountArgsConcat(CodeMounts(w, o) + RunMounts(w, o) + PolicyMounts(w, o), StateMounts(w, d, o));
  }

  method PushCode(w: Worker, o: Options, a: Argv)
    requires a.Valid()
    modifies a
    ensures a.Valid() && a.args == old(a.args) + MountArgs(CodeMounts(w, o))
  {
    hide MountSpec;
    match w.isolation
    case Worktree => a.PushMount(Bind(o.runRoot + "/worktrees/" + w.id, "/workspace", false));
    case SharedReadOnly => a.PushMount(Bind(o.repo, "/workspace", true));
    case NoCode =>
  }

  method PushRun(w: Worker, o: Options, a: Argv)
    requires a.Valid()
    modifies a
    ensures a.Valid() && a.args == old(a.args) + MountArgs(RunMounts(w, o))
  {
    hide MountSpec;
    a.PushMount(Bind(o.runRoot + "/outbox/" + w.id, "/outbox", false));
    a.PushMount(Bind(o.runRoot + "/replies/" + w.id, "/replies", true));
    a.PushMount(Bind(o.runRoot + "/sessions", "/sessions", false));
    a.PushMount(Bind(o.runRoot + "/skills/" + w.role, "/skills", true));
  }

  method PushPolicy(w: Worker, o: Options, a: Argv)
    requires a.Valid()
    modifies a
    ensures a.Valid() && a.args == old(a.args) + MountArgs(PolicyMounts(w, o))
  {
    hide MountSpec, WorkerDir;
    a.PushMount(Bind(WorkerDir(o, w.id) + "/cloud-allow", "/policy/cloud-allow", true));
    a.PushMount(Bind(WorkerDir(o, w.id) + "/task-policy", "/policy/task", true));
    a.PushMount(Bind(WorkerDir(o, w.id) + "/dispatch-policy", "/policy/dispatch", true));
    a.PushMount(Bind(WorkerDir(o, w.id) + "/replies-policy", "/policy/replies", true));
    a.PushMount(Bind(WorkerDir(o, w.id) + "/secrets", "/secrets", true));
  }

  method PushState(w: Worker, d: Docker, o: Options, a: Argv)
    requires a.Valid()
    modifies a
    ensures a.Valid() && a.args == old(a.args) + MountArgs(StateMounts(w, d, o))
  {
    hide MountSpec, WorkerDir;
    a.PushMount(Volume("pifleet-piagent-" + w.id, "/home/pi/.pi/agent"));
    if o.hasBriefing { a.PushMount(Bind(WorkerDir(o, w.id) + "/system-append.md", BRIEFING_MOUNT, true)); }
    if d.kubeconfig && w.cloudAccess {
      a.PushMount(Bind(WorkerDir(o, w.id) + "/kubeconfig", "/home/pi/.kube/config", true));
    }
  }
}
