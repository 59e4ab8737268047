/** Which host paths a rendered launch mounts, where and how, and which places it leaves writable in its
    container: read off the argv itself. */
module LaunchPlaces {
  import opened StringOps
  import opened Paths
  import opened LaunchArgv
  import opened LaunchAgreement
  import opened LaunchRoundTrip
  import opened LaunchContents
  import opened LaunchOptions

  // ------------------------------------------------------------------ the reader

  /** A host path or a volume behind a place of the container; a memory file system at one. */
  datatype Entry = Entry(source: string, target: string, options: seq<string>)

  datatype Memory = Memory(target: string, options: seq<string>)

  predicate ReadOnly(options: seq<string>) { "ro" in options }

  /** `<source>:<target>[:<options>]` */
  function ReadMount(spec: string): Entry {
    var parts := Split(spec, ':');
    if |parts| < 2 then Entry("", spec, [])
    else Entry(parts[0], parts[1], if |parts| > 2 then Split(parts[2], ',') else [])
  }

  /** `<target>[:<options>]` */
  function ReadMemory(spec: string): Memory {
    var parts := Split(spec, ':');
    Memory(parts[0], if |parts| > 1 then Split(parts[1], ',') else [])
  }

  function MountsOn(argv: seq<string>): seq<Entry> { ReadMounts(ValuesOf(RunOf(argv).options, "-v")) }

  function MemoryOn(argv: seq<string>): seq<Memory> { ReadMemories(ValuesOf(RunOf(argv).options, "--tmpfs")) }

  function ReadMounts(specs: seq<string>): seq<Entry> {
    seq(|specs|, i requires 0 <= i < |specs| => ReadMount(specs[i]))
  }

  function ReadMemories(specs: seq<string>): seq<Memory> {
    seq(|specs|, i requires 0 <= i < |specs| => ReadMemory(specs[i]))
  }

  /** The mounts that the container may write through. */
  function Writable(entries: seq<Entry>): seq<Entry> {
    if entries == [] then [] else (if ReadOnly(entries[0].options) then [] else [entries[0]]) + Writable(entries[1..])
  }

  function WritableMemories(memories: seq<Memory>): seq<string> {
    if memories == [] then []
    else (if ReadOnly(memories[0].options) then [] else [memories[0].target]) + WritableMemories(memories[1..])
  }

  function Targets(entries: seq<Entry>): seq<string> {
    seq(|entries|, i requires 0 <= i < |entries| => entries[i].target)
  }

  /** Every place that a container started with this argv may write. */
  function WritablePlaces(argv: seq<string>): seq<string> {
    (if Flag("--read-only") in RunOf(argv).options then [] else ["/"])
    + WritableMemories(MemoryOn(argv)) + Targets(Writable(MountsOn(argv)))
  }

  // -------------------------------------------------------------- spelled entries

  lemma {:induction false} JoinHoldsNo(parts: seq<string>, mark: char, c: char)
    requires c != mark && forall i :: 0 <= i < |parts| ==> c !in parts[i]
    ensures c !in Join(parts, mark)
    decreases parts
  {
    if |parts| > 1 {
      JoinHoldsNo(parts[1..], mark, c);
    }
  }

  predicate IsOption(option: string) { ':' !in option && ',' !in option }

  lemma MemoryIsRead(target: string, options: seq<string>)
    requires ':' !in target && options != [] && forall i :: 0 <= i < |options| ==> IsOption(options[i])
    ensures ReadMemory(TmpfsSpec(target, options)) == Memory(target, options)
  {
    hide Split;
    JoinHoldsNo(options, ',', ':');
    SplitConcat(target, Join(options, ','), ':');
    SplitOne(target, ':');
    SplitOne(Join(options, ','), ':');
    assert target + ":" + Join(options, ',') == target + [':'] + Join(options, ',');
    SplitUndoesJoin(options, ',');
  }

  function EntryOf(m: Mount): Entry {
    match m
    case Bind(host, target, readOnly) => Entry(host, target, if readOnly then ["ro"] else [])
    case Volume(name, target) => Entry(name, target, [])
  }

  lemma MountIsReadBack(m: Mount)
    requires IsReadable(m) && ':' !in m.target
    ensures ReadMount(MountSpec(m)) == EntryOf(m)
  {
    hide Split;
    SplitOne(m.target, ':');
    match m
    case Bind(host, target, readOnly) =>
      SplitOne(host, ':');
      SplitConcat(host, target + if readOnly then ":ro" else "", ':');
      if readOnly {
        SplitConcat(target, "ro", ':');
        SplitOne("ro", ':');
        SplitOne("ro", ',');
        assert target + ":ro" == target + [':'] + "ro";
      } else {
        assert target + "" == target;
      }
    case Volume(name, target) =>
      assert ':' !in name;
      SplitOne(name, ':');
      SplitConcat(name, target, ':');
  }

  lemma MountsAreReadBack(mounts: seq<Mount>)
    requires PlainTargets(mounts) && forall i :: 0 <= i < |mounts| ==> IsReadable(mounts[i])
    ensures |ReadMounts(MountSpecs(mounts))| == |mounts|
    ensures forall i :: 0 <= i < |mounts| ==> ReadMounts(MountSpecs(mounts))[i] == EntryOf(mounts[i])
  {
    hide IsReadable, ReadMount, MountSpec, EntryOf;
    forall i | 0 <= i < |mounts| ensures ReadMount(MountSpecs(mounts)[i]) == EntryOf(mounts[i]) {
      MountIsReadBack(mounts[i]);
    }
  }

  // --------------------------------------------------------------- target names

  lemma {:induction false} WalkHoldsNo(at: Path, parts: seq<string>, c: char)
    requires forall i :: 0 <= i < |at| ==> c !in at[i]
    requires forall i :: 0 <= i < |parts| ==> c !in parts[i]
    ensures forall i :: 0 <= i < |Walk(at, parts)| ==> c !in Walk(at, parts)[i]
    decreases parts
  {
    if parts != [] {
      WalkHoldsNo(Enter(at, parts[0]), parts[1..], c);
    }
  }

  lemma CloneTargetIsPlain(source: string)
    requires ':' !in source
    ensures ':' !in CloneMount(source)
  {
    SplitHoldsNo(source, '/', ':');
    WalkHoldsNo([], Split(source, '/'), ':');
  }

  predicate PlainTargets(mounts: seq<Mount>) { forall i :: 0 <= i < |mounts| ==> ':' !in mounts[i].target }

  lemma RunTargets(w: Worker, o: Options)
    ensures PlainTargets(CodeMounts(w, o)) && PlainTargets(RunMounts(w, o))
  {
  }

  lemma PolicyTargets(w: Worker, o: Options)
    ensures PlainTargets(PolicyMounts(w, o))
  {
    hide WorkerDir;
  }

  lemma StateTargets(w: Worker, d: Docker, o: Options)
    ensures PlainTargets(StateMounts(w, d, o))
  {
    hide WorkerDir;
    StateTargetNames();
  }

  lemma StateTargetNames()
    ensures ':' !in "/home/pi/.pi/agent" && ':' !in BRIEFING_MOUNT && ':' !in "/home/pi/.kube/config"
  {
  }

  // ------------------------------------------------------------ memory mounts

  /** The size is digits and a unit, as the schema has it. */
  predicate IsSize(s: string) { forall i :: 0 <= i < |s| ==> IsNameStart(s[i]) }

  lemma PlainOptions()
    ensures IsOption("rw") && IsOption("exec") && IsOption("noexec") && IsOption("nosuid") && IsOption("nodev")
    ensures IsOption("size=256m") && IsOption("size=1m") && IsOption("size=16m")
  {
  }

  lemma OwnedOptions()
    ensures |OWNED| == 2 && IsOption(OWNED[0]) && IsOption(OWNED[1])
  {
  }

  lemma SizeOption(size: string)
    requires IsSize(size)
    ensures IsOption("size=" + size)
  {
    var option := "size=" + size;
    assert option[0] == 's' && forall i | 5 <= i < |option| :: option[i] == size[i - 5];
  }

  lemma ScratchIsRead(d: Docker)
    requires IsSize(d.scratchSize)
    ensures ReadMemories(ScratchSpecs(d))
            == [Memory("/tmp", ["rw", "noexec", "nosuid", "size=256m"]),
                Memory("/run", ["rw", "noexec", "nosuid", "size=1m", "uid=10001", "gid=10001"]),
                Memory("/home/pi/repos", ["rw", if d.scratchExec then "exec" else "noexec", "nosuid", "nodev",
                                          "size=" + d.scratchSize, "uid=10001", "gid=10001"])]
  {
    hide ReadMemory, TmpfsSpec, IsOption;
    PlainOptions();
    OwnedOptions();
    SizeOption(d.scratchSize);
    MemoryIsRead("/tmp", ["rw", "noexec", "nosuid", "size=256m"]);
    MemoryIsRead("/run", ["rw", "noexec", "nosuid", "size=1m"] + OWNED);
    MemoryIsRead("/home/pi/repos", ScratchOptions(d));
    OwnedIs();
    var specs := ReadMemories(ScratchSpecs(d));
    assert specs[0] == Memory("/tmp", ["rw", "noexec", "nosuid", "size=256m"]);
    assert specs[1] == Memory("/run", ["rw", "noexec", "nosuid", "size=1m", "uid=10001", "gid=10001"]);
    assert specs[2].options == ["rw", if d.scratchExec then "exec" else "noexec", "nosuid", "nodev",
                                "size=" + d.scratchSize, "uid=10001", "gid=10001"];
  }

  lemma OwnedIs()
    ensures OWNED == ["uid=10001", "gid=10001"]
  {
    assert "uid=" + "10001" == "uid=10001" && "gid=" + "10001" == "gid=10001";
  }

  lemma GcloudIsRead()
    ensures ReadMemories(GcloudSpecs())
            == [Memory("/home/pi/.config/gcloud", ["rw", "noexec", "nosuid", "size=16m", "uid=10001", "gid=10001"])]
  {
    hide ReadMemory, TmpfsSpec, IsOption;
    PlainOptions();
    OwnedOptions();
    OwnedIs();
    assert ':' !in GCLOUD_CONFIG_DIR;
    MemoryIsRead(GCLOUD_CONFIG_DIR, ["rw", "noexec", "nosuid", "size=16m"] + OWNED);
    assert ["rw", "noexec", "nosuid", "size=16m"] + OWNED
        == ["rw", "noexec", "nosuid", "size=16m", "uid=10001", "gid=10001"];
  }

  // ------------------------------------------------------------- main results

  /** The memory file systems of a launch, none of which can run a set-uid program. */
  lemma MemoryIsExactly(w: Worker, d: Docker, o: Options)
    requires !IsDashed(o.image) && IsSize(d.scratchSize)
    ensures MemoryOn(Rendered(w, d, o))
            == [Memory("/tmp", ["rw", "noexec", "nosuid", "size=256m"]),
                Memory("/run", ["rw", "noexec", "nosuid", "size=1m", "uid=10001", "gid=10001"]),
                Memory("/home/pi/repos", ["rw", if d.scratchExec then "exec" else "noexec", "nosuid", "nodev",
                                          "size=" + d.scratchSize, "uid=10001", "gid=10001"]),
                Memory("/home/pi/.config/gcloud", ["rw", "noexec", "nosuid", "size=16m", "uid=10001", "gid=10001"])]
  {
    hide RunOf, Rendered, RunOptions, ValuesOf, PiFlags, Texts, IsDashed, IsSize, ScratchSpecs, GcloudSpecs, MountSpecs,
         CloneMounts, WorkerMounts, NatText, ReadMemory;
    MemorySpecsOf(w, d, o);
    ScratchIsRead(d);
    GcloudIsRead();
    MemoriesConcat(ScratchSpecs(d), GcloudSpecs());
  }

  lemma MemorySpecsOf(w: Worker, d: Docker, o: Options)
    requires !IsDashed(o.image)
    ensures ValuesOf(RunOf(Rendered(w, d, o)).options, "--tmpfs") == ScratchSpecs(d) + GcloudSpecs()
  {
    hide RunOf, Rendered, RunOptions, ValuesOf, PiFlags, Texts, IsDashed, ScratchSpecs, GcloudSpecs, MountSpecs,
         CloneMounts, WorkerMounts, NatText, Mark;
    RunIsRead(w, d, o);
    DockerNames();
    RunValues(w, d, o, "--tmpfs");
  }

  lemma MountSpecsOf(w: Worker, d: Docker, o: Options)
    requires !IsDashed(o.image)
    ensures ValuesOf(RunOf(Rendered(w, d, o)).options, "-v")
            == MountSpecs(CloneMounts(o)) + MountSpecs(WorkerMounts(w, d, o))
  {
    hide RunOf, Rendered, RunOptions, ValuesOf, PiFlags, Texts, IsDashed, ScratchSpecs, GcloudSpecs, MountSpecs,
         CloneMounts, WorkerMounts, NatText, Mark;
    RunIsRead(w, d, o);
    DockerNames();
    RunValues(w, d, o, "-v");
  }

  lemma MemoriesConcat(xs: seq<string>, ys: seq<string>)
    ensures ReadMemories(xs + ys) == ReadMemories(xs) + ReadMemories(ys)
  {
    hide ReadMemory;
  }

  lemma MountsConcat(xs: seq<string>, ys: seq<string>)
    ensures ReadMounts(xs + ys) == ReadMounts(xs) + ReadMounts(ys)
  {
    hide ReadMount;
  }

  /** The clone source is mounted under its own name, if there is one. */
  function CloneEntries(o: Options): seq<Entry> {
    if o.cloneSource.None? || o.cloneSource.value == "" then []
    else
      var names := Segments(o.cloneSource.value);
      [Entry(o.cloneSource.value, "/repos-src/" + if names == [] then "" else names[|names| - 1], ["ro"])]
  }

  function CodeEntries(w: Worker, o: Options): seq<Entry> {
    match w.isolation
    case Worktree => [Entry(o.runRoot + "/worktrees/" + w.id, "/workspace", [])]
    case SharedReadOnly => [Entry(o.repo, "/workspace", ["ro"])]
    case NoCode => []
  }

  lemma CloneIsRead(o: Options)
    requires ColonFree(o)
    ensures ReadMounts(MountSpecs(CloneMounts(o))) == CloneEntries(o)
  {
    hide ReadMount, MountSpec, Segments, IsReadable;
    if o.cloneSource.Some? && o.cloneSource.value != "" {
      CloneTargetIsPlain(o.cloneSource.value);
    }
    CloneIsReadable(o);
    MountsAreReadBack(CloneMounts(o));
  }

  lemma EntriesOf(mounts: seq<Mount>, entries: seq<Entry>)
    requires PlainTargets(mounts) && forall m :: m in mounts ==> IsReadable(m)
    requires |entries| == |mounts| && forall i :: 0 <= i < |mounts| ==> EntryOf(mounts[i]) == entries[i]
    ensures ReadMounts(MountSpecs(mounts)) == entries
  {
    hide ReadMount, MountSpec, IsReadable, EntryOf;
    forall i | 0 <= i < |mounts| ensures IsReadable(mounts[i]) {
      assert mounts[i] in mounts;
    }
    MountsAreReadBack(mounts);
  }

  lemma CodeIsReadBack(w: Worker, o: Options)
    requires HasHostPaths(w, o)
    ensures ReadMounts(MountSpecs(CodeMounts(w, o))) == CodeEntries(w, o)
  {
    hide ReadMount, MountSpec, IsReadable, IsHostText;
    RunTargets(w, o);
    CodeIsReadable(w, o);
    EntriesOf(CodeMounts(w, o), CodeEntries(w, o));
  }

  lemma RunIsReadBack(w: Worker, o: Options)
    requires HasHostPaths(w, o)
    ensures ReadMounts(MountSpecs(RunMounts(w, o)))
            == [Entry(o.runRoot + "/outbox/" + w.id, "/outbox", []),
                Entry(o.runRoot + "/replies/" + w.id, "/replies", ["ro"]),
                Entry(o.runRoot + "/sessions", "/sessions", []),
                Entry(o.runRoot + "/skills/" + w.role, "/skills", ["ro"])]
  {
    hide ReadMount, MountSpec, IsReadable, IsHostText;
    RunTargets(w, o);
    RunIsReadable(w, o);
    EntriesOf(RunMounts(w, o), [Entry(o.runRoot + "/outbox/" + w.id, "/outbox", []),
                                Entry(o.runRoot + "/replies/" + w.id, "/replies", ["ro"]),
                                Entry(o.runRoot + "/sessions", "/sessions", []),
                                Entry(o.runRoot + "/skills/" + w.role, "/skills", ["ro"])]);
  }

  /** The host's own files of a worker. */
  function OwnFile(w: Worker, o: Options, name: string): string { o.runRoot + "/workers/" + w.id + name }

  function PolicyEntries(w: Worker, o: Options): seq<Entry> {
    [Entry(OwnFile(w, o, "/cloud-allow"), "/policy/cloud-allow", ["ro"]),
     Entry(OwnFile(w, o, "/task-policy"), "/policy/task", ["ro"]),
     Entry(OwnFile(w, o, "/dispatch-policy"), "/policy/dispatch", ["ro"]),
     Entry(OwnFile(w, o, "/replies-policy"), "/policy/replies", ["ro"]),
     Entry(OwnFile(w, o, "/secrets"), "/secrets", ["ro"])]
  }

  lemma PolicyIsReadBack(w: Worker, o: Options)
    requires HasHostPaths(w, o)
    ensures ReadMounts(MountSpecs(PolicyMounts(w, o))) == PolicyEntries(w, o)
  {
    hide ReadMount, MountSpec, IsReadable, IsHostText;
    PolicyTargets(w, o);
    PolicyIsReadable(w, o);
    EntriesOf(PolicyMounts(w, o), PolicyEntries(w, o));
  }

  function StateEntries(w: Worker, d: Docker, o: Options): seq<Entry> {
    [Entry("pifleet-piagent-" + w.id, "/home/pi/.pi/agent", [])]
    + (if o.hasBriefing then [Entry(OwnFile(w, o, "/system-append.md"), "/briefing/system-append.md", ["ro"])] else [])
    + (if d.kubeconfig && w.cloudAccess then [Entry(OwnFile(w, o, "/kubeconfig"), "/home/pi/.kube/config", ["ro"])]
       else [])
  }

  lemma StateIsReadBack(w: Worker, d: Docker, o: Options)
    requires HasHostPaths(w, o)
    ensures ReadMounts(MountSpecs(StateMounts(w, d, o))) == StateEntries(w, d, o)
  {
    hide ReadMount, MountSpec, IsReadable, IsHostText;
    StateTargets(w, d, o);
    StateIsReadable(w, d, o);
    EntriesOf(StateMounts(w, d, o), StateEntries(w, d, o));
  }

  /** What a launch mounts: for each place of the container, exactly the host path or volume behind it and
      whether it is read-only. */
  lemma MountsAreExactly(w: Worker, d: Docker, o: Options)
    requires HasHostPaths(w, o) && !IsDashed(o.image)
    ensures MountsOn(Rendered(w, d, o))
            == CloneEntries(o) + CodeEntries(w, o)
               + [Entry(o.runRoot + "/outbox/" + w.id, "/outbox", []),
                  Entry(o.runRoot + "/replies/" + w.id, "/replies", ["ro"]),
                  Entry(o.runRoot + "/sessions", "/sessions", []),
                  Entry(o.runRoot + "/skills/" + w.role, "/skills", ["ro"])]
               + PolicyEntries(w, o) + StateEntries(w, d, o)
  {
    hide RunOf, Rendered, RunOptions, ValuesOf, PiFlags, Texts, IsDashed, ScratchSpecs, GcloudSpecs, MountSpecs,
         CloneMounts, CodeMounts, RunMounts, PolicyMounts, StateMounts, NatText, ReadMounts, CloneEntries, CodeEntries,
         PolicyEntries, StateEntries;
    MountSpecsOf(w, d, o);
    CloneIsRead(o);
    CodeIsReadBack(w, o);
    RunIsReadBack(w, o);
    PolicyIsReadBack(w, o);
    StateIsReadBack(w, d, o);
    var code, run, policy, state := CodeMounts(w, o), RunMounts(w, o), PolicyMounts(w, o), StateMounts(w, d, o);
    MountsConcat(MountSpecs(CloneMounts(o)), MountSpecs(WorkerMounts(w, d, o)));
    SpecsConcat(code + run + policy, state);
    SpecsConcat(code + run, policy);
    SpecsConcat(code, run);
    MountsConcat(MountSpecs(code + run + policy), MountSpecs(state));
    MountsConcat(MountSpecs(code + run), MountSpecs(policy));
    MountsConcat(MountSpecs(code), MountSpecs(run));
  }

  lemma SpecsConcat(xs: seq<Mount>, ys: seq<Mount>)
    ensures MountSpecs(xs + ys) == MountSpecs(xs) + MountSpecs(ys)
  {
    hide MountSpec;
  }

  // -------------------------------------------------------------- what is writable

  lemma {:induction false} WritableConcat(xs: seq<Entry>, ys: seq<Entry>)
    ensures Writable(xs + ys) == Writable(xs) + Writable(ys)
    decreases xs
  {
    hide ReadOnly;
    if xs == [] {
      assert xs + ys == ys;
    } else {
      assert (xs + ys)[1..] == xs[1..] + ys;
      WritableConcat(xs[1..], ys);
    }
  }

  lemma {:induction false} NoneWritable(entries: seq<Entry>)
    requires forall i :: 0 <= i < |entries| ==> entries[i].options == ["ro"]
    ensures Writable(entries) == []
    decreases entries
  {
    if entries != [] {
      NoneWritable(entries[1..]);
    }
  }

  lemma OneWritable(e: Entry)
    ensures Writable([e]) == if ReadOnly(e.options) then [] else [e]
  {
    assert [e][1..] == [];
  }

  lemma RunWritable(outbox: Entry, replies: Entry, sessions: Entry, skills: Entry)
    requires outbox.options == [] == sessions.options && replies.options == ["ro"] == skills.options
    ensures Writable([outbox, replies, sessions, skills]) == [outbox, sessions]
  {
    OneWritable(outbox);
    OneWritable(replies);
    OneWritable(sessions);
    OneWritable(skills);
    WritableConcat([outbox], [replies]);
    WritableConcat([outbox] + [replies], [sessions]);
    WritableConcat([outbox] + [replies] + [sessions], [skills]);
    assert [outbox, replies, sessions, skills] == [outbox] + [replies] + [sessions] + [skills];
  }

  lemma StateWritable(w: Worker, d: Docker, o: Options)
    ensures Writable(StateEntries(w, d, o)) == [Entry("pifleet-piagent-" + w.id, "/home/pi/.pi/agent", [])]
  {
    var entries := StateEntries(w, d, o);
    assert entries == [entries[0]] + entries[1..];
    OneWritable(entries[0]);
    NoneWritable(entries[1..]);
    WritableConcat([entries[0]], entries[1..]);
  }

  /** What a worker can change on the host: its own worktree if it has one, its outbox, the sessions and its
      own volume. */
  lemma WritableMountsAre(w: Worker, d: Docker, o: Options)
    requires HasHostPaths(w, o) && !IsDashed(o.image)
    ensures Writable(MountsOn(Rendered(w, d, o)))
            == (if w.isolation == Worktree then [Entry(o.runRoot + "/worktrees/" + w.id, "/workspace", [])] else [])
               + [Entry(o.runRoot + "/outbox/" + w.id, "/outbox", []), Entry(o.runRoot + "/sessions", "/sessions", []),
                  Entry("pifleet-piagent-" + w.id, "/home/pi/.pi/agent", [])]
  {
    hide MountsOn, Rendered, HasHostPaths, StateEntries, PolicyEntries, CloneEntries, CodeEntries, Writable;
    MountsAreExactly(w, d, o);
    var outbox := Entry(o.runRoot + "/outbox/" + w.id, "/outbox", []);
    var sessions := Entry(o.runRoot + "/sessions", "/sessions", []);
    var replies, skills := Entry(o.runRoot + "/replies/" + w.id, "/replies", ["ro"]),
                           Entry(o.runRoot + "/skills/" + w.role, "/skills", ["ro"]);
    var clone, code, run := CloneEntries(o), CodeEntries(w, o), [outbox, replies, sessions, skills];
    var policy, state := PolicyEntries(w, o), StateEntries(w, d, o);
    RunWritable(outbox, replies, sessions, skills);
    StateWritable(w, d, o);
    FixedWritable(w, o);
    WritableConcat(clone, code);
    WritableConcat(clone + code, run);
    WritableConcat(clone + code + run, policy);
    WritableConcat(clone + code + run + policy, state);
  }

  lemma FixedWritable(w: Worker, o: Options)
    ensures Writable(CloneEntries(o)) == [] && Writable(PolicyEntries(w, o)) == []
    ensures Writable(CodeEntries(w, o))
            == if w.isolation == Worktree then [Entry(o.runRoot + "/worktrees/" + w.id, "/workspace", [])] else []
  {
    hide OwnFile, Segments;
    NoneWritable(CloneEntries(o));
    NoneWritable(PolicyEntries(w, o));
    if w.isolation != NoCode { OneWritable(CodeEntries(w, o)[0]); }
  }

  /** Exactly what a rendered launch lets its container write: the root unless the fleet makes it read-only,
      four memory file systems, the worker's outbox, its sessions, its own Pi state and, in a worktree of its
      own, the code. */
  lemma WritableIsExactly(w: Worker, d: Docker, o: Options)
    requires HasHostPaths(w, o) && !IsDashed(o.image) && IsSize(d.scratchSize)
    ensures WritablePlaces(Rendered(w, d, o))
            == (if d.readOnlyRoot then [] else ["/"])
               + ["/tmp", "/run", "/home/pi/repos", "/home/pi/.config/gcloud"]
               + (if w.isolation == Worktree then ["/workspace"] else [])
               + ["/outbox", "/sessions", "/home/pi/.pi/agent"]
  {
    hide MountsOn, MemoryOn, Rendered, HasHostPaths, IsSize, IsDashed, RunOf, Writable, WritableMemories;
    FlagsAreTold(w, d, o);
    MemoryIsExactly(w, d, o);
    WritableMountsAre(w, d, o);
    MemoryIsWritable(w, d, o);
  }

  lemma MemoryIsWritable(w: Worker, d: Docker, o: Options)
    requires !IsDashed(o.image) && IsSize(d.scratchSize)
    ensures WritableMemories(MemoryOn(Rendered(w, d, o)))
            == ["/tmp", "/run", "/home/pi/repos", "/home/pi/.config/gcloud"]
  {
    hide MemoryOn, Rendered, IsDashed;
    MemoryIsExactly(w, d, o);
    var all := MemoryOn(Rendered(w, d, o));
    assert "size=" + d.scratchSize != "ro" by { assert ("size=" + d.scratchSize)[0] == 's'; }
    assert forall i | 0 <= i < |all| :: !ReadOnly(all[i].options);
    AllWritable(all);
  }

  lemma {:induction false} AllWritable(memories: seq<Memory>)
    requires forall i :: 0 <= i < |memories| ==> !ReadOnly(memories[i].options)
    ensures |WritableMemories(memories)| == |memories|
    ensures forall i :: 0 <= i < |memories| ==> WritableMemories(memories)[i] == memories[i].target
    decreases memories
  {
    hide ReadOnly;
    if memories != [] {
      AllWritable(memories[1..]);
    }
  }

  // ----------------------------------------------------------------- own places

  lemma {:induction false} WritableHolds(entries: seq<Entry>, e: Entry)
    ensures e in Writable(entries) <==> e in entries && !ReadOnly(e.options)
    decreases entries
  {
    hide ReadOnly;
    if entries != [] {
      WritableHolds(entries[1..], e);
      assert entries == [entries[0]] + entries[1..];
    }
  }

  lemma OneBelow(base: string, name: string)
    requires name != "" && name != "." && name != ".." && '/' !in name
    ensures Segments(base + "/" + name) == Segments(base) + [name]
  {
    SegmentsBelow(base, name);
    SplitOne(name, '/');
  }

  lemma IdIsName(id: string)
    requires IsId(id)
    ensures id != "" && id != "." && id != ".." && '/' !in id
  {
  }

  /** Where a worker's own directories lie. */
  lemma OwnPlaces(o: Options, id: string)
    requires IsId(id)
    ensures Segments(o.runRoot + "/worktrees/" + id) == Segments(o.runRoot) + ["worktrees", id]
    ensures Segments(o.runRoot + "/outbox/" + id) == Segments(o.runRoot) + ["outbox", id]
    ensures Segments(o.runRoot + "/sessions") == Segments(o.runRoot) + ["sessions"]
  {
    hide Segments, IsId;
    IdIsName(id);
    var worktrees, outbox, sessions := "worktrees", "outbox", "sessions";
    assert worktrees[0] == 'w' && outbox[0] == 'o' && sessions[0] == 's';
    OneBelow(o.runRoot, worktrees);
    OneBelow(o.runRoot + "/" + worktrees, id);
    OneBelow(o.runRoot, outbox);
    OneBelow(o.runRoot + "/" + outbox, id);
    OneBelow(o.runRoot, sessions);
    assert o.runRoot + "/" + worktrees + "/" + id == o.runRoot + "/worktrees/" + id;
    assert o.runRoot + "/" + outbox + "/" + id == o.runRoot + "/outbox/" + id;
    assert o.runRoot + "/" + sessions == o.runRoot + "/sessions";
  }

  /** Everything a worker can write on the host lies below the run's own directory. */
  lemma WritableHostsAreOwn(w: Worker, d: Docker, o: Options, e: Entry)
    requires HasHostPaths(w, o) && !IsDashed(o.image)
    requires e in MountsOn(Rendered(w, d, o)) && !ReadOnly(e.options) && IsAbsolute(e.source)
    ensures Segments(o.runRoot) < Segments(e.source)
  {
    hide MountsOn, Rendered, Segments, IsDashed, Writable, ReadOnly;
    WritableHolds(MountsOn(Rendered(w, d, o)), e);
    WritableMountsAre(w, d, o);
    OwnPlaces(o, w.id);
    assert !IsAbsolute("pifleet-piagent-" + w.id) by { assert ("pifleet-piagent-" + w.id)[0] == 'p'; }
  }

  /** So neither the operator's repository nor the clone source is ever mounted writable, unless it lies
      below the run's own directory. */
  lemma RepoIsNeverWritable(w: Worker, d: Docker, o: Options, e: Entry)
    requires HasHostPaths(w, o) && !IsDashed(o.image)
    requires e in MountsOn(Rendered(w, d, o)) && IsAbsolute(e.source)
    requires Segments(e.source) == Segments(o.repo)
             || (o.cloneSource.Some? && Segments(e.source) == Segments(o.cloneSource.value))
    requires !(Segments(o.runRoot) < Segments(e.source))
    ensures ReadOnly(e.options)
  {
    hide MountsOn, Rendered, Segments, IsDashed, ReadOnly, HasHostPaths;
    if !ReadOnly(e.options) {
      WritableHostsAreOwn(w, d, o, e);
    }
  }

  /** One place is the other, or lies in it. */
  predicate Overlap(e: Entry, f: Entry) {
    if IsAbsolute(e.source) && IsAbsolute(f.source) then
      Segments(e.source) <= Segments(f.source) || Segments(f.source) <= Segments(e.source)
    else e.source == f.source
  }

  /** Two workers of one run share nothing that both can write but the sessions. */
  lemma WorkersShareOnlySessions(v: Worker, dv: Docker, ov: Options, w: Worker, dw: Docker, ow: Options,
                                 e: Entry, f: Entry)
    requires HasHostPaths(v, ov) && !IsDashed(ov.image) && HasHostPaths(w, ow) && !IsDashed(ow.image)
    requires v.id != w.id && ov.runRoot == ow.runRoot
    requires e in MountsOn(Rendered(v, dv, ov)) && !ReadOnly(e.options)
    requires f in MountsOn(Rendered(w, dw, ow)) && !ReadOnly(f.options)
    requires Overlap(e, f)
    ensures e.source == f.source == ov.runRoot + "/sessions"
  {
    hide MountsOn, Rendered, Segments, IsDashed, Writable, ReadOnly, IsId;
    WritableHolds(MountsOn(Rendered(v, dv, ov)), e);
    WritableHolds(MountsOn(Rendered(w, dw, ow)), f);
    WritableMountsAre(v, dv, ov);
    WritableMountsAre(w, dw, ow);
    OwnSources(v, ov, e);
    OwnSources(w, ow, f);
    OwnPlaces(ov, v.id);
    OwnPlaces(ow, w.id);
    SourcesApart(v.id, w.id, ov.runRoot);
  }

  lemma OwnSources(w: Worker, o: Options, e: Entry)
    requires HasHostPaths(w, o)
    ensures IsAbsolute(o.runRoot + "/worktrees/" + w.id) && IsAbsolute(o.runRoot + "/outbox/" + w.id)
    ensures IsAbsolute(o.runRoot + "/sessions") && !IsAbsolute("pifleet-piagent-" + w.id)
  {
    assert ("pifleet-piagent-" + w.id)[0] == 'p';
  }

  lemma SourcesApart(v: string, w: string, root: string)
    requires v != w
    ensures "pifleet-piagent-" + v != "pifleet-piagent-" + w
    ensures "worktrees" != "outbox" && "worktrees" != "sessions" && "outbox" != "sessions"
    ensures var at := Segments(root);
            && at + ["worktrees", v] != at + ["worktrees", w] && at + ["outbox", v] != at + ["outbox", w]
            && !(at + ["worktrees", v] <= at + ["outbox", w]) && !(at + ["outbox", v] <= at + ["worktrees", w])
            && !(at + ["sessions"] <= at + ["worktrees", v]) && !(at + ["sessions"] <= at + ["outbox", v])
            && !(at + ["sessions"] <= at + ["worktrees", w]) && !(at + ["sessions"] <= at + ["outbox", w])
  {
    hide Segments;
    assert ("pifleet-piagent-" + v)[16..] == v && ("pifleet-piagent-" + w)[16..] == w;
    var at := Segments(root);
    assert "worktrees"[0] == 'w' && "outbox"[0] == 'o' && "sessions"[0] == 's';
    assert (at + ["worktrees", v])[|at|] == "worktrees" && (at + ["worktrees", w])[|at|] == "worktrees";
    assert (at + ["outbox", v])[|at|] == "outbox" && (at + ["outbox", w])[|at|] == "outbox";
    assert (at + ["sessions"])[|at|] == "sessions";
    assert (at + ["worktrees", v])[|at| + 1] == v && (at + ["worktrees", w])[|at| + 1] == w;
    assert (at + ["outbox", v])[|at| + 1] == v && (at + ["outbox", w])[|at| + 1] == w;
  }
}
