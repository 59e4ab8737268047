/** Exactly which operator strings add a mount to what is read back from a rendered launch. */
module LaunchMounts {
  import opened Optional
  import opened StringOps
  import opened Paths
  import opened LaunchArgv
  import opened ArgvReaders
  import opened LaunchAgreement
  import opened LaunchRoundTrip
  import opened LaunchMarks
  import opened LaunchContents
  import opened LaunchStrays

  // -------------------------------------------------------- what groups add

  predicate AnyAdds(operands: seq<string>) { exists i | 0 <= i < |operands| :: AddsMount(operands[i]) }

  /** A stretch of options: which operands it holds, and which mounts. */
  ghost predicate Settled(args: seq<Arg>, operands: seq<string>, mounts: seq<Mount>) {
    && AllBearing(args) && (forall i :: 0 <= i < |args| ==> !args[i].Word?)
    && (AddsIn(args) <==> AnyAdds(operands))
    && (forall cwd :: AllMounts(cwd, args) == HostPaths(mounts))
  }

  lemma AddsConcat(xs: seq<Arg>, ys: seq<Arg>)
    ensures AddsIn(xs + ys) <==> AddsIn(xs) || AddsIn(ys)
  {
    hide Adds;
    var all := xs + ys;
    assert forall i | 0 <= i < |xs| :: all[i] == xs[i];
    assert forall i | 0 <= i < |ys| :: all[|xs| + i] == ys[i];
    if i :| 0 <= i < |all| && Adds(all[i]) {
      assert i >= |xs| ==> all[i] == ys[i - |xs|];
    }
  }

  lemma AnyConcat(xs: seq<string>, ys: seq<string>)
    ensures AnyAdds(xs + ys) <==> AnyAdds(xs) || AnyAdds(ys)
  {
    hide AddsMount;
    var all := xs + ys;
    assert forall i | 0 <= i < |xs| :: all[i] == xs[i];
    assert forall i | 0 <= i < |ys| :: all[|xs| + i] == ys[i];
    if i :| 0 <= i < |all| && AddsMount(all[i]) {
      assert i >= |xs| ==> all[i] == ys[i - |xs|];
    }
  }

  lemma SettledConcat(xs: seq<Arg>, ss: seq<string>, ms: seq<Mount>, ys: seq<Arg>, tt: seq<string>, ns: seq<Mount>)
    requires Settled(xs, ss, ms) && Settled(ys, tt, ns)
    ensures Settled(xs + ys, ss + tt, ms + ns)
  {
    hide Bearing, AddsIn, AnyAdds, AllMounts, HostPaths;
    AddsConcat(xs, ys);
    AnyConcat(ss, tt);
    HostPathsConcat(ms, ns);
    forall cwd ensures AllMounts(cwd, xs + ys) == HostPaths(ms + ns) {
      AllMountsConcat(cwd, xs, ys);
    }
  }

  /** An option of the launch's own, with a value no operator chose the start of. */
  predicate Fixed(a: Arg) { !a.Word? && IsName(a.name) && (a.Pair? ==> Undashed(a.value)) }

  lemma FixedIsSettled(args: seq<Arg>)
    requires forall i :: 0 <= i < |args| ==> Fixed(args[i])
    ensures Settled(args, [], [])
  {
    forall i | 0 <= i < |args| ensures Bearing(args[i]) && !args[i].Word? && !IsMount(args[i]) && !Adds(args[i]) {
      FixedAddsNothing(args[i]);
    }
    hide Fixed, Bearing, IsMount, Adds;
    forall cwd ensures AllMounts(cwd, args) == HostPaths([]) {
      NoMounts(cwd, args);
    }
  }

  lemma FixedAddsNothing(a: Arg)
    requires Fixed(a)
    ensures Bearing(a) && !a.Word? && !IsMount(a) && !Adds(a)
  {
    if a.Pair? { UndashedAddsNothing(a.value); }
  }

  lemma OperandIsSettled(name: string, value: string)
    requires IsName(name)
    ensures Settled([Pair(name, value)], [value], [])
  {
    hide AddsMount, Undashed;
    var args := [Pair(name, value)];
    assert args[0] == Pair(name, value) && [value][0] == value;
    assert Adds(args[0]) <==> AddsMount(value);
    forall cwd ensures AllMounts(cwd, args) == HostPaths([]) {
      NoMounts(cwd, args);
    }
  }

  lemma MountsAreSettled(mounts: seq<Mount>)
    requires forall i :: 0 <= i < |mounts| ==> IsReadable(mounts[i])
    ensures Settled(MountArgs(mounts), [], mounts)
  {
    forall i | 0 <= i < |mounts| ensures IsMount(MountArgs(mounts)[i]) {
      SpecIsMount(mounts[i]);
    }
    hide IsMount, MountSpec;
    forall cwd ensures AllMounts(cwd, MountArgs(mounts)) == HostPaths(mounts) {
      TableIsRead(cwd, mounts);
    }
  }

  lemma FlagNames()
    ensures IsName("-i") && IsName("-t") && IsName("--rm") && IsName("--name") && IsName("--user")
    ensures IsName("--read-only") && IsName("--tmpfs") && IsName("--memory") && IsName("--cpus")
  {
  }

  lemma LongNames()
    ensures IsName("--security-opt") && IsName("--cap-drop") && IsName("--pids-limit") && IsName("--network")
    ensures IsName("--env-file")
  {
  }

  lemma SessionNames()
    ensures IsName("--mode") && IsName("--session-id") && IsName("--session-dir") && IsName("--no-extensions")
    ensures IsName("--no-skills") && IsName("--no-context-files") && IsName("--theme") && IsName("--extension")
  {
  }

  lemma TaskNames()
    ensures IsName("--provider") && IsName("--model") && IsName("--thinking") && IsName("--tools")
    ensures IsName("--exclude-tools") && IsName("--append-system-prompt") && IsName("--skill")
  {
  }

  // ------------------------------------------------------ the launch, in groups

  const NO_OPERANDS: seq<string> := []

  lemma HeadIsSettled(w: Worker, o: Options)
    ensures Settled(HeadOptions(w, o), NO_OPERANDS, NONE)
  {
    hide IsName;
    FlagNames();
    assert ContainerName(w, o)[0] == 'p';
    FixedIsSettled(HeadOptions(w, o));
  }

  lemma HardeningOptions(d: Docker)
    ensures Settled(HardeningArgs(d), NO_OPERANDS, NONE)
  {
    hide IsName;
    FlagNames();
    LongNames();
    FixedIsSettled(HardeningArgs(d));
  }

  lemma ScratchOptionsAreFixed(d: Docker)
    ensures Settled(ScratchArgs(d), NO_OPERANDS, NONE) && Settled(GcloudArgs(), NO_OPERANDS, NONE)
  {
    hide IsName, Join;
    FlagNames();
    assert GCLOUD_CONFIG_DIR[0] == '/';
    FixedIsSettled(ScratchArgs(d));
    FixedIsSettled(GcloudArgs());
  }

  lemma LimitOptions(d: Docker)
    ensures Settled(LimitArgs(d), [d.memory, d.cpus], NONE)
  {
    hide IsName, NatText, Settled;
    var digits := NatText(d.pidsLimit);
    assert IsDigit(digits[0]);
    FlagNames();
    LongNames();
    var pids := [Pair("--pids-limit", digits)];
    FixedIsSettled(pids);
    OperandIsSettled("--memory", d.memory);
    OperandIsSettled("--cpus", d.cpus);
    SettledConcat(pids, NO_OPERANDS, NONE, [Pair("--memory", d.memory)], [d.memory], NONE);
    SettledConcat(pids + [Pair("--memory", d.memory)], NO_OPERANDS + [d.memory], NONE + NONE,
                  [Pair("--cpus", d.cpus)], [d.cpus], NONE);
    assert LimitArgs(d) == pids + [Pair("--memory", d.memory)] + [Pair("--cpus", d.cpus)];
    assert NO_OPERANDS + [d.memory] + [d.cpus] == [d.memory, d.cpus] && NONE + NONE + NONE == NONE;
  }

  lemma EnvOption(w: Worker, o: Options)
    requires HasHostPaths(w, o)
    ensures Settled([Pair("--env-file", WorkerDir(o, w.id) + "/env")], NO_OPERANDS, NONE)
  {
    hide IsName;
    LongNames();
    WorkerDirIsHostText(w, o);
    hide WorkerDir;
    FixedIsSettled([Pair("--env-file", WorkerDir(o, w.id) + "/env")]);
  }

  lemma TablesAreSettled(w: Worker, d: Docker, o: Options)
    requires HasHostPaths(w, o)
    ensures Settled(MountArgs(CloneMounts(o)), NO_OPERANDS, CloneMounts(o))
    ensures Settled(MountArgs(WorkerMounts(w, d, o)), NO_OPERANDS, WorkerMounts(w, d, o))
  {
    hide IsReadable, Settled, WorkerMounts, CloneMount;
    HostsAreReadable(w, d, o);
    var table := WorkerMounts(w, d, o);
    forall i | 0 <= i < |table| ensures IsReadable(table[i]) {
      assert table[i] in table;
    }
    CloneIsReadable(o);
    MountsAreSettled(CloneMounts(o));
    MountsAreSettled(table);
  }

  lemma RunOptionsAreSettled(w: Worker, d: Docker, o: Options)
    requires HasHostPaths(w, o)
    ensures Settled(RunOptions(w, d, o), [d.memory, d.cpus, EgressNetwork(w, d)],
                    CloneMounts(o) + WorkerMounts(w, d, o))
  {
    hide Settled, HeadOptions, HardeningArgs, ScratchArgs, GcloudArgs, LimitArgs, MountArgs, CloneMounts, WorkerMounts,
         EgressNetwork, WorkerDir, IsName, HasHostPaths;
    HeadIsSettled(w, o);
    HardeningOptions(d);
    ScratchOptionsAreFixed(d);
    TablesAreSettled(w, d, o);
    LimitOptions(d);
    LongNames();
    OperandIsSettled("--network", EgressNetwork(w, d));
    EnvOption(w, o);
    var head, hard, scratch, clone := HeadOptions(w, o), HardeningArgs(d), ScratchArgs(d), MountArgs(CloneMounts(o));
    var limits, network := LimitArgs(d), [Pair("--network", EgressNetwork(w, d))];
    var env, table := [Pair("--env-file", WorkerDir(o, w.id) + "/env")], MountArgs(WorkerMounts(w, d, o));
    var mounts, most := CloneMounts(o), [d.memory, d.cpus];
    SettledConcat(head, NO_OPERANDS, NONE, hard, NO_OPERANDS, NONE);
    assert NO_OPERANDS + NO_OPERANDS == NO_OPERANDS && NONE + NONE == NONE && NONE + mounts == mounts;
    SettledConcat(head + hard, NO_OPERANDS, NONE, scratch, NO_OPERANDS, NONE);
    SettledConcat(head + hard + scratch, NO_OPERANDS, NONE, clone, NO_OPERANDS, mounts);
    SettledConcat(head + hard + scratch + clone, NO_OPERANDS, mounts, GcloudArgs(), NO_OPERANDS, NONE);
    assert mounts + NONE == mounts && NO_OPERANDS + most == most && most + NO_OPERANDS == most;
    var front := head + hard + scratch + clone + GcloudArgs();
    SettledConcat(front, NO_OPERANDS, mounts, limits, most, NONE);
    SettledConcat(front + limits, most, mounts, network, [EgressNetwork(w, d)], NONE);
    var all := most + [EgressNetwork(w, d)];
    assert all + NO_OPERANDS == all;
    SettledConcat(front + limits + network, all, mounts, env, NO_OPERANDS, NONE);
    SettledConcat(front + limits + network + env, all, mounts, table, NO_OPERANDS, WorkerMounts(w, d, o));
    assert all == [d.memory, d.cpus, EgressNetwork(w, d)];
  }

  // ---------------------------------------------------------- the Pi options

  lemma StartOptions(w: Worker)
    ensures Settled(StartFlags(w), [w.id], NONE)
  {
    hide IsName, Settled;
    SessionNames();
    var mode, rest := ModeArgs(w), SessionArgs(w)[1..] + ExtensionArgs(w);
    SessionRest(w);
    FixedIsSettled(mode);
    FixedIsSettled(rest);
    OperandIsSettled("--session-id", w.id);
    SettledConcat(mode, NO_OPERANDS, NONE, [Pair("--session-id", w.id)], [w.id], NONE);
    SettledConcat(mode + [Pair("--session-id", w.id)], NO_OPERANDS + [w.id], NONE + NONE, rest, NO_OPERANDS, NONE);
    assert StartFlags(w) == mode + [Pair("--session-id", w.id)] + rest;
    assert NO_OPERANDS + [w.id] + NO_OPERANDS == [w.id] && NONE + NONE + NONE == NONE;
  }

  lemma SessionRest(w: Worker)
    ensures SessionArgs(w) == [Pair("--session-id", w.id)] + SessionArgs(w)[1..]
    ensures forall i :: 0 <= i < |SessionArgs(w)[1..] + ExtensionArgs(w)| ==>
              Fixed((SessionArgs(w)[1..] + ExtensionArgs(w))[i])
  {
    hide IsName;
    SessionNames();
  }

  /** An option of one operand, where there is one. */
  lemma OptionalIsSettled(name: string, value: Option<string>)
    requires IsName(name)
    ensures Settled(Optionally(name, value), OperandOf(value), NONE)
  {
    hide IsName, Settled;
    if value.Some? {
      OperandIsSettled(name, value.value);
    } else {
      FixedIsSettled([]);
    }
  }

  function OperandOf(value: Option<string>): seq<string> { if value.Some? then [value.value] else [] }

  lemma TaskInParts(w: Worker, hasBriefing: bool)
    ensures TaskFlags(w, hasBriefing)
            == [Pair("--provider", w.provider)] + [Pair("--model", w.model)] + Optionally("--thinking", w.thinking)
               + Optionally("--tools", ToolText(w.tools)) + Optionally("--exclude-tools", ExcludedText(w.excludeTools))
               + (BriefingArgs(hasBriefing) + SkillArgs(w.skills))
  {
    hide ToolArgs, ToolText, ExcludedText, SkillArgs, BriefingArgs;
    ToolShape(w);
  }

  lemma OperandsInParts(w: Worker)
    ensures PiOperands(w) == [w.id] + ([w.provider] + [w.model] + OperandOf(w.thinking) + OperandOf(ToolText(w.tools))
                                       + OperandOf(ExcludedText(w.excludeTools)))
  {
    hide Join;
  }

  lemma BriefingIsFixed(w: Worker, hasBriefing: bool)
    ensures Settled(BriefingArgs(hasBriefing) + SkillArgs(w.skills), NO_OPERANDS, NONE)
  {
    hide IsName;
    TaskNames();
    var args := BriefingArgs(hasBriefing) + SkillArgs(w.skills);
    forall i | 0 <= i < |args| ensures Fixed(args[i]) {
      assert args[i].value[0] == '/';
    }
    FixedIsSettled(args);
  }

  lemma TaskOptions(w: Worker, hasBriefing: bool, operands: seq<string>)
    requires operands == [w.provider] + [w.model] + OperandOf(w.thinking) + OperandOf(ToolText(w.tools))
                         + OperandOf(ExcludedText(w.excludeTools))
    ensures Settled(TaskFlags(w, hasBriefing), operands, NONE)
  {
    hide IsName, Settled, TaskFlags, SkillArgs, BriefingArgs, ToolText, ExcludedText;
    TaskNames();
    TaskInParts(w, hasBriefing);
    OperandIsSettled("--provider", w.provider);
    OperandIsSettled("--model", w.model);
    OptionalIsSettled("--thinking", w.thinking);
    OptionalIsSettled("--tools", ToolText(w.tools));
    OptionalIsSettled("--exclude-tools", ExcludedText(w.excludeTools));
    BriefingIsFixed(w, hasBriefing);
    var provider, model := [Pair("--provider", w.provider)], [Pair("--model", w.model)];
    var thinking, tools := Optionally("--thinking", w.thinking), Optionally("--tools", ToolText(w.tools));
    var excluded := Optionally("--exclude-tools", ExcludedText(w.excludeTools));
    var rest := BriefingArgs(hasBriefing) + SkillArgs(w.skills);
    assert NONE + NONE == NONE;
    SettledConcat(provider, [w.provider], NONE, model, [w.model], NONE);
    var two := [w.provider] + [w.model];
    SettledConcat(provider + model, two, NONE, thinking, OperandOf(w.thinking), NONE);
    var three := two + OperandOf(w.thinking);
    SettledConcat(provider + model + thinking, three, NONE, tools, OperandOf(ToolText(w.tools)), NONE);
    var four := three + OperandOf(ToolText(w.tools));
    SettledConcat(provider + model + thinking + tools, four, NONE,
                  excluded, OperandOf(ExcludedText(w.excludeTools)), NONE);
    SettledConcat(provider + model + thinking + tools + excluded, operands, NONE, rest, NO_OPERANDS, NONE);
    assert operands + NO_OPERANDS == operands;
  }

  lemma PiOptions(w: Worker, hasBriefing: bool)
    ensures Settled(PiFlags(w, hasBriefing), PiOperands(w), NONE)
  {
    hide Settled, StartFlags, TaskFlags, PiOperands, ToolText, ExcludedText;
    var operands := [w.provider] + [w.model] + OperandOf(w.thinking) + OperandOf(ToolText(w.tools))
                    + OperandOf(ExcludedText(w.excludeTools));
    StartOptions(w);
    TaskOptions(w, hasBriefing, operands);
    OperandsInParts(w);
    SettledConcat(StartFlags(w), [w.id], NONE, TaskFlags(w, hasBriefing), operands, NONE);
    assert NONE + NONE == NONE;
  }

  // ------------------------------------------------------------- main results

  lemma Operands(w: Worker, d: Docker, o: Options)
    ensures FrontOperands(w, d, o) == [d.memory, d.cpus, EgressNetwork(w, d)] + [o.image]
  {
    hide EgressNetwork;
  }

  lemma RunOptionsEnd(w: Worker, d: Docker, o: Options)
    requires HasHostPaths(w, o)
    ensures RunOptions(w, d, o) != [] && IsMount(RunOptions(w, d, o)[|RunOptions(w, d, o)| - 1])
  {
    hide HeadArgs, HardeningArgs, ScratchArgs, GcloudArgs, LimitArgs, CloneMounts, WorkerMounts, EgressNetwork,
         WorkerDir, IsReadable, HasHostPaths, IsMount, MountSpec;
    SomethingIsMounted(w, d, o);
    HostsAreReadable(w, d, o);
    var table := WorkerMounts(w, d, o);
    SpecIsMount(table[|table| - 1]);
    assert RunOptions(w, d, o)[|RunOptions(w, d, o)| - 1] == MountArgs(table)[|table| - 1];
  }

  lemma PiOptionsEnd(w: Worker, hasBriefing: bool)
    requires w.skills != []
    ensures PiFlags(w, hasBriefing) != [] && !Adds(PiFlags(w, hasBriefing)[|PiFlags(w, hasBriefing)| - 1])
  {
    hide StartFlags, ModelArgs, ToolArgs, BriefingArgs;
    var skill := "/skills/" + w.skills[|w.skills| - 1];
    assert PiFlags(w, hasBriefing)[|PiFlags(w, hasBriefing)| - 1] == Pair("--skill", skill);
    assert skill[0] == '/';
    UndashedAddsNothing(skill);
  }

  lemma WordAdds(text: string)
    ensures AddsIn([Word(text)]) <==> AddsMount(text)
    ensures AnyAdds([text]) <==> AddsMount(text)
  {
    hide AddsMount;
    assert [Word(text)][0] == Word(text) && [text][0] == text;
  }

  lemma RunAddsNothing()
    ensures !AddsIn(RUN)
  {
    UndashedAddsNothing("docker");
    UndashedAddsNothing("run");
  }

  lemma LaunchAdds(w: Worker, d: Docker, o: Options)
    requires HasHostPaths(w, o)
    ensures AddsIn(DockerArgs(w, d, o)) <==> AnyAdds(FrontOperands(w, d, o) + PiOperands(w))
    ensures forall cwd :: AllMounts(cwd, DockerArgs(w, d, o)) == HostPaths(CloneMounts(o) + WorkerMounts(w, d, o))
  {
    hide DockerArgs, RunOptions, PiFlags, EgressNetwork, AddsIn, AnyAdds, AllMounts, HostPaths, HasHostPaths, Bearing,
         FrontOperands, PiOperands, CloneMounts, WorkerMounts;
    var run, pi, image := RunOptions(w, d, o), PiFlags(w, o.hasBriefing), [Word(o.image)];
    var operands := [d.memory, d.cpus, EgressNetwork(w, d)];
    LaunchParts(w, d, o);
    Operands(w, d, o);
    RunOptionsAreSettled(w, d, o);
    PiOptions(w, o.hasBriefing);
    RunAddsNothing();
    WordAdds(o.image);
    AddsConcat(RUN, run);
    AddsConcat(RUN + run, image);
    AddsConcat(RUN + run + image, pi);
    AnyConcat(operands, [o.image]);
    AnyConcat(FrontOperands(w, d, o), PiOperands(w));
    forall cwd ensures AllMounts(cwd, DockerArgs(w, d, o)) == HostPaths(CloneMounts(o) + WorkerMounts(w, d, o)) {
      AllMountsConcat(cwd, RUN, run);
      AllMountsConcat(cwd, RUN + run, image);
      AllMountsConcat(cwd, RUN + run + image, pi);
      WordsMountNothing(cwd, o.image);
      NothingMounted();
    }
  }

  lemma NothingMounted()
    ensures HostPaths(NONE) == []
  {
  }

  lemma WordsMountNothing(cwd: string, image: string)
    ensures AllMounts(cwd, RUN) == [] && AllMounts(cwd, [Word(image)]) == []
  {
    NoMounts(cwd, RUN);
    NoMounts(cwd, [Word(image)]);
  }

  lemma LaunchIsLed(w: Worker, d: Docker, o: Options)
    requires HasHostPaths(w, o)
    ensures AllBearing(DockerArgs(w, d, o)) && Led(DockerArgs(w, d, o))
  {
    hide DockerArgs, RunOptions, PiFlags, EgressNetwork, AddsIn, AnyAdds, AllMounts, HasHostPaths, IsMountFlag,
         PiOperands, IsMount, IsName, EndOf;
    var args, run, pi := DockerArgs(w, d, o), RunOptions(w, d, o), PiFlags(w, o.hasBriefing);
    LaunchParts(w, d, o);
    RunOptionsAreSettled(w, d, o);
    PiOptions(w, o.hasBriefing);
    RunOptionsEnd(w, d, o);
    MountEndsUndashed(run[|run| - 1]);
    DockerIsNoFlag();
    forall i | 0 < i < |args| && args[i].Word? ensures !IsMountFlag(EndOf(args[i - 1])) {
      assert i == 1 || i == 2 + |run|;
      assert i == 2 + |run| ==> args[i - 1] == run[|run| - 1];
    }
  }

  lemma MountEndsUndashed(a: Arg)
    requires IsMount(a)
    ensures !IsMountFlag(EndOf(a))
  {
    UndashedIsUnread(a.value);
  }

  lemma DockerIsNoFlag()
    ensures !IsMountFlag(EndOf(RUN[0])) && RUN[0] == Word("docker") && |RUN| == 2
  {
  }

  /** The mount reader returns the mount table of a launch if and only if no operator string adds a mount to
      it; when one does, it returns more. The launch ends with a skill, as every resolved worker has one. */
  lemma MountsAreRecoveredIff(w: Worker, d: Docker, o: Options, cwd: string)
    requires HasHostPaths(w, o) && w.skills != []
    ensures var read, table := Sources(cwd, "", Rendered(w, d, o)), HostPaths(CloneMounts(o) + WorkerMounts(w, d, o));
            && (read == table <==> forall s :: s in FrontOperands(w, d, o) + PiOperands(w) ==> !AddsMount(s))
            && (read != table ==> |read| > |table|)
  {
    hide DockerArgs, PiFlags, AddsIn, AllMounts, HasHostPaths, AllBearing, Led, Sources, Texts, Extra, HostPaths,
         FrontOperands, PiOperands, AddsMount, CloneMounts, WorkerMounts, Adds;
    var args, operands := DockerArgs(w, d, o), FrontOperands(w, d, o) + PiOperands(w);
    LaunchAdds(w, d, o);
    LaunchIsLed(w, d, o);
    LaunchEnds(w, d, o);
    SourcesAreCounted(cwd, "", args);
    ExtraIsNone(args);
    if !AddsIn(args) {
      SourcesAreMounts(cwd, "", args);
    }
    assert AnyAdds(operands) <==> exists s :: s in operands && AddsMount(s);
  }

  /** A model called `-v`, which a config may name, is read as a mount of the flag behind it. */
  lemma DashedModelAddsMount(w: Worker, d: Docker, o: Options, cwd: string)
    requires HasHostPaths(w, o) && w.skills != [] && w.model == "-v"
    ensures |Sources(cwd, "", Rendered(w, d, o))| > |HostPaths(CloneMounts(o) + WorkerMounts(w, d, o))|
  {
    hide HasHostPaths, Rendered, Sources, HostPaths, CloneMounts, WorkerMounts, FrontOperands;
    MountsAreRecoveredIff(w, d, o, cwd);
    assert PiOperands(w)[2] == "-v";
    assert "-v" in FrontOperands(w, d, o) + PiOperands(w) && AddsMount("-v");
  }

  lemma LaunchEnds(w: Worker, d: Docker, o: Options)
    requires w.skills != []
    ensures var args := DockerArgs(w, d, o);
            args != [] && !Adds(args[|args| - 1]) && !IsMountFlag("") && !TakesSpec("")
  {
    hide RunOptions, PiFlags, Adds, DockerArgs, FrontOperands, EgressNetwork;
    LaunchParts(w, d, o);
    PiOptionsEnd(w, o.hasBriefing);
    var front, pi := RUN + RunOptions(w, d, o) + [Word(o.image)], PiFlags(w, o.hasBriefing);
    assert (front + pi)[|front + pi| - 1] == pi[|pi| - 1];
  }

  lemma {:induction false} MountsAreSeen(cwd: string, prev: string, args: seq<Arg>, p: Path)
    requires p in AllMounts(cwd, args)
    ensures p in Sources(cwd, prev, Texts(args))
    decreases args
  {
    hide SourceAt, Undashed, HostPath, VolumeSource;
    var a, rest := args[0], Texts(args[1..]);
    var texts := ArgTexts(a);
    assert (texts + rest)[1..] == texts[1..] + rest;
    assert a.Pair? ==> (texts[1..] + rest)[1..] == rest;
    assert !a.Pair? ==> texts[1..] + rest == rest;
    if IsMount(a) {
      MountIsRead(cwd, a.value);
    }
    if p in AllMounts(cwd, args[1..]) {
      MountsAreSeen(cwd, EndOf(a), args[1..], p);
    }
  }

  /** No host path of a launch is missed, whatever the operator's strings are. */
  lemma NoMountIsMissed(w: Worker, d: Docker, o: Options, cwd: string, p: Path)
    requires HasHostPaths(w, o) && p in HostPaths(CloneMounts(o) + WorkerMounts(w, d, o))
    ensures p in Sources(cwd, "", Rendered(w, d, o))
  {
    hide DockerArgs, AllMounts, HasHostPaths, Sources, Texts, HostPaths, CloneMounts, WorkerMounts;
    LaunchAdds(w, d, o);
    MountsAreSeen(cwd, "", DockerArgs(w, d, o), p);
  }
}
