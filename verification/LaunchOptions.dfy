/** What a rendered launch tells Docker, read off the argv option by option. */
module LaunchOptions {
  import opened StringOps
  import opened LaunchArgv
  import opened LaunchRoundTrip
  import opened LaunchContents

  /** The options behind `docker run`, and what follows them: the image and its own argv. */
  function RunOf(argv: seq<string>): Reading {
    if |argv| < 2 then Reading([], []) else ReadOptions(DockerRun, argv[2..])
  }

  lemma HeadSpells(w: Worker, o: Options, d: Docker)
    ensures AllSpell(DockerRun, HeadOptions(w, o)) && AllSpell(DockerRun, HardeningArgs(d))
  {
    hide ContainerName;
  }

  lemma SettingsSpell(d: Docker)
    ensures AllSpell(DockerRun, ScratchArgs(d)) && AllSpell(DockerRun, GcloudArgs())
    ensures AllSpell(DockerRun, LimitArgs(d))
  {
    hide TmpfsSpec, NatText;
  }

  lemma PlacesSpell(mounts: seq<Mount>, network: string, env: string)
    ensures AllSpell(DockerRun, MountArgs(mounts))
    ensures AllSpell(DockerRun, [Pair("--network", network)]) && AllSpell(DockerRun, [Pair("--env-file", env)])
  {
    hide MountSpec;
  }

  /** Docker reads the options that were pushed, whatever the operator's strings are, as long as the image
      does not look like an option itself; and passes the Pi argv on untouched. */
  lemma RunIsRead(w: Worker, d: Docker, o: Options)
    requires !IsDashed(o.image)
    ensures RunOf(Rendered(w, d, o)) == Reading(RunOptions(w, d, o), [o.image] + Texts(PiFlags(w, o.hasBriefing)))
  {
    hide Spells, ReadOptions, IsDashed, Texts, DockerArgs, HeadOptions, HardeningArgs, ScratchArgs, GcloudArgs,
         LimitArgs, MountArgs, CloneMounts, WorkerMounts, EgressNetwork, WorkerDir, PiFlags;
    HeadSpells(w, o, d);
    SettingsSpell(d);
    PlacesSpell(CloneMounts(o), EgressNetwork(w, d), WorkerDir(o, w.id) + "/env");
    PlacesSpell(WorkerMounts(w, d, o), EgressNetwork(w, d), WorkerDir(o, w.id) + "/env");
    var options, rest := RunOptions(w, d, o), [o.image] + Texts(PiFlags(w, o.hasBriefing));
    RenderedTexts(w, d, o);
    assert (["docker", "run"] + (Texts(options) + rest))[2..] == Texts(options) + rest;
    OptionsAreRead(DockerRun, options, rest);
  }

  lemma RenderedTexts(w: Worker, d: Docker, o: Options)
    ensures Rendered(w, d, o)
            == ["docker", "run"]
               + (Texts(RunOptions(w, d, o)) + ([o.image] + Texts(PiFlags(w, o.hasBriefing))))
  {
    hide Texts, DockerArgs, RunOptions, PiFlags;
    LaunchParts(w, d, o);
    var options, image, pi := RunOptions(w, d, o), [Word(o.image)], PiFlags(w, o.hasBriefing);
    TextsConcat(RUN + options + image, pi);
    TextsConcat(RUN + options, image);
    TextsConcat(RUN, options);
    WordTexts(o.image);
  }

  lemma WordTexts(text: string)
    ensures Texts(RUN) == ["docker", "run"] && Texts([Word(text)]) == [text]
  {
    assert RUN[1..] == [Word("run")] && [Word("run")][1..] == [] && [Word(text)][1..] == [];
  }

  // ------------------------------------------------------------------- settings

  lemma HeadValues(w: Worker, o: Options, name: string)
    ensures ValuesOf(HeadOptions(w, o), name) == Given(name == "--name", "pifleet-" + o.runId + "-" + w.id)
  {
    hide ValuesOf, ContainerName;
    var flags := [Flag("-i")] + (if w.paneMode == Tui then [Flag("-t")] else []) + [Flag("--rm")];
    FlagsHaveNoValues(flags, name);
    OneValue("--name", ContainerName(w, o), name);
    ValuesConcat(flags, [Pair("--name", ContainerName(w, o))], name);
    assert HeadOptions(w, o) == flags + [Pair("--name", ContainerName(w, o))];
    assert ContainerName(w, o) == "pifleet-" + o.runId + "-" + w.id by { NameOf(w, o); }
  }

  lemma NameOf(w: Worker, o: Options)
    ensures ContainerName(w, o) == "pifleet-" + o.runId + "-" + w.id
  {
  }

  lemma HardeningValues(d: Docker, name: string)
    ensures ValuesOf(HardeningArgs(d), name)
            == Given(name == "--user", "10001:10001") + Given(name == "--security-opt", "no-new-privileges")
               + Given(name == "--cap-drop", "ALL")
  {
    hide ValuesOf, Given;
    var user, opt, drop := [Pair("--user", "10001:10001")], [Pair("--security-opt", "no-new-privileges")],
                           [Pair("--cap-drop", "ALL")];
    var root := if d.readOnlyRoot then [Flag("--read-only")] else [];
    assert WORKER_UID + ":" + WORKER_UID == "10001:10001";
    assert HardeningArgs(d) == user + opt + drop + root;
    OneValue("--user", "10001:10001", name);
    OneValue("--security-opt", "no-new-privileges", name);
    OneValue("--cap-drop", "ALL", name);
    FlagsHaveNoValues(root, name);
    ValuesConcat(user, opt, name);
    ValuesConcat(user + opt, drop, name);
    ValuesConcat(user + opt + drop, root, name);
  }

  function ScratchSpecs(d: Docker): seq<string> {
    [TmpfsSpec("/tmp", ["rw", "noexec", "nosuid", "size=256m"]),
     TmpfsSpec("/run", ["rw", "noexec", "nosuid", "size=1m"] + OWNED), TmpfsSpec("/home/pi/repos", ScratchOptions(d))]
  }

  function GcloudSpecs(): seq<string> {
    [TmpfsSpec(GCLOUD_CONFIG_DIR, ["rw", "noexec", "nosuid", "size=16m"] + OWNED)]
  }

  lemma ScratchValues(d: Docker, name: string)
    ensures ValuesOf(ScratchArgs(d), name) == if name == "--tmpfs" then ScratchSpecs(d) else []
    ensures ValuesOf(GcloudArgs(), name) == if name == "--tmpfs" then GcloudSpecs() else []
  {
    hide TmpfsSpec, ValuesOf, ScratchOptions, OWNED;
    SameOption(ScratchArgs(d), "--tmpfs", ScratchSpecs(d), name);
    SameOption(GcloudArgs(), "--tmpfs", GcloudSpecs(), name);
  }

  function MountSpecs(mounts: seq<Mount>): seq<string> {
    seq(|mounts|, i requires 0 <= i < |mounts| => MountSpec(mounts[i]))
  }

  lemma MountValues(mounts: seq<Mount>, name: string)
    ensures ValuesOf(MountArgs(mounts), name) == if name == "-v" then MountSpecs(mounts) else []
  {
    hide MountSpec, ValuesOf;
    SameOption(MountArgs(mounts), "-v", MountSpecs(mounts), name);
  }

  lemma LimitValues(d: Docker, name: string)
    ensures ValuesOf(LimitArgs(d), name)
            == Given(name == "--pids-limit", NatText(d.pidsLimit)) + Given(name == "--memory", d.memory)
               + Given(name == "--cpus", d.cpus)
  {
    hide ValuesOf, Given, NatText;
    var pids, memory, cpus := [Pair("--pids-limit", NatText(d.pidsLimit))], [Pair("--memory", d.memory)],
                              [Pair("--cpus", d.cpus)];
    assert LimitArgs(d) == pids + memory + cpus;
    OneValue("--pids-limit", NatText(d.pidsLimit), name);
    OneValue("--memory", d.memory, name);
    OneValue("--cpus", d.cpus, name);
    ValuesConcat(pids, memory, name);
    ValuesConcat(pids + memory, cpus, name);
  }

  lemma AttachValues(w: Worker, d: Docker, o: Options, name: string)
    ensures ValuesOf([Pair("--network", EgressNetwork(w, d))], name)
            == Given(name == "--network", if d.flat then d.network else d.network + "-" + w.provider)
    ensures ValuesOf([Pair("--env-file", WorkerDir(o, w.id) + "/env")], name)
            == Given(name == "--env-file", o.runRoot + "/workers/" + w.id + "/env")
  {
    hide ValuesOf;
    OneValue("--network", EgressNetwork(w, d), name);
    OneValue("--env-file", WorkerDir(o, w.id) + "/env", name);
  }

  /** What stands behind option `name` of a launch. */
  lemma RunValues(w: Worker, d: Docker, o: Options, name: string)
    ensures ValuesOf(RunOptions(w, d, o), name)
            == Given(name == "--name", "pifleet-" + o.runId + "-" + w.id)
               + (Given(name == "--user", "10001:10001") + Given(name == "--security-opt", "no-new-privileges")
                  + Given(name == "--cap-drop", "ALL"))
               + (if name == "--tmpfs" then ScratchSpecs(d) else [])
               + (if name == "-v" then MountSpecs(CloneMounts(o)) else [])
               + (if name == "--tmpfs" then GcloudSpecs() else [])
               + (Given(name == "--pids-limit", NatText(d.pidsLimit)) + Given(name == "--memory", d.memory)
                  + Given(name == "--cpus", d.cpus))
               + Given(name == "--network", if d.flat then d.network else d.network + "-" + w.provider)
               + Given(name == "--env-file", o.runRoot + "/workers/" + w.id + "/env")
               + (if name == "-v" then MountSpecs(WorkerMounts(w, d, o)) else [])
  {
    hide ValuesOf, Given, HeadOptions, HardeningArgs, ScratchArgs, GcloudArgs, LimitArgs, MountArgs, CloneMounts,
         WorkerMounts, EgressNetwork, WorkerDir, NatText, ScratchSpecs, GcloudSpecs, MountSpecs;
    var head, hard, scratch, clone := HeadOptions(w, o), HardeningArgs(d), ScratchArgs(d), MountArgs(CloneMounts(o));
    var gcloud, limits, network := GcloudArgs(), LimitArgs(d), [Pair("--network", EgressNetwork(w, d))];
    var env := [Pair("--env-file", WorkerDir(o, w.id) + "/env")];
    HeadValues(w, o, name);
    HardeningValues(d, name);
    ScratchValues(d, name);
    MountValues(CloneMounts(o), name);
    LimitValues(d, name);
    AttachValues(w, d, o, name);
    MountValues(WorkerMounts(w, d, o), name);
    ValuesConcat(head, hard, name);
    ValuesConcat(head + hard, scratch, name);
    ValuesConcat(head + hard + scratch, clone, name);
    ValuesConcat(head + hard + scratch + clone, gcloud, name);
    ValuesConcat(head + hard + scratch + clone + gcloud, limits, name);
    ValuesConcat(head + hard + scratch + clone + gcloud + limits, network, name);
    ValuesConcat(head + hard + scratch + clone + gcloud + limits + network, env, name);
    ValuesConcat(head + hard + scratch + clone + gcloud + limits + network + env, MountArgs(WorkerMounts(w, d, o)),
                 name);
  }

  lemma DockerNames()
    ensures Mark("--name") == (6, 'n', 'a') && Mark("--user") == (6, 'u', 's')
    ensures Mark("--security-opt") == (14, 's', 'e')
    ensures Mark("--cap-drop") == (10, 'c', 'a') && Mark("--tmpfs") == (7, 't', 'm') && Mark("-v") == (2, ' ', ' ')
    ensures Mark("--pids-limit") == (12, 'p', 'i') && Mark("--memory") == (8, 'm', 'e')
    ensures Mark("--cpus") == (6, 'c', 'p') && Mark("--network") == (9, 'n', 'e')
    ensures Mark("--env-file") == (10, 'e', 'n')
  {
  }

  lemma IdentityIsTold(w: Worker, d: Docker, o: Options)
    requires !IsDashed(o.image)
    ensures var options := RunOf(Rendered(w, d, o)).options;
            && ValuesOf(options, "--name") == ["pifleet-" + o.runId + "-" + w.id]
            && ValuesOf(options, "--user") == ["10001:10001"]
  {
    hide Rendered, RunOf, RunOptions, ValuesOf, NatText, PiFlags, Texts, IsDashed, ScratchSpecs, GcloudSpecs,
         MountSpecs, CloneMounts, WorkerMounts, Mark;
    RunIsRead(w, d, o);
    DockerNames();
    RunValues(w, d, o, "--name");
    RunValues(w, d, o, "--user");
  }

  lemma PrivilegesAreTold(w: Worker, d: Docker, o: Options)
    requires !IsDashed(o.image)
    ensures var options := RunOf(Rendered(w, d, o)).options;
            && ValuesOf(options, "--security-opt") == ["no-new-privileges"]
            && ValuesOf(options, "--cap-drop") == ["ALL"]
  {
    hide Rendered, RunOf, RunOptions, ValuesOf, NatText, PiFlags, Texts, IsDashed, ScratchSpecs, GcloudSpecs,
         MountSpecs, CloneMounts, WorkerMounts, Mark;
    RunIsRead(w, d, o);
    DockerNames();
    RunValues(w, d, o, "--security-opt");
    RunValues(w, d, o, "--cap-drop");
  }

  lemma LimitsAreTold(w: Worker, d: Docker, o: Options)
    requires !IsDashed(o.image)
    ensures var options := RunOf(Rendered(w, d, o)).options;
            && ValuesOf(options, "--pids-limit") == [NatText(d.pidsLimit)]
            && ValuesOf(options, "--memory") == [d.memory] && ValuesOf(options, "--cpus") == [d.cpus]
  {
    hide Rendered, RunOf, RunOptions, ValuesOf, NatText, PiFlags, Texts, IsDashed, ScratchSpecs, GcloudSpecs,
         MountSpecs, CloneMounts, WorkerMounts, Mark;
    RunIsRead(w, d, o);
    DockerNames();
    RunValues(w, d, o, "--pids-limit");
    RunValues(w, d, o, "--memory");
    RunValues(w, d, o, "--cpus");
  }

  lemma AttachmentsAreTold(w: Worker, d: Docker, o: Options)
    requires !IsDashed(o.image)
    ensures var options := RunOf(Rendered(w, d, o)).options;
            && ValuesOf(options, "--network") == [if d.flat then d.network else d.network + "-" + w.provider]
            && ValuesOf(options, "--env-file") == [o.runRoot + "/workers/" + w.id + "/env"]
  {
    hide Rendered, RunOf, RunOptions, ValuesOf, NatText, PiFlags, Texts, IsDashed, ScratchSpecs, GcloudSpecs,
         MountSpecs, CloneMounts, WorkerMounts, Mark;
    RunIsRead(w, d, o);
    DockerNames();
    RunValues(w, d, o, "--network");
    RunValues(w, d, o, "--env-file");
  }

  /** A launch is hardened and limited as the fleet says, under its own name, on the network of its own
      provider and with its own environment; what runs in it is the worker's Pi argv. */
  lemma DockerIsTold(w: Worker, d: Docker, o: Options)
    requires !IsDashed(o.image)
    ensures var options := RunOf(Rendered(w, d, o)).options;
            && ValuesOf(options, "--name") == ["pifleet-" + o.runId + "-" + w.id]
            && ValuesOf(options, "--user") == ["10001:10001"]
            && ValuesOf(options, "--security-opt") == ["no-new-privileges"]
            && ValuesOf(options, "--cap-drop") == ["ALL"]
            && ValuesOf(options, "--pids-limit") == [NatText(d.pidsLimit)]
            && ValuesOf(options, "--memory") == [d.memory] && ValuesOf(options, "--cpus") == [d.cpus]
            && ValuesOf(options, "--network") == [if d.flat then d.network else d.network + "-" + w.provider]
            && ValuesOf(options, "--env-file") == [o.runRoot + "/workers/" + w.id + "/env"]
    ensures RunOf(Rendered(w, d, o)).rest == [o.image] + Texts(PiFlags(w, o.hasBriefing))
  {
    hide *;
    RunIsRead(w, d, o);
    IdentityIsTold(w, d, o);
    PrivilegesAreTold(w, d, o);
    LimitsAreTold(w, d, o);
    AttachmentsAreTold(w, d, o);
  }

  /** No such flag among these pushes. */
  lemma PairsHoldNoFlag(args: seq<Arg>, flag: string)
    requires forall i :: 0 <= i < |args| ==> args[i].Pair?
    ensures Flag(flag) !in args
  {
  }

  lemma HeadFlags(w: Worker, o: Options)
    ensures Flag("-i") in HeadOptions(w, o) && Flag("--rm") in HeadOptions(w, o)
    ensures Flag("-t") in HeadOptions(w, o) <==> w.paneMode == Tui
    ensures Flag("--read-only") !in HeadOptions(w, o)
  {
    hide ContainerName;
    var args := HeadOptions(w, o);
    assert args[0] == Flag("-i") && (w.paneMode == Tui ==> args[1] == Flag("-t"));
    assert args[|args| - 2] == Flag("--rm");
    assert |"--read-only"| == 11 && |"-i"| == 2 && |"-t"| == 2 && |"--rm"| == 4 && "-i"[1] == 'i' && "-t"[1] == 't';
  }

  lemma HardeningFlags(d: Docker)
    ensures Flag("--read-only") in HardeningArgs(d) <==> d.readOnlyRoot
    ensures Flag("-t") !in HardeningArgs(d)
  {
    if d.readOnlyRoot {
      assert HardeningArgs(d)[3] == Flag("--read-only");
    }
    assert |"--read-only"| == 11 && |"-t"| == 2;
  }

  /** The terminal is there exactly for a pane of the worker's own, and the root is read-only exactly when
      the fleet says so. */
  lemma FlagsAreTold(w: Worker, d: Docker, o: Options)
    requires !IsDashed(o.image)
    ensures var options := RunOf(Rendered(w, d, o)).options;
            && Flag("-i") in options && Flag("--rm") in options
            && (Flag("-t") in options <==> w.paneMode == Tui)
            && (Flag("--read-only") in options <==> d.readOnlyRoot)
  {
    hide Rendered, RunOf, PiFlags, Texts, IsDashed, HeadOptions, HardeningArgs, CloneMounts, WorkerMounts, TmpfsSpec,
         NatText, MountSpec, EgressNetwork, WorkerDir;
    RunIsRead(w, d, o);
    HeadFlags(w, o);
    HardeningFlags(d);
    var pairs := ScratchArgs(d) + MountArgs(CloneMounts(o)) + GcloudArgs() + LimitArgs(d)
                 + [Pair("--network", EgressNetwork(w, d))] + [Pair("--env-file", WorkerDir(o, w.id) + "/env")]
                 + MountArgs(WorkerMounts(w, d, o));
    PairsHoldNoFlag(pairs, "-t");
    PairsHoldNoFlag(pairs, "--read-only");
    assert RunOptions(w, d, o) == HeadOptions(w, o) + HardeningArgs(d) + pairs;
  }
}
