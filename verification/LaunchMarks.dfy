/** The two marks of the pane mode on a rendered argv, for operator strings of any spelling: exactly which
    of them hide the mode or forge the other one. */
module LaunchMarks {
  import opened Optional
  import opened StringOps
  import opened Paths
  import opened LaunchArgv
  import opened ArgvReaders
  import opened LaunchRoundTrip

  predicate IsMark(t: string) { t == "-t" || t == "--mode" }

  /** What a reader looks for as an element of its own. */
  predicate IsSought(t: string) { IsMark(t) || IsNetworkFlag(t) }

  /** Some push puts this very element on the argv. */
  predicate Carries(args: seq<Arg>, t: string) { exists i | 0 <= i < |args| :: t in ArgTexts(args[i]) }

  lemma {:induction false} TextsCarry(args: seq<Arg>, t: string)
    ensures t in Texts(args) <==> Carries(args, t)
    decreases args
  {
    hide ArgTexts;
    if args != [] {
      TextsCarry(args[1..], t);
      assert forall i | 0 < i < |args| :: args[i] == args[1..][i - 1];
    }
  }

  lemma CarriesConcat(xs: seq<Arg>, ys: seq<Arg>, t: string)
    ensures Carries(xs + ys, t) <==> Carries(xs, t) || Carries(ys, t)
  {
    hide ArgTexts;
    var all := xs + ys;
    assert forall i | 0 <= i < |xs| :: all[i] == xs[i];
    assert forall i | 0 <= i < |ys| :: all[|xs| + i] == ys[i];
    if i :| 0 <= i < |all| && t in ArgTexts(all[i]) {
      assert i >= |xs| ==> all[i] == ys[i - |xs|];
    }
  }

  // ------------------------------------------------------ which groups carry it

  lemma MarksAreShort(t: string)
    requires IsSought(t)
    ensures '/' !in t && ':' !in t && t != "" && t[0] == '-'
    ensures (|t| == 2 || |t| == 5 || |t| == 6 || |t| == 9)
    ensures |t| == 6 ==> t == "--mode"
    ensures |t| == 2 ==> t == "-t"
  {
  }

  lemma HeadCarries(w: Worker, o: Options, t: string)
    requires IsSought(t)
    ensures Carries(HeadArgs(w, o), t) <==> t == "-t" && w.paneMode == Tui
  {
    hide Carries, ContainerName, HeadArgs;
    HeadParts(w, o);
    var front, back := [Word("docker"), Word("run"), Flag("-i")], [Flag("--rm"), Pair("--name", ContainerName(w, o))];
    FrontCarriesNothing(t);
    BackCarriesNothing(w, o, t);
    if w.paneMode == Tui {
      CarriesConcat(front, [Flag("-t")], t);
      CarriesConcat(front + [Flag("-t")], back, t);
      OneFlag("-t", t);
    } else {
      CarriesConcat(front, back, t);
    }
  }

  lemma HeadParts(w: Worker, o: Options)
    ensures HeadArgs(w, o) == [Word("docker"), Word("run"), Flag("-i")]
                              + (if w.paneMode == Tui then [Flag("-t")] else [])
                              + [Flag("--rm"), Pair("--name", ContainerName(w, o))]
    ensures w.paneMode == Rpc ==> HeadArgs(w, o) == [Word("docker"), Word("run"), Flag("-i")]
                                                    + [Flag("--rm"), Pair("--name", ContainerName(w, o))]
  {
    hide ContainerName;
  }

  lemma OneFlag(flag: string, t: string)
    ensures Carries([Flag(flag)], t) <==> t == flag
  {
    assert [Flag(flag)][0] == Flag(flag);
  }

  lemma FrontCarriesNothing(t: string)
    requires IsSought(t)
    ensures !Carries([Word("docker"), Word("run"), Flag("-i")], t)
  {
    MarksAreShort(t);
  }

  lemma BackCarriesNothing(w: Worker, o: Options, t: string)
    requires IsSought(t)
    ensures !Carries([Flag("--rm"), Pair("--name", ContainerName(w, o))], t)
  {
    MarksAreShort(t);
    assert ContainerName(w, o)[0] == 'p';
  }

  lemma HardeningCarries(d: Docker, t: string)
    requires IsSought(t)
    ensures !Carries(HardeningArgs(d), t)
  {
    MarksAreShort(t);
  }

  lemma TmpfsCarries(target: string, options: seq<string>, t: string)
    requires IsSought(t)
    ensures t !in ArgTexts(Pair("--tmpfs", TmpfsSpec(target, options)))
  {
    hide Join;
    MarksAreShort(t);
    assert TmpfsSpec(target, options)[|target|] == ':';
  }

  lemma ScratchCarries(d: Docker, t: string)
    requires IsSought(t)
    ensures !Carries(ScratchArgs(d), t) && !Carries(GcloudArgs(), t)
  {
    hide TmpfsSpec, ScratchOptions;
    TmpfsCarries("/tmp", ["rw", "noexec", "nosuid", "size=256m"], t);
    TmpfsCarries("/run", ["rw", "noexec", "nosuid", "size=1m"] + OWNED, t);
    TmpfsCarries("/home/pi/repos", ScratchOptions(d), t);
    TmpfsCarries(GCLOUD_CONFIG_DIR, ["rw", "noexec", "nosuid", "size=16m"] + OWNED, t);
  }

  lemma MountCarries(m: Mount, t: string)
    requires IsSought(t)
    ensures t !in ArgTexts(Pair("-v", MountSpec(m)))
  {
    MarksAreShort(t);
    match m
    case Bind(host, target, readOnly) => assert MountSpec(m)[|host|] == ':';
    case Volume(name, target) => assert MountSpec(m)[|name|] == ':';
  }

  lemma MountsCarry(mounts: seq<Mount>, t: string)
    requires IsSought(t)
    ensures !Carries(MountArgs(mounts), t)
  {
    hide MountSpec, ArgTexts;
    forall i | 0 <= i < |mounts| ensures t !in ArgTexts(MountArgs(mounts)[i]) {
      MountCarries(mounts[i], t);
    }
  }

  lemma LimitsCarry(d: Docker, t: string)
    requires IsSought(t)
    ensures Carries(LimitArgs(d), t) <==> t == d.memory || t == d.cpus
  {
    hide NatText;
    MarksAreShort(t);
    var args, digits := LimitArgs(d), NatText(d.pidsLimit);
    assert IsDigit(digits[0]);
    assert args[1] == Pair("--memory", d.memory) && args[2] == Pair("--cpus", d.cpus);
    assert d.memory in ArgTexts(args[1]) && d.cpus in ArgTexts(args[2]);
  }

  lemma EnvCarries(dir: string, t: string)
    requires IsSought(t)
    ensures !Carries([Pair("--env-file", dir + "/env")], t)
  {
    MarksAreShort(t);
    assert (dir + "/env")[|dir|] == '/';
  }

  lemma OneWord(text: string, t: string)
    ensures Carries([Word(text)], t) <==> t == text
  {
    assert [Word(text)][0] == Word(text);
  }

  lemma OnePairCarries(name: string, value: string, t: string)
    requires t != name
    ensures Carries([Pair(name, value)], t) <==> t == value
  {
    assert value in ArgTexts([Pair(name, value)][0]);
  }

  /** The operator's strings that stand on the argv in front of the Pi flags, as elements of their own. */
  function FrontOperands(w: Worker, d: Docker, o: Options): seq<string> {
    [d.memory, d.cpus, EgressNetwork(w, d), o.image]
  }

  function FrontArgs(w: Worker, d: Docker, o: Options): seq<Arg> {
    BeforeNetwork(w, d, o) + [Pair("--network", EgressNetwork(w, d))] + AfterNetwork(w, d, o)
  }

  lemma BeforeNetworkCarries(w: Worker, d: Docker, o: Options, t: string)
    requires IsSought(t)
    ensures Carries(BeforeNetwork(w, d, o), t)
            <==> (t == "-t" && w.paneMode == Tui) || t == d.memory || t == d.cpus
  {
    hide Carries, HeadArgs, HardeningArgs, ScratchArgs, GcloudArgs, LimitArgs, MountArgs, CloneMounts, IsMark;
    var head, hard, scratch := HeadArgs(w, o), HardeningArgs(d), ScratchArgs(d);
    var clone, gcloud, limits := MountArgs(CloneMounts(o)), GcloudArgs(), LimitArgs(d);
    HeadCarries(w, o, t);
    HardeningCarries(d, t);
    ScratchCarries(d, t);
    MountsCarry(CloneMounts(o), t);
    LimitsCarry(d, t);
    CarriesConcat(head, hard, t);
    CarriesConcat(head + hard, scratch, t);
    CarriesConcat(head + hard + scratch, clone, t);
    CarriesConcat(head + hard + scratch + clone, gcloud, t);
    CarriesConcat(head + hard + scratch + clone + gcloud, limits, t);
  }

  lemma AfterNetworkCarries(w: Worker, d: Docker, o: Options, t: string)
    requires IsSought(t)
    ensures Carries(AfterNetwork(w, d, o), t) <==> t == o.image
  {
    hide Carries, MountArgs, WorkerMounts, WorkerDir, IsMark;
    var env, mounts, image := [Pair("--env-file", WorkerDir(o, w.id) + "/env")], MountArgs(WorkerMounts(w, d, o)),
                              [Word(o.image)];
    EnvCarries(WorkerDir(o, w.id), t);
    MountsCarry(WorkerMounts(w, d, o), t);
    OneWord(o.image, t);
    CarriesConcat(env, mounts, t);
    CarriesConcat(env + mounts, image, t);
  }

  lemma FrontCarries(w: Worker, d: Docker, o: Options, t: string)
    requires IsSought(t) && !IsNetworkFlag(t)
    ensures Carries(FrontArgs(w, d, o), t)
            <==> (t == "-t" && w.paneMode == Tui) || t in FrontOperands(w, d, o)
  {
    hide Carries, BeforeNetwork, AfterNetwork, EgressNetwork;
    BeforeNetworkCarries(w, d, o, t);
    AfterNetworkCarries(w, d, o, t);
    var before, network := BeforeNetwork(w, d, o), [Pair("--network", EgressNetwork(w, d))];
    OnePairCarries("--network", EgressNetwork(w, d), t);
    CarriesConcat(before, network, t);
    CarriesConcat(before + network, AfterNetwork(w, d, o), t);
  }

  // -------------------------------------------------------------- the Pi flags

  /** The operator's strings among the Pi flags, as elements of their own. */
  function PiOperands(w: Worker): seq<string> {
    [w.id, w.provider, w.model] + (if w.thinking.Some? then [w.thinking.value] else [])
    + (if w.tools.Some? then [Join(w.tools.value, ',')] else [])
    + (if w.excludeTools.Some? && w.excludeTools.value != [] then [Join(w.excludeTools.value, ',')] else [])
  }

  lemma ModeCarries(w: Worker, t: string)
    requires IsSought(t)
    ensures Carries(ModeArgs(w), t) <==> t == "--mode" && w.paneMode == Rpc
  {
    MarksAreShort(t);
    if w.paneMode == Rpc {
      assert "--mode" in ArgTexts(ModeArgs(w)[0]);
    }
  }

  lemma SessionCarries(w: Worker, t: string)
    requires IsSought(t)
    ensures Carries(SessionArgs(w), t) <==> t == w.id
  {
    MarksAreShort(t);
    assert w.id in ArgTexts(SessionArgs(w)[0]);
  }

  lemma ExtensionsCarry(w: Worker, t: string)
    requires IsSought(t)
    ensures !Carries(ExtensionArgs(w), t)
  {
    MarksAreShort(t);
    var args := ExtensionArgs(w);
    assert forall i | 0 <= i < |args| :: args[i].Pair? && args[i].name == "--extension" && args[i].value[0] == '/';
  }

  lemma ModelCarries(w: Worker, t: string)
    requires IsSought(t)
    ensures Carries(ModelArgs(w), t) <==> t == w.provider || t == w.model || Some(t) == w.thinking
  {
    MarksAreShort(t);
    var args := ModelArgs(w);
    assert w.provider in ArgTexts(args[0]) && w.model in ArgTexts(args[1]);
    if w.thinking.Some? {
      assert args[2] == Pair("--thinking", w.thinking.value) && w.thinking.value in ArgTexts(args[2]);
    }
  }

  lemma ToolsCarry(w: Worker, t: string)
    requires IsSought(t)
    ensures Carries(ToolArgs(w), t)
            <==> (w.tools.Some? && t == Join(w.tools.value, ','))
                 || (w.excludeTools.Some? && w.excludeTools.value != [] && t == Join(w.excludeTools.value, ','))
  {
    hide Join;
    MarksAreShort(t);
    var tools := if w.tools.Some? then [Pair("--tools", Join(w.tools.value, ','))] else [];
    var excluded := if w.excludeTools.Some? && w.excludeTools.value != [] then
                      [Pair("--exclude-tools", Join(w.excludeTools.value, ','))] else [];
    assert ToolArgs(w) == tools + excluded;
    CarriesConcat(tools, excluded, t);
    if w.tools.Some? { OnePairCarries("--tools", Join(w.tools.value, ','), t); }
    if excluded != [] { OnePairCarries("--exclude-tools", Join(w.excludeTools.value, ','), t); }
  }

  lemma BriefingCarries(hasBriefing: bool, skills: seq<string>, t: string)
    requires IsSought(t)
    ensures !Carries(BriefingArgs(hasBriefing) + SkillArgs(skills), t)
  {
    MarksAreShort(t);
    var args := BriefingArgs(hasBriefing) + SkillArgs(skills);
    forall i | 0 <= i < |args| ensures t !in ArgTexts(args[i]) {
      assert args[i].Pair? && |args[i].name| > 6 && args[i].value[0] == '/';
    }
  }

  lemma PiCarries(w: Worker, hasBriefing: bool, t: string)
    requires IsSought(t) && !IsNetworkFlag(t)
    ensures Carries(PiFlags(w, hasBriefing), t) <==> (t == "--mode" && w.paneMode == Rpc) || t in PiOperands(w)
  {
    hide Carries, ModeArgs, SessionArgs, ExtensionArgs, ModelArgs, ToolArgs, BriefingArgs, SkillArgs, IsMark, Join;
    ModeCarries(w, t);
    SessionCarries(w, t);
    ExtensionsCarry(w, t);
    ModelCarries(w, t);
    ToolsCarry(w, t);
    BriefingCarries(hasBriefing, w.skills, t);
    var mode, session, extensions := ModeArgs(w), SessionArgs(w), ExtensionArgs(w);
    var model, tools, rest := ModelArgs(w), ToolArgs(w), BriefingArgs(hasBriefing) + SkillArgs(w.skills);
    CarriesConcat(mode, session, t);
    CarriesConcat(mode + session, extensions, t);
    CarriesConcat(model, tools, t);
    CarriesConcat(model + tools, rest, t);
    assert TaskFlags(w, hasBriefing) == model + tools + rest;
    CarriesConcat(StartFlags(w), TaskFlags(w, hasBriefing), t);
  }

  // -------------------------------------------------------- the first `--mode`

  /** This push neither is the mode flag nor starts with what could be its value. */
  predicate NoLead(a: Arg) { a != Word("rpc") && (!a.Word? ==> IsLongOrShort(a.name) && a.name != "--mode") }

  predicate IsLongOrShort(name: string) { name != "" && name[0] == '-' }

  predicate NoLeads(args: seq<Arg>) { forall i :: 0 <= i < |args| ==> NoLead(args[i]) }

  function LastText(args: seq<Arg>): string {
    if args == [] then "" else ArgTexts(args[|args| - 1])[|ArgTexts(args[|args| - 1])| - 1]
  }

  lemma StartsOtherwise(a: Arg)
    requires NoLead(a)
    ensures ArgTexts(a)[0] != "rpc"
  {
    assert "rpc"[0] != '-';
  }

  lemma ModePastOne(a: Arg, tail: seq<string>)
    requires NoLead(a)
    requires "--mode" in ArgTexts(a) ==> tail == [] || tail[0] != "rpc"
    ensures HasRpcMode(ArgTexts(a) + tail) <==> "--mode" !in ArgTexts(a) && HasRpcMode(tail)
  {
    var texts := ArgTexts(a);
    assert (texts + tail)[1..] == texts[1..] + tail;
    if a.Pair? {
      assert (texts[1..] + tail)[1..] == tail;
    } else {
      assert texts[1..] + tail == tail;
    }
  }

  /** An operator's `--mode` hides every mark behind it, as no such element is followed by `rpc`. */
  lemma {:induction false} ModePast(args: seq<Arg>, rest: seq<string>)
    requires NoLeads(args)
    requires args != [] && LastText(args) == "--mode" ==> rest == [] || rest[0] != "rpc"
    ensures HasRpcMode(Texts(args) + rest) <==> !Carries(args, "--mode") && HasRpcMode(rest)
    decreases args
  {
    hide NoLead, HasRpcMode, ArgTexts;
    if args == [] {
      assert Texts(args) + rest == rest;
    } else {
      var a, tail := args[0], Texts(args[1..]) + rest;
      assert Texts(args) + rest == ArgTexts(a) + tail;
      assert args == [a] + args[1..];
      CarriesConcat([a], args[1..], "--mode");
      assert Carries([a], "--mode") <==> "--mode" in ArgTexts([a][0]);
      NamesAreNoMode(a);
      if |args| > 1 {
        StartsOtherwise(args[1]);
        assert tail[0] == ArgTexts(args[1])[0];
      } else {
        assert tail == rest;
      }
      ModePastOne(a, tail);
      ModePast(args[1..], rest);
    }
  }

  lemma NamesAreNoMode(a: Arg)
    requires NoLead(a)
    ensures "--mode" in ArgTexts(a) ==> ArgTexts(a)[|ArgTexts(a)| - 1] == "--mode"
  {
  }

  lemma NoLeadsConcat(xs: seq<Arg>, ys: seq<Arg>)
    requires NoLeads(xs) && NoLeads(ys)
    ensures NoLeads(xs + ys)
  {
    hide NoLead;
  }

  lemma HeadHasNoLeads(w: Worker, o: Options, d: Docker)
    ensures NoLeads(HeadArgs(w, o)) && NoLeads(HardeningArgs(d))
  {
    hide ContainerName;
  }

  lemma SettingsHaveNoLeads(d: Docker, mounts: seq<Mount>)
    ensures NoLeads(ScratchArgs(d)) && NoLeads(GcloudArgs()) && NoLeads(LimitArgs(d)) && NoLeads(MountArgs(mounts))
  {
    hide TmpfsSpec, MountSpec, NatText;
  }

  lemma EnvHasNoLeads(network: string, env: string)
    ensures NoLeads([Pair("--network", network)]) && NoLeads([Pair("--env-file", env)])
  {
  }

  /** Everything in front of the image. */
  function UpToImage(w: Worker, d: Docker, o: Options): seq<Arg> {
    BeforeNetwork(w, d, o) + [Pair("--network", EgressNetwork(w, d))]
    + [Pair("--env-file", WorkerDir(o, w.id) + "/env")]
    + MountArgs(WorkerMounts(w, d, o))
  }

  lemma UpToImageHasNoLeads(w: Worker, d: Docker, o: Options)
    ensures NoLeads(UpToImage(w, d, o))
  {
    hide NoLeads, HeadArgs, HardeningArgs, ScratchArgs, GcloudArgs, LimitArgs, MountArgs, CloneMounts, WorkerMounts,
         EgressNetwork, WorkerDir;
    HeadHasNoLeads(w, o, d);
    SettingsHaveNoLeads(d, CloneMounts(o));
    SettingsHaveNoLeads(d, WorkerMounts(w, d, o));
    var network, env := [Pair("--network", EgressNetwork(w, d))], [Pair("--env-file", WorkerDir(o, w.id) + "/env")];
    EnvHasNoLeads(EgressNetwork(w, d), WorkerDir(o, w.id) + "/env");
    var hard, scratch, clone := HardeningArgs(d), ScratchArgs(d), MountArgs(CloneMounts(o));
    NoLeadsConcat(HeadArgs(w, o), hard);
    NoLeadsConcat(HeadArgs(w, o) + hard, scratch);
    NoLeadsConcat(HeadArgs(w, o) + hard + scratch, clone);
    NoLeadsConcat(HeadArgs(w, o) + hard + scratch + clone, GcloudArgs());
    NoLeadsConcat(HeadArgs(w, o) + hard + scratch + clone + GcloudArgs(), LimitArgs(d));
    NoLeadsConcat(BeforeNetwork(w, d, o), network);
    NoLeadsConcat(BeforeNetwork(w, d, o) + network, env);
    NoLeadsConcat(BeforeNetwork(w, d, o) + network + env, MountArgs(WorkerMounts(w, d, o)));
  }

  lemma MountsEndOtherwise(before: seq<Arg>, mounts: seq<Mount>)
    requires mounts != []
    ensures LastText(before + MountArgs(mounts)) != "--mode"
  {
    hide MountSpec;
    var last := mounts[|mounts| - 1];
    MountCarries(last, "--mode");
    assert (before + MountArgs(mounts))[|before| + |mounts| - 1] == Pair("-v", MountSpec(last));
  }

  lemma SomethingIsMounted(w: Worker, d: Docker, o: Options)
    ensures WorkerMounts(w, d, o) != []
  {
    hide WorkerDir;
  }

  lemma PiHasNoLeads(w: Worker, hasBriefing: bool)
    ensures NoLeads(SessionArgs(w)) && NoLeads(ExtensionArgs(w)) && NoLeads(ModelArgs(w)) && NoLeads(ToolArgs(w))
    ensures NoLeads(BriefingArgs(hasBriefing) + SkillArgs(w.skills))
  {
    hide Join;
  }

  lemma TuiFlagsHaveNoLeads(w: Worker, hasBriefing: bool)
    requires w.paneMode == Tui
    ensures NoLeads(PiFlags(w, hasBriefing))
  {
    hide NoLeads, SessionArgs, ExtensionArgs, ModelArgs, ToolArgs, BriefingArgs, SkillArgs;
    PiHasNoLeads(w, hasBriefing);
    var rest := BriefingArgs(hasBriefing) + SkillArgs(w.skills);
    NoLeadsConcat(SessionArgs(w), ExtensionArgs(w));
    NoLeadsConcat(ModelArgs(w), ToolArgs(w));
    NoLeadsConcat(ModelArgs(w) + ToolArgs(w), rest);
    assert StartFlags(w) == SessionArgs(w) + ExtensionArgs(w);
    assert TaskFlags(w, hasBriefing) == ModelArgs(w) + ToolArgs(w) + rest;
    NoLeadsConcat(StartFlags(w), TaskFlags(w, hasBriefing));
  }

  lemma PiStarts(w: Worker, hasBriefing: bool)
    ensures w.paneMode == Rpc ==> exists more :: Texts(PiFlags(w, hasBriefing)) == ["--mode", "rpc"] + more
    ensures var texts := Texts(PiFlags(w, hasBriefing)); texts != [] && texts[0] != "rpc"
  {
    hide ExtensionArgs, TaskFlags;
    var flags := PiFlags(w, hasBriefing);
    if w.paneMode == Rpc {
      assert flags[0] == Pair("--mode", "rpc");
      assert Texts(flags) == ["--mode", "rpc"] + Texts(flags[1..]);
    } else {
      assert flags[0] == Pair("--session-id", w.id);
    }
  }

  lemma PiMode(w: Worker, hasBriefing: bool)
    ensures HasRpcMode(Texts(PiFlags(w, hasBriefing))) <==> w.paneMode == Rpc
  {
    if w.paneMode == Rpc {
      PiStarts(w, hasBriefing);
    } else {
      hide PiFlags;
      TuiFlagsHaveNoLeads(w, hasBriefing);
      ModePast(PiFlags(w, hasBriefing), []);
      assert Texts(PiFlags(w, hasBriefing)) + [] == Texts(PiFlags(w, hasBriefing));
    }
  }

  lemma ImageThenPi(image: string, texts: seq<string>)
    requires texts != [] && texts[0] != "rpc"
    ensures HasRpcMode([image] + texts) <==> image != "--mode" && HasRpcMode(texts)
  {
    assert ([image] + texts)[1..] == texts;
  }

  lemma RenderedParts(w: Worker, d: Docker, o: Options)
    ensures Rendered(w, d, o) == Texts(UpToImage(w, d, o)) + ([o.image] + Texts(PiFlags(w, o.hasBriefing)))
    ensures Rendered(w, d, o) == Texts(FrontArgs(w, d, o)) + Texts(PiFlags(w, o.hasBriefing))
    ensures FrontArgs(w, d, o) == UpToImage(w, d, o) + [Word(o.image)]
  {
    hide BeforeNetwork, PiFlags, MountArgs, WorkerMounts, WorkerDir, EgressNetwork, Texts;
    TextsConcat(FrontArgs(w, d, o), PiFlags(w, o.hasBriefing));
    TextsConcat(UpToImage(w, d, o), [Word(o.image)]);
    OneWordText(o.image);
  }

  lemma OneWordText(text: string)
    ensures Texts([Word(text)]) == [text]
  {
    assert [Word(text)][1..] == [];
  }

  lemma RenderedMode(w: Worker, d: Docker, o: Options)
    ensures HasRpcMode(Rendered(w, d, o)) <==> w.paneMode == Rpc && "--mode" !in FrontOperands(w, d, o)
  {
    hide Rendered, UpToImage, FrontArgs, PiFlags, WorkerMounts, HasRpcMode, Texts, NoLeads, Carries, LastText,
         FrontOperands;
    var front, pi := UpToImage(w, d, o), Texts(PiFlags(w, o.hasBriefing));
    RenderedParts(w, d, o);
    UpToImageHasNoLeads(w, d, o);
    UpToImageEnds(w, d, o);
    PiStarts(w, o.hasBriefing);
    PiMode(w, o.hasBriefing);
    ModePast(front, [o.image] + pi);
    ImageThenPi(o.image, pi);
    FrontCarries(w, d, o, "--mode");
    CarriesConcat(front, [Word(o.image)], "--mode");
    OneWord(o.image, "--mode");
  }

  lemma UpToImageEnds(w: Worker, d: Docker, o: Options)
    ensures LastText(UpToImage(w, d, o)) != "--mode"
  {
    hide BeforeNetwork, WorkerMounts, WorkerDir, EgressNetwork, LastText, MountArgs;
    SomethingIsMounted(w, d, o);
    MountsEndOtherwise(BeforeNetwork(w, d, o) + [Pair("--network", EgressNetwork(w, d))]
                       + [Pair("--env-file", WorkerDir(o, w.id) + "/env")], WorkerMounts(w, d, o));
  }

  lemma RenderedTty(w: Worker, d: Docker, o: Options)
    ensures "-t" in Rendered(w, d, o)
            <==> w.paneMode == Tui || "-t" in FrontOperands(w, d, o) || "-t" in PiOperands(w)
  {
    hide Rendered, FrontArgs, PiFlags, Texts, Carries, FrontOperands, PiOperands;
    RenderedParts(w, d, o);
    TextsCarry(FrontArgs(w, d, o), "-t");
    TextsCarry(PiFlags(w, o.hasBriefing), "-t");
    FrontCarries(w, d, o, "-t");
    PiCarries(w, o.hasBriefing, "-t");
  }

  // -------------------------------------------------------------- main results

  /** No operator string is `-t`, and none in front of the Pi flags is `--mode`. */
  predicate HidesNothing(w: Worker, d: Docker, o: Options) {
    "-t" !in FrontOperands(w, d, o) + PiOperands(w) && "--mode" !in FrontOperands(w, d, o)
  }

  /** What is read back from any worker's launch, whatever the operator's strings are: a `tui` worker's
      mode always; an `rpc` worker's unless a mark is forged or hidden; and the opposite mode exactly for
      an `rpc` worker recorded as `tui` whose strings both forge the one mark and hide the other. */
  lemma PaneModeIsExactly(w: Worker, d: Docker, o: Options, recorded: PaneMode, container: string)
    ensures LaunchPaneMode(Launch(Rendered(w, d, o), recorded, container))
            == if recorded == w.paneMode then
                 (if w.paneMode == Tui || HidesNothing(w, d, o) then Known(recorded) else Unknown)
               else if recorded == Tui && "--mode" in FrontOperands(w, d, o)
                       && "-t" in FrontOperands(w, d, o) + PiOperands(w) then Known(Tui)
               else Unknown
  {
    hide Rendered, FrontOperands, PiOperands, HasRpcMode;
    RenderedMode(w, d, o);
    RenderedTty(w, d, o);
  }

  /** So a recorded mode is recovered if and only if nothing hides it. */
  lemma PaneModeIsRecoveredIff(w: Worker, d: Docker, o: Options, container: string)
    ensures LaunchPaneMode(Launch(Rendered(w, d, o), w.paneMode, container)) == Known(w.paneMode)
            <==> w.paneMode == Tui || HidesNothing(w, d, o)
  {
    hide Rendered, HidesNothing, LaunchPaneMode;
    PaneModeIsExactly(w, d, o, w.paneMode, container);
  }

  /** A launched worker is interrupted by a signal to its own container in `tui` mode, and in `rpc` mode over
      its control socket unless a string hides the mode; then not at all. */
  lemma InterruptIsExactly(w: Worker, d: Docker, o: Options)
    ensures PlanInterrupt(Some(Launch(Rendered(w, d, o), w.paneMode, ContainerName(w, o))))
            == if w.paneMode == Tui then
                 Signal(ContainerName(w, o), ["docker", "kill", "--signal=INT", ContainerName(w, o)])
               else if HidesNothing(w, d, o) then ByControlSocket
               else Unavailable
  {
    hide Rendered, HidesNothing, LaunchPaneMode;
    PaneModeIsExactly(w, d, o, w.paneMode, ContainerName(w, o));
    assert ContainerName(w, o)[0] == 'p';
  }

  /** A model called `-t`, which a config may name, hides the mode of an `rpc` worker. */
  lemma DashedModelHidesMode(w: Worker, d: Docker, o: Options, container: string)
    requires w.model == "-t" && w.paneMode == Rpc
    ensures LaunchPaneMode(Launch(Rendered(w, d, o), Rpc, container)) == Unknown
  {
    hide Rendered, FrontOperands, LaunchPaneMode;
    PaneModeIsExactly(w, d, o, Rpc, container);
    assert "-t" == PiOperands(w)[2];
  }
}
