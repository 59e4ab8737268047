/** What an argv says, read from the left one option at a time, as Docker and Pi read theirs; and what a Pi
    argv says about its worker. */
module LaunchContents {
  import opened Optional
  import opened Paths
  import opened LaunchArgv

  // ------------------------------------------------------------------ the reader

  predicate IsDashed(s: string) { s != "" && s[0] == '-' }

  datatype Program = DockerRun | PiAgent

  /** Of the options a launch uses, those without a value. */
  predicate IsBare(program: Program, option: string) {
    match program
    case DockerRun => option == "-i" || option == "-t" || option == "--rm" || option == "--read-only"
    case PiAgent => option == "--no-extensions" || option == "--no-skills" || option == "--no-context-files"
  }

  /** The options in front, and the elements behind them. */
  datatype Reading = Reading(options: seq<Arg>, rest: seq<string>)

  /** An option takes the next element as its value, however that is spelled; the first element that starts
      with no dash ends the options. */
  function ReadOptions(program: Program, argv: seq<string>): Reading
    decreases argv
  {
    if argv == [] || !IsDashed(argv[0]) then Reading([], argv)
    else if IsBare(program, argv[0]) || |argv| == 1 then
      var more := ReadOptions(program, argv[1..]); more.(options := [Flag(argv[0])] + more.options)
    else
      var more := ReadOptions(program, argv[2..]); more.(options := [Pair(argv[0], argv[1])] + more.options)
  }

  predicate Spells(program: Program, a: Arg) {
    !a.Word? && IsDashed(a.name) && (IsBare(program, a.name) <==> a.Flag?)
  }

  predicate AllSpell(program: Program, args: seq<Arg>) { forall i :: 0 <= i < |args| ==> Spells(program, args[i]) }

  lemma PushIsRead(program: Program, a: Arg, rest: seq<string>)
    requires Spells(program, a)
    ensures var more := ReadOptions(program, rest);
            ReadOptions(program, ArgTexts(a) + rest) == Reading([a] + more.options, more.rest)
  {
    hide IsBare, IsDashed;
    var argv := ArgTexts(a) + rest;
    assert argv[|ArgTexts(a)|..] == rest && argv[0] == a.name;
    if a.Pair? {
      assert argv[1] == a.value;
    }
  }

  /** Options are read back as they were pushed, whatever their values are. */
  lemma {:induction false} OptionsAreRead(program: Program, args: seq<Arg>, rest: seq<string>)
    requires AllSpell(program, args) && (rest == [] || !IsDashed(rest[0]))
    ensures ReadOptions(program, Texts(args) + rest) == Reading(args, rest)
    decreases args
  {
    hide Spells, ArgTexts, IsDashed;
    if args == [] {
      NothingIsRead(program, rest);
      assert Texts(args) + rest == rest;
    } else {
      assert Texts(args) + rest == ArgTexts(args[0]) + (Texts(args[1..]) + rest);
      PushIsRead(program, args[0], Texts(args[1..]) + rest);
      OptionsAreRead(program, args[1..], rest);
    }
  }

  lemma NothingIsRead(program: Program, rest: seq<string>)
    requires rest == [] || !IsDashed(rest[0])
    ensures ReadOptions(program, rest) == Reading([], rest)
  {
  }

  function ValueOf(a: Arg, name: string): seq<string> { if a.Pair? && a.name == name then [a.value] else [] }

  /** Every value given to the option `name`, in order. */
  function ValuesOf(args: seq<Arg>, name: string): seq<string> {
    if args == [] then [] else ValueOf(args[0], name) + ValuesOf(args[1..], name)
  }

  lemma {:induction false} ValuesConcat(xs: seq<Arg>, ys: seq<Arg>, name: string)
    ensures ValuesOf(xs + ys, name) == ValuesOf(xs, name) + ValuesOf(ys, name)
    decreases xs
  {
    hide ValueOf;
    if xs == [] {
      assert xs + ys == ys;
    } else {
      assert (xs + ys)[1..] == xs[1..] + ys;
      ValuesConcat(xs[1..], ys, name);
    }
  }

  function Given(here: bool, value: string): seq<string> { if here then [value] else [] }

  lemma OneValue(option: string, value: string, name: string)
    ensures ValuesOf([Pair(option, value)], name) == Given(name == option, value)
  {
    assert [Pair(option, value)][1..] == [];
  }

  // -------------------------------------------------------------- the Pi options

  lemma StartSpells(w: Worker)
    ensures AllSpell(PiAgent, ModeArgs(w)) && AllSpell(PiAgent, SessionArgs(w)) && AllSpell(PiAgent, ExtensionArgs(w))
  {
  }

  lemma TaskSpells(w: Worker, hasBriefing: bool)
    ensures AllSpell(PiAgent, ModelArgs(w)) && AllSpell(PiAgent, ToolArgs(w))
    ensures AllSpell(PiAgent, BriefingArgs(hasBriefing)) && AllSpell(PiAgent, SkillArgs(w.skills))
  {
    hide Join;
  }

  /** The reading of a Pi argv is its pushes, in order, for operator strings of any spelling. */
  lemma PiArgvIsRead(w: Worker, hasBriefing: bool)
    ensures ReadOptions(PiAgent, Texts(PiFlags(w, hasBriefing))) == Reading(PiFlags(w, hasBriefing), [])
  {
    hide Spells, ReadOptions, Texts, ModeArgs, SessionArgs, ExtensionArgs, ModelArgs, ToolArgs, BriefingArgs, SkillArgs;
    StartSpells(w);
    TaskSpells(w, hasBriefing);
    OptionsAreRead(PiAgent, PiFlags(w, hasBriefing), []);
    assert Texts(PiFlags(w, hasBriefing)) + [] == Texts(PiFlags(w, hasBriefing));
  }

  // ---------------------------------------------------------- what it determines

  function Optionally(name: string, value: Option<string>): seq<Arg> {
    if value.Some? then [Pair(name, value.value)] else []
  }

  predicate StartsWith(args: seq<Arg>, name: string) { args != [] && args[0].Pair? && args[0].name == name }

  /** An option that may be left out is told from what follows it by its name. */
  lemma OptionIsTold(name: string, a: Option<string>, xs: seq<Arg>, b: Option<string>, ys: seq<Arg>)
    requires Optionally(name, a) + xs == Optionally(name, b) + ys
    requires !StartsWith(xs, name) && !StartsWith(ys, name)
    ensures a == b && xs == ys
  {
    var one, two := Optionally(name, a) + xs, Optionally(name, b) + ys;
    assert one[|Optionally(name, a)|..] == xs && two[|Optionally(name, b)|..] == ys;
    assert a.Some? ==> one[0] == Pair(name, a.value);
    assert b.Some? ==> two[0] == Pair(name, b.value);
  }

  lemma SameFront(xs: seq<Arg>, more: seq<Arg>, ys: seq<Arg>, rest: seq<Arg>)
    requires xs + more == ys + rest && |xs| == |ys|
    ensures xs == ys && more == rest
  {
    assert xs == (xs + more)[..|xs|] && ys == (ys + rest)[..|ys|];
    assert more == (xs + more)[|xs|..] && rest == (ys + rest)[|ys|..];
  }

  function ToolText(tools: Option<seq<string>>): Option<string> {
    if tools.Some? then Some(Join(tools.value, ',')) else None
  }

  /** An empty list of excluded tools is none at all. */
  function ExcludedText(tools: Option<seq<string>>): Option<string> {
    if tools.Some? && tools.value != [] then Some(Join(tools.value, ',')) else None
  }

  function BriefingText(hasBriefing: bool): Option<string> { if hasBriefing then Some(BRIEFING_MOUNT) else None }

  /** The optional settings, in the order they are pushed, in front of the skills. */
  function FromBriefing(w: Worker, hasBriefing: bool): seq<Arg> {
    Optionally("--append-system-prompt", BriefingText(hasBriefing)) + SkillArgs(w.skills)
  }

  function FromExcluded(w: Worker, hasBriefing: bool): seq<Arg> {
    Optionally("--exclude-tools", ExcludedText(w.excludeTools)) + FromBriefing(w, hasBriefing)
  }

  function FromTools(w: Worker, hasBriefing: bool): seq<Arg> {
    Optionally("--tools", ToolText(w.tools)) + FromExcluded(w, hasBriefing)
  }

  function FromThinking(w: Worker, hasBriefing: bool): seq<Arg> {
    Optionally("--thinking", w.thinking) + FromTools(w, hasBriefing)
  }

  lemma TaskShape(w: Worker, hasBriefing: bool)
    ensures TaskFlags(w, hasBriefing)
            == [Pair("--provider", w.provider), Pair("--model", w.model)] + FromThinking(w, hasBriefing)
  {
    hide ToolArgs, SkillArgs, ToolText, ExcludedText;
    ToolShape(w);
  }

  lemma ToolShape(w: Worker)
    ensures ToolArgs(w) == Optionally("--tools", ToolText(w.tools))
                           + Optionally("--exclude-tools", ExcludedText(w.excludeTools))
  {
    hide Join;
  }

  lemma NamesApart()
    ensures "--skill" != "--append-system-prompt" && "--skill" != "--exclude-tools" && "--skill" != "--tools"
    ensures "--skill" != "--thinking" && "--append-system-prompt" != "--exclude-tools"
    ensures "--append-system-prompt" != "--tools" && "--append-system-prompt" != "--thinking"
    ensures "--exclude-tools" != "--tools" && "--exclude-tools" != "--thinking" && "--tools" != "--thinking"
  {
    assert |"--skill"| == |"--tools"| == 7 && "--skill"[2] != "--tools"[2];
    assert |"--append-system-prompt"| == 22 && |"--exclude-tools"| == 15 && |"--thinking"| == 10;
  }

  lemma OptionsAreTold(v: Worker, hv: bool, w: Worker, hw: bool)
    requires FromThinking(v, hv) == FromThinking(w, hw)
    ensures v.thinking == w.thinking && ToolText(v.tools) == ToolText(w.tools)
    ensures ExcludedText(v.excludeTools) == ExcludedText(w.excludeTools)
    ensures hv == hw && SkillArgs(v.skills) == SkillArgs(w.skills)
  {
    hide ToolText, ExcludedText;
    NamesApart();
    OptionIsTold("--thinking", v.thinking, FromTools(v, hv), w.thinking, FromTools(w, hw));
    OptionIsTold("--tools", ToolText(v.tools), FromExcluded(v, hv), ToolText(w.tools), FromExcluded(w, hw));
    OptionIsTold("--exclude-tools", ExcludedText(v.excludeTools), FromBriefing(v, hv),
                 ExcludedText(w.excludeTools), FromBriefing(w, hw));
    OptionIsTold("--append-system-prompt", BriefingText(hv), SkillArgs(v.skills),
                 BriefingText(hw), SkillArgs(w.skills));
  }

  lemma SkillsAreTold(xs: seq<string>, ys: seq<string>)
    requires SkillArgs(xs) == SkillArgs(ys)
    ensures xs == ys
  {
    forall i | 0 <= i < |xs| ensures i < |ys| && xs[i] == ys[i] {
      assert SkillArgs(xs)[i] == SkillArgs(ys)[i];
      assert ("/skills/" + xs[i])[8..] == xs[i] && ("/skills/" + ys[i])[8..] == ys[i];
    }
  }

  predicate IsToolList(tools: seq<string>) { tools != [] && forall i :: 0 <= i < |tools| ==> ',' !in tools[i] }

  lemma ToolsAreTold(xs: seq<string>, ys: seq<string>)
    requires IsToolList(xs) && IsToolList(ys) && Join(xs, ',') == Join(ys, ',')
    ensures xs == ys
  {
    SplitUndoesJoin(xs, ',');
    SplitUndoesJoin(ys, ',');
  }

  function ModeText(mode: PaneMode): Option<string> { if mode == Tui then None else Some("rpc") }

  function TriggerText(w: Worker): Option<string> {
    if w.paneMode == Tui && w.autoTrigger then Some(DISPATCH_TRIGGER_PATH) else None
  }

  const OWN_EXTENSIONS := [Pair("--extension", TRUNCATION_RECOVERY_PATH), Pair("--extension", REPORT_TOOLS_PATH),
                           Pair("--extension", OUTPUT_TOKEN_CAP_PATH)]

  function FromSession(w: Worker, hasBriefing: bool): seq<Arg> {
    SessionArgs(w) + (Optionally("--extension", TriggerText(w)) + OWN_EXTENSIONS) + TaskFlags(w, hasBriefing)
  }

  lemma PiShape(w: Worker, hasBriefing: bool)
    ensures PiFlags(w, hasBriefing) == Optionally("--mode", ModeText(w.paneMode)) + FromSession(w, hasBriefing)
    ensures !StartsWith(FromSession(w, hasBriefing), "--mode")
    ensures SessionArgs(w)[0] == Pair("--session-id", w.id) && |SessionArgs(w)| == 6
  {
    hide TaskFlags;
    assert |"--mode"| == 6 && |"--session-id"| == 12;
  }

  lemma TriggerIsTold(v: Worker, xs: seq<Arg>, w: Worker, ys: seq<Arg>)
    requires Optionally("--extension", TriggerText(v)) + OWN_EXTENSIONS + xs
             == Optionally("--extension", TriggerText(w)) + OWN_EXTENSIONS + ys
    ensures TriggerText(v) == TriggerText(w) && xs == ys
  {
    assert DISPATCH_TRIGGER_PATH[13] == 'd' && TRUNCATION_RECOVERY_PATH[13] == 't';
    var one, two := Optionally("--extension", TriggerText(v)) + OWN_EXTENSIONS + xs,
                    Optionally("--extension", TriggerText(w)) + OWN_EXTENSIONS + ys;
    assert one[0] == two[0];
    SameFront(Optionally("--extension", TriggerText(v)) + OWN_EXTENSIONS, xs,
              Optionally("--extension", TriggerText(w)) + OWN_EXTENSIONS, ys);
  }

  /** Two Pi argvs that are the same were built from the same session, pane mode, model, thinking level,
      tools, briefing and skills, whatever those strings are. */
  lemma LaunchDeterminesSettings(v: Worker, hv: bool, w: Worker, hw: bool)
    requires Texts(PiFlags(v, hv)) == Texts(PiFlags(w, hw))
    ensures v.id == w.id && v.paneMode == w.paneMode && (v.paneMode == Tui ==> v.autoTrigger == w.autoTrigger)
    ensures v.provider == w.provider && v.model == w.model && v.thinking == w.thinking
    ensures ToolText(v.tools) == ToolText(w.tools) && ExcludedText(v.excludeTools) == ExcludedText(w.excludeTools)
    ensures v.tools.Some? && w.tools.Some? && IsToolList(v.tools.value) && IsToolList(w.tools.value)
            ==> v.tools == w.tools
    ensures hv == hw && v.skills == w.skills
  {
    hide Texts, PiFlags, SessionArgs, TaskFlags, FromThinking, ToolText, ExcludedText, IsToolList, OWN_EXTENSIONS;
    PiArgvIsRead(v, hv);
    PiArgvIsRead(w, hw);
    PiShape(v, hv);
    PiShape(w, hw);
    OptionIsTold("--mode", ModeText(v.paneMode), FromSession(v, hv), ModeText(w.paneMode), FromSession(w, hw));
    SessionIsTold(v, hv, w, hw);
    TaskIsTold(v, hv, w, hw);
    ToolListsAreTold(v, w);
  }

  lemma SessionIsTold(v: Worker, hv: bool, w: Worker, hw: bool)
    requires FromSession(v, hv) == FromSession(w, hw) && v.paneMode == w.paneMode
    ensures v.id == w.id && TaskFlags(v, hv) == TaskFlags(w, hw)
    ensures v.paneMode == Tui ==> v.autoTrigger == w.autoTrigger
  {
    hide SessionArgs, TaskFlags, OWN_EXTENSIONS;
    PiShape(v, hv);
    PiShape(w, hw);
    var one, two := Optionally("--extension", TriggerText(v)) + OWN_EXTENSIONS + TaskFlags(v, hv),
                    Optionally("--extension", TriggerText(w)) + OWN_EXTENSIONS + TaskFlags(w, hw);
    assert FromSession(v, hv) == SessionArgs(v) + one && FromSession(w, hw) == SessionArgs(w) + two;
    SameFront(SessionArgs(v), one, SessionArgs(w), two);
    TriggerIsTold(v, TaskFlags(v, hv), w, TaskFlags(w, hw));
  }

  lemma TaskIsTold(v: Worker, hv: bool, w: Worker, hw: bool)
    requires TaskFlags(v, hv) == TaskFlags(w, hw)
    ensures v.provider == w.provider && v.model == w.model && v.thinking == w.thinking
    ensures ToolText(v.tools) == ToolText(w.tools) && ExcludedText(v.excludeTools) == ExcludedText(w.excludeTools)
    ensures hv == hw && v.skills == w.skills
  {
    hide TaskFlags, FromThinking, ToolText, ExcludedText, SkillArgs;
    TaskShape(v, hv);
    TaskShape(w, hw);
    var one := [Pair("--provider", v.provider), Pair("--model", v.model)];
    var two := [Pair("--provider", w.provider), Pair("--model", w.model)];
    SameFront(one, FromThinking(v, hv), two, FromThinking(w, hw));
    assert one[0] == two[0] && one[1] == two[1];
    OptionsAreTold(v, hv, w, hw);
    SkillsAreTold(v.skills, w.skills);
  }

  lemma ToolListsAreTold(v: Worker, w: Worker)
    requires ToolText(v.tools) == ToolText(w.tools)
    ensures v.tools.Some? && w.tools.Some? && IsToolList(v.tools.value) && IsToolList(w.tools.value)
            ==> v.tools == w.tools
  {
    hide Join, IsToolList;
    if v.tools.Some? && w.tools.Some? && IsToolList(v.tools.value) && IsToolList(w.tools.value) {
      ToolsAreTold(v.tools.value, w.tools.value);
    }
  }

  // ------------------------------------------------------------ what it says

  lemma {:induction false} FlagsHaveNoValues(args: seq<Arg>, name: string)
    requires forall i :: 0 <= i < |args| ==> args[i].Flag?
    ensures ValuesOf(args, name) == []
    decreases args
  {
    if args != [] {
      FlagsHaveNoValues(args[1..], name);
    }
  }

  lemma SessionValues(w: Worker, name: string)
    ensures ValuesOf(SessionArgs(w), name)
            == Given(name == "--session-id", w.id) + Given(name == "--session-dir", "/sessions")
               + Given(name == "--theme", "/opt/pifleet/themes")
  {
    hide ValuesOf, Given;
    var id, dir := [Pair("--session-id", w.id)], [Pair("--session-dir", "/sessions")];
    var flags := [Flag("--no-extensions"), Flag("--no-skills"), Flag("--no-context-files")];
    var theme := [Pair("--theme", "/opt/pifleet/themes")];
    assert SessionArgs(w) == id + dir + flags + theme;
    OneValue("--session-id", w.id, name);
    OneValue("--session-dir", "/sessions", name);
    OneValue("--theme", "/opt/pifleet/themes", name);
    FlagsHaveNoValues(flags, name);
    ValuesConcat(id, dir, name);
    ValuesConcat(id + dir, flags, name);
    ValuesConcat(id + dir + flags, theme, name);
  }

  lemma ModeValues(w: Worker, name: string)
    ensures ValuesOf(ModeArgs(w), name) == Given(name == "--mode" && w.paneMode == Rpc, "rpc")
  {
    OneValue("--mode", "rpc", name);
  }

  /** The extensions a worker is started with. */
  function Extensions(w: Worker): seq<string> {
    (if w.paneMode == Tui && w.autoTrigger then ["/opt/pifleet/dispatch-trigger.ts"] else [])
    + ["/opt/pifleet/truncation-recovery.ts", "/opt/pifleet/report-tools.ts", "/opt/pifleet/output-token-cap.ts"]
  }

  lemma {:induction false} SameOption(args: seq<Arg>, option: string, values: seq<string>, name: string)
    requires |args| == |values| && forall i :: 0 <= i < |args| ==> args[i] == Pair(option, values[i])
    ensures ValuesOf(args, name) == if name == option then values else []
    decreases args
  {
    if args != [] {
      SameOption(args[1..], option, values[1..], name);
    }
  }

  lemma ExtensionValues(w: Worker, name: string)
    ensures ValuesOf(ExtensionArgs(w), name) == if name == "--extension" then Extensions(w) else []
  {
    SameOption(ExtensionArgs(w), "--extension", Extensions(w), name);
  }

  function SkillDirs(skills: seq<string>): seq<string> {
    seq(|skills|, i requires 0 <= i < |skills| => "/skills/" + skills[i])
  }

  lemma OptionalValue(option: string, value: Option<string>, name: string)
    ensures ValuesOf(Optionally(option, value), name) == if value.Some? then Given(name == option, value.value) else []
  {
    if value.Some? { OneValue(option, value.value, name); }
  }

  function Told(option: string, value: Option<string>, name: string): seq<string> {
    if value.Some? then Given(name == option, value.value) else []
  }

  lemma OptionalValues(option: string, value: Option<string>, rest: seq<Arg>, name: string)
    ensures ValuesOf(Optionally(option, value) + rest, name) == Told(option, value, name) + ValuesOf(rest, name)
  {
    hide ValuesOf;
    OptionalValue(option, value, name);
    ValuesConcat(Optionally(option, value), rest, name);
  }

  lemma SettingValues(w: Worker, hasBriefing: bool, name: string)
    ensures ValuesOf(FromThinking(w, hasBriefing), name)
            == Told("--thinking", w.thinking, name)
               + (Told("--tools", ToolText(w.tools), name)
                  + (Told("--exclude-tools", ExcludedText(w.excludeTools), name)
                     + (Told("--append-system-prompt", BriefingText(hasBriefing), name)
                        + if name == "--skill" then SkillDirs(w.skills) else [])))
  {
    hide ValuesOf, Told, Optionally, ToolText, ExcludedText, BriefingText, SkillArgs, SkillDirs;
    OptionalValues("--thinking", w.thinking, FromTools(w, hasBriefing), name);
    OptionalValues("--tools", ToolText(w.tools), FromExcluded(w, hasBriefing), name);
    OptionalValues("--exclude-tools", ExcludedText(w.excludeTools), FromBriefing(w, hasBriefing), name);
    OptionalValues("--append-system-prompt", BriefingText(hasBriefing), SkillArgs(w.skills), name);
    SkillValues(w.skills, name);
  }

  lemma TaskValues(w: Worker, hasBriefing: bool, name: string)
    ensures ValuesOf(TaskFlags(w, hasBriefing), name)
            == Given(name == "--provider", w.provider) + Given(name == "--model", w.model)
               + ValuesOf(FromThinking(w, hasBriefing), name)
  {
    hide ValuesOf, Given, FromThinking;
    TaskShape(w, hasBriefing);
    var provider, model := [Pair("--provider", w.provider)], [Pair("--model", w.model)];
    OneValue("--provider", w.provider, name);
    OneValue("--model", w.model, name);
    assert TaskFlags(w, hasBriefing) == provider + model + FromThinking(w, hasBriefing);
    ValuesConcat(provider, model, name);
    ValuesConcat(provider + model, FromThinking(w, hasBriefing), name);
  }

  lemma SkillValues(skills: seq<string>, name: string)
    ensures ValuesOf(SkillArgs(skills), name) == if name == "--skill" then SkillDirs(skills) else []
  {
    SameOption(SkillArgs(skills), "--skill", SkillDirs(skills), name);
  }

  /** Enough of a name to tell it from the others. */
  function Mark(name: string): (int, char, char) {
    if |name| < 4 then (|name|, ' ', ' ') else (|name|, name[2], name[3])
  }

  lemma PiNames()
    ensures Mark("--mode") == (6, 'm', 'o') && Mark("--session-id") == (12, 's', 'e')
    ensures Mark("--session-dir") == (13, 's', 'e') && Mark("--theme") == (7, 't', 'h')
    ensures Mark("--extension") == (11, 'e', 'x') && Mark("--provider") == (10, 'p', 'r')
    ensures Mark("--model") == (7, 'm', 'o') && Mark("--thinking") == (10, 't', 'h') && Mark("--tools") == (7, 't', 'o')
    ensures Mark("--exclude-tools") == (15, 'e', 'x') && Mark("--append-system-prompt") == (22, 'a', 'p')
    ensures Mark("--skill") == (7, 's', 'k')
  {
  }

  lemma PiValues(w: Worker, hasBriefing: bool, name: string)
    ensures ValuesOf(PiFlags(w, hasBriefing), name)
            == ValuesOf(ModeArgs(w), name) + ValuesOf(SessionArgs(w), name) + ValuesOf(ExtensionArgs(w), name)
               + ValuesOf(TaskFlags(w, hasBriefing), name)
  {
    hide ValuesOf, ModeArgs, SessionArgs, ExtensionArgs, TaskFlags;
    ValuesConcat(StartFlags(w), TaskFlags(w, hasBriefing), name);
    ValuesConcat(ModeArgs(w) + SessionArgs(w), ExtensionArgs(w), name);
    ValuesConcat(ModeArgs(w), SessionArgs(w), name);
  }

  lemma StartIsTold(w: Worker, hasBriefing: bool)
    ensures var options := ReadOptions(PiAgent, Texts(PiFlags(w, hasBriefing))).options;
            && ValuesOf(options, "--mode") == (if w.paneMode == Rpc then ["rpc"] else [])
            && ValuesOf(options, "--session-id") == [w.id] && ValuesOf(options, "--session-dir") == ["/sessions"]
            && ValuesOf(options, "--theme") == ["/opt/pifleet/themes"]
            && ValuesOf(options, "--extension") == Extensions(w)
  {
    hide ReadOptions, Texts, PiFlags, TaskFlags, ModeArgs, SessionArgs, ExtensionArgs, ValuesOf, Extensions, Mark;
    PiNames();
    AtStart(w, hasBriefing, "--mode");
    AtStart(w, hasBriefing, "--session-id");
    AtStart(w, hasBriefing, "--session-dir");
    AtStart(w, hasBriefing, "--theme");
    AtStart(w, hasBriefing, "--extension");
  }

  /** An option of the session is not one of the task. */
  lemma AtStart(w: Worker, hasBriefing: bool, name: string)
    requires Mark(name) in {(6, 'm', 'o'), (12, 's', 'e'), (13, 's', 'e'), (7, 't', 'h'), (11, 'e', 'x')}
    ensures ValuesOf(ReadOptions(PiAgent, Texts(PiFlags(w, hasBriefing))).options, name)
            == Given(name == "--mode" && w.paneMode == Rpc, "rpc")
               + (Given(name == "--session-id", w.id) + Given(name == "--session-dir", "/sessions")
                  + Given(name == "--theme", "/opt/pifleet/themes"))
               + (if name == "--extension" then Extensions(w) else [])
  {
    hide ReadOptions, Texts, PiFlags, TaskFlags, ModeArgs, SessionArgs, ExtensionArgs, ValuesOf, Extensions, Mark,
         FromThinking, ToolText, ExcludedText, BriefingText;
    PiNames();
    PiArgvIsRead(w, hasBriefing);
    PiValues(w, hasBriefing, name);
    ModeValues(w, name);
    SessionValues(w, name);
    ExtensionValues(w, name);
    TaskValues(w, hasBriefing, name);
    SettingValues(w, hasBriefing, name);
  }

  /** And one of the task is none of the session. */
  lemma InTask(w: Worker, hasBriefing: bool, name: string)
    requires Mark(name) !in {(6, 'm', 'o'), (12, 's', 'e'), (13, 's', 'e'), (7, 't', 'h'), (11, 'e', 'x')}
    ensures ValuesOf(ReadOptions(PiAgent, Texts(PiFlags(w, hasBriefing))).options, name)
            == Given(name == "--provider", w.provider) + Given(name == "--model", w.model)
               + ValuesOf(FromThinking(w, hasBriefing), name)
  {
    hide ReadOptions, Texts, PiFlags, TaskFlags, ModeArgs, SessionArgs, ExtensionArgs, ValuesOf, Extensions, Mark,
         FromThinking;
    PiNames();
    PiArgvIsRead(w, hasBriefing);
    PiValues(w, hasBriefing, name);
    ModeValues(w, name);
    SessionValues(w, name);
    ExtensionValues(w, name);
    TaskValues(w, hasBriefing, name);
  }

  lemma ModelIsTold(w: Worker, hasBriefing: bool)
    ensures var options := ReadOptions(PiAgent, Texts(PiFlags(w, hasBriefing))).options;
            && ValuesOf(options, "--provider") == [w.provider] && ValuesOf(options, "--model") == [w.model]
  {
    hide ReadOptions, Texts, PiFlags, ValuesOf, FromThinking, SkillDirs, Mark;
    PiNames();
    InTask(w, hasBriefing, "--provider");
    InTask(w, hasBriefing, "--model");
    SettingValues(w, hasBriefing, "--provider");
    SettingValues(w, hasBriefing, "--model");
  }

  lemma OptionIsSetting(w: Worker, hasBriefing: bool, name: string)
    requires name in ["--thinking", "--tools", "--exclude-tools", "--append-system-prompt", "--skill"]
    ensures ValuesOf(ReadOptions(PiAgent, Texts(PiFlags(w, hasBriefing))).options, name)
            == ValuesOf(FromThinking(w, hasBriefing), name)
  {
    hide ReadOptions, Texts, PiFlags, ValuesOf, FromThinking, Mark;
    PiNames();
    InTask(w, hasBriefing, name);
  }

  lemma ToolingIsTold(w: Worker, hasBriefing: bool)
    ensures var options := ReadOptions(PiAgent, Texts(PiFlags(w, hasBriefing))).options;
            && ValuesOf(options, "--thinking") == (if w.thinking.Some? then [w.thinking.value] else [])
            && ValuesOf(options, "--tools") == (if w.tools.Some? then [Join(w.tools.value, ',')] else [])
            && ValuesOf(options, "--exclude-tools")
               == (if w.excludeTools.Some? && w.excludeTools.value != [] then [Join(w.excludeTools.value, ',')] else [])
  {
    hide ReadOptions, Texts, PiFlags, ValuesOf, FromThinking, SkillDirs, Join, Mark;
    PiNames();
    OptionIsSetting(w, hasBriefing, "--thinking");
    OptionIsSetting(w, hasBriefing, "--tools");
    OptionIsSetting(w, hasBriefing, "--exclude-tools");
    SettingValues(w, hasBriefing, "--thinking");
    SettingValues(w, hasBriefing, "--tools");
    SettingValues(w, hasBriefing, "--exclude-tools");
  }

  lemma BriefingIsTold(w: Worker, hasBriefing: bool)
    ensures var options := ReadOptions(PiAgent, Texts(PiFlags(w, hasBriefing))).options;
            && ValuesOf(options, "--append-system-prompt")
               == (if hasBriefing then ["/briefing/system-append.md"] else [])
            && ValuesOf(options, "--skill") == SkillDirs(w.skills)
  {
    hide ReadOptions, Texts, PiFlags, ValuesOf, FromThinking, SkillDirs, Join, Mark;
    PiNames();
    OptionIsSetting(w, hasBriefing, "--append-system-prompt");
    OptionIsSetting(w, hasBriefing, "--skill");
    SettingValues(w, hasBriefing, "--append-system-prompt");
    SettingValues(w, hasBriefing, "--skill");
  }

  /** A Pi argv gives Pi the worker's own session, mode, model, level, tools, briefing and skills, and the
      image's own extensions and themes; nothing is discovered in the checkout. */
  lemma PiIsTold(w: Worker, hasBriefing: bool)
    ensures var options := ReadOptions(PiAgent, Texts(PiFlags(w, hasBriefing))).options;
            && ValuesOf(options, "--mode") == (if w.paneMode == Rpc then ["rpc"] else [])
            && ValuesOf(options, "--session-id") == [w.id] && ValuesOf(options, "--session-dir") == ["/sessions"]
            && ValuesOf(options, "--theme") == ["/opt/pifleet/themes"]
            && ValuesOf(options, "--extension") == Extensions(w)
            && ValuesOf(options, "--provider") == [w.provider] && ValuesOf(options, "--model") == [w.model]
            && ValuesOf(options, "--thinking") == (if w.thinking.Some? then [w.thinking.value] else [])
            && ValuesOf(options, "--tools") == (if w.tools.Some? then [Join(w.tools.value, ',')] else [])
            && ValuesOf(options, "--exclude-tools")
               == (if w.excludeTools.Some? && w.excludeTools.value != [] then [Join(w.excludeTools.value, ',')] else [])
            && ValuesOf(options, "--append-system-prompt")
               == (if hasBriefing then ["/briefing/system-append.md"] else [])
            && ValuesOf(options, "--skill") == SkillDirs(w.skills)
    ensures forall flag :: flag in ["--no-extensions", "--no-skills", "--no-context-files"] ==>
              Flag(flag) in ReadOptions(PiAgent, Texts(PiFlags(w, hasBriefing))).options
  {
    hide *;
    FlagsAreThere(w, hasBriefing);
    StartIsTold(w, hasBriefing);
    ModelIsTold(w, hasBriefing);
    ToolingIsTold(w, hasBriefing);
    BriefingIsTold(w, hasBriefing);
  }

  lemma FlagsAreThere(w: Worker, hasBriefing: bool)
    ensures forall flag :: flag in ["--no-extensions", "--no-skills", "--no-context-files"] ==>
              Flag(flag) in ReadOptions(PiAgent, Texts(PiFlags(w, hasBriefing))).options
  {
    hide ReadOptions, Texts, TaskFlags, ExtensionArgs;
    PiArgvIsRead(w, hasBriefing);
    var session := SessionArgs(w);
    assert session[2] == Flag("--no-extensions") && session[3] == Flag("--no-skills");
    assert session[4] == Flag("--no-context-files");
  }
}
