/** What `submit_report` promises of the file system at every moment of a call: the envelope is all
    or nothing, it is the last thing to land, and what it says of the task and its files is so. */
module DeliveryProperties {
  import opened Optional
  import opened StringOps
  import opened Paths
  import opened TaskPolicy
  import opened ReportDelivery
  import opened DeliveryPlaces

  function Lookup(fs: Fs, p: Path): Option<Content> {
    if p in fs.files then Some(fs.files[p]) else None
  }

  predicate Touches(op: Op, p: Path) {
    match op
    case MkDir(_) => false
    case Write(path, _) => path == p
    case Rename(from, to) => from == p || to == p
    case Remove(path) => path == p
  }

  lemma {:induction false} UntouchedStays(fs: Fs, ops: seq<Op>, p: Path)
    requires forall i :: 0 <= i < |ops| ==> !Touches(ops[i], p)
    ensures Lookup(ApplyAll(fs, ops), p) == Lookup(fs, p)
    decreases ops
  {
    if ops != [] {
      UntouchedStays(Apply(fs, ops[0]), ops[1..], p);
    }
  }

  lemma {:induction false} DirsOnlyGrow(fs: Fs, ops: seq<Op>)
    ensures fs.dirs <= ApplyAll(fs, ops).dirs
    decreases ops
  {
    if ops != [] {
      DirsOnlyGrow(Apply(fs, ops[0]), ops[1..]);
    }
  }

  lemma TempNameDiffers(name: string, pid: nat, counter: nat)
    ensures |TempName(name, pid, counter)| > |name|
  {
  }

  // --------------------------------------------------------------- atomicity

  lemma OnlyTheLastTouchesEnvelope(taskDir: Path, files: seq<ReportFile>, envelope: Envelope, pid: nat, counter: nat,
                                   k: nat)
    requires k < |PlacedOps(taskDir, files, envelope, pid, counter)|
    ensures var ops := PlacedOps(taskDir, files, envelope, pid, counter);
            if k < |ops| - 1 then !Touches(ops[k], EnvelopePath(taskDir))
            else ops[k].Rename? && ops[k].from != EnvelopePath(taskDir)
  {
    hide PlacedOps, TempName;
    PlacedOpsAt(taskDir, files, envelope, pid, counter, k);
    TempNameDiffers(RESULT_ENVELOPE_NAME, pid, counter + |files| + 1);
    assert EnvelopePath(taskDir)[|taskDir|] == RESULT_ENVELOPE_NAME;
    assert (taskDir + [TempName(RESULT_ENVELOPE_NAME, pid, counter + |files| + 1)])[|taskDir|] != RESULT_ENVELOPE_NAME;
    assert |EnvelopePath(taskDir)| == |taskDir| + 1;
  }

  lemma InterruptedKeeps(fs: Fs, ops: seq<Op>, k: nat, p: Path, held: Option<Content>)
    requires k < |ops| && Lookup(ApplyAll(fs, ops[..k]), p) == held
    requires !Touches(ops[k], p) || (ops[k].Rename? && ops[k].from != p)
    ensures Lookup(CrashState(fs, ops, k), p) == held && Lookup(FailState(fs, ops, k), p) == held
  {
    hide ApplyAll;
  }

  lemma PlacedAllOrNothing(fs: Fs, taskDir: Path, files: seq<ReportFile>, envelope: Envelope, pid: nat, counter: nat,
                           k: nat)
    requires k <= |PlacedOps(taskDir, files, envelope, pid, counter)|
    ensures var ops, p := PlacedOps(taskDir, files, envelope, pid, counter), EnvelopePath(taskDir);
            if k < |ops| then Lookup(CrashState(fs, ops, k), p) == Lookup(FailState(fs, ops, k), p) == Lookup(fs, p)
            else Lookup(CrashState(fs, ops, k), p) == Some(Document(envelope))
  {
    hide PlacedOps, PlacedWrite, TempName, Apply, ApplyAll, CrashState, FailState, Lookup, Touches;
    var ops, p := PlacedOps(taskDir, files, envelope, pid, counter), EnvelopePath(taskDir);
    PlacedOpsLength(taskDir, files, envelope, pid, counter);
    var early := ops[..if k < |ops| then k else |ops| - 2];
    forall i | 0 <= i < |early| ensures !Touches(early[i], p) {
      OnlyTheLastTouchesEnvelope(taskDir, files, envelope, pid, counter, i);
    }
    UntouchedStays(fs, early, p);
    if k < |ops| {
      OnlyTheLastTouchesEnvelope(taskDir, files, envelope, pid, counter, k);
      InterruptedKeeps(fs, ops, k, p, Lookup(fs, p));
    } else {
      var write := PlacedWrite(taskDir, RESULT_ENVELOPE_NAME, Document(envelope), pid, counter + |files|);
      PlacedOpsEnd(taskDir, files, envelope, pid, counter);
      assert ops[..k] == early + write;
      ApplyAllConcat(fs, early, write);
      PlacedWriteOn(ApplyAll(fs, early), taskDir, RESULT_ENVELOPE_NAME, Document(envelope), pid, counter + |files|, p);
      CrashAtTheEnd(fs, ops);
    }
  }

  lemma CrashAtTheEnd(fs: Fs, ops: seq<Op>)
    ensures CrashState(fs, ops, |ops|) == ApplyAll(fs, ops) && ops[..|ops|] == ops
  {
    assert ops[..|ops|] == ops;
  }

  /** A crash at any point, or a failure of any call, leaves `result.json` as it was; once every call
      has been made it holds the complete envelope. No state shows part of one. */
  lemma EnvelopeIsAllOrNothing(fs: Fs, params: Params, live: LiveTask, worker: string, roots: Roots,
                               pid: nat, counter: nat, k: nat)
    requires FilenamesOk(ListOf(params.report))
    requires k <= |DeliveryOps(params, live, worker, roots, pid, counter)|
    ensures var ops := DeliveryOps(params, live, worker, roots, pid, counter);
            var envelope := Segments(EnvelopeText(TaskDir(roots, live)));
            if k < |ops| then
              && Lookup(CrashState(fs, ops, k), envelope) == Lookup(fs, envelope)
              && Lookup(FailState(fs, ops, k), envelope) == Lookup(fs, envelope)
            else
              Lookup(CrashState(fs, ops, k), envelope) == Some(Document(ComposeEnvelope(params, live, worker)))
  {
    hide DeliveryOps, PlacedOps, CrashState, FailState, Lookup, JoinPath, Segments, FilenamesOk, IsBareName;
    CallIsPlaced(params, live, worker, roots, pid, counter);
    EnvelopeIsPlaced(TaskDir(roots, live));
    PlacedAllOrNothing(fs, TaskPath(roots, live), ListOf(params.report), ComposeEnvelope(params, live, worker), pid,
                       counter, k);
  }

  lemma EnvelopeIsPlaced(taskDir: string)
    ensures Segments(EnvelopeText(taskDir)) == EnvelopePath(Segments(taskDir))
  {
    hide JoinPath, Segments, IsBareName;
    EnvelopeNameIsBare();
    JoinBareName(taskDir, RESULT_ENVELOPE_NAME, "");
    assert EnvelopeText(taskDir) + "" == EnvelopeText(taskDir);
    assert RESULT_ENVELOPE_NAME + "" == RESULT_ENVELOPE_NAME;
  }

  lemma ReportIsPlaced(taskDir: string, filename: string)
    requires FilenameOk(filename)
    ensures Segments(JoinPath(FilesDir(taskDir), filename)) == ReportPath(Segments(taskDir), filename)
  {
    hide JoinPath, Segments, IsBareName;
    FilesDirNames(taskDir);
    JoinBareName(FilesDir(taskDir), filename, "");
    assert JoinPath(FilesDir(taskDir), filename) + "" == JoinPath(FilesDir(taskDir), filename);
    assert filename + "" == filename;
  }

  // -------------------------------------------------------- what the envelope says

  /** The places of a task, by their names. */
  lemma PlacesAreNamed(roots: Roots, live: LiveTask, filename: string)
    requires IsBareName(live.taskId)
    ensures Segments(EnvelopeText(TaskDir(roots, live))) == Segments(roots.outboxRoot) + [live.taskId, "result.json"]
    ensures FilenameOk(filename) ==>
              Segments(JoinPath(FilesDir(TaskDir(roots, live)), filename))
              == Segments(roots.outboxRoot) + [live.taskId, "files", filename]
  {
    hide JoinPath, Segments, IsBareName, FilesDir, EnvelopeText;
    JoinBareName(roots.outboxRoot, live.taskId, "");
    assert TaskDir(roots, live) + "" == TaskDir(roots, live) && live.taskId + "" == live.taskId;
    EnvelopeIsPlaced(TaskDir(roots, live));
    if FilenameOk(filename) {
      ReportIsPlaced(TaskDir(roots, live), filename);
    }
  }

  /** The artifacts an envelope claims: those given, then one for each report file. */
  ghost predicate ClaimsAreTheCalls(e: Envelope, given: seq<Artifact>, files: seq<ReportFile>) {
    && (e.artifacts.None? <==> given == [] && files == [])
    && (e.artifacts.Some? ==>
          && |e.artifacts.value| == |given| + |files|
          && (forall i :: 0 <= i < |given| ==> e.artifacts.value[i] == given[i])
          && (forall i :: 0 <= i < |files| ==>
                e.artifacts.value[|given| + i] == Artifact("file", "files/" + files[i].filename)))
  }

  /** After a delivery the task's `result.json` says what the call said, under the policy's task and epoch:
      each argument is there as it was given, and one left out is left out. */
  lemma DeliveredEnvelopeSays(fs: Fs, params: Params, live: LiveTask, worker: string, roots: Roots, pid: nat,
                              counter: nat) returns (e: Envelope)
    requires IsBareName(live.taskId) && FilenamesOk(ListOf(params.report))
    ensures Lookup(ApplyAll(fs, DeliveryOps(params, live, worker, roots, pid, counter)),
                   Segments(roots.outboxRoot) + [live.taskId, "result.json"]) == Some(Document(e))
    ensures e.taskId == live.taskId && e.epoch == live.epoch && e.worker == worker
    ensures e.status == params.status && e.summary == params.summary && e.notes == params.notes
    ensures e.blockers == params.blockers && e.acceptance == params.acceptance && e.commandsRun == params.commandsRun
    ensures ClaimsAreTheCalls(e, ListOf(params.artifacts), ListOf(params.report))
  {
    hide DeliveryOps, Lookup, ApplyAll, CrashState, FailState, JoinPath, Segments, IsBareName, FilenameOk;
    var ops := DeliveryOps(params, live, worker, roots, pid, counter);
    e := ComposeEnvelope(params, live, worker);
    PlacesAreNamed(roots, live, "");
    EnvelopeIsAllOrNothing(fs, params, live, worker, roots, pid, counter, |ops|);
    CrashAtTheEnd(fs, ops);
  }

  /** What a call returns is what its envelope says: its status, task, epoch and claims; and the paths it
      names are the places of the envelope and of the report files. */
  lemma OutcomeTellsEnvelope(fs: Fs, params: Params, live: LiveTask, worker: string, roots: Roots, pid: nat,
                             counter: nat)
    requires IsBareName(live.taskId) && FilenamesOk(ListOf(params.report))
    ensures var r, files := OutcomeOf(params, live, worker, roots), ListOf(params.report);
            && r.Delivered? && Segments(r.path) == Segments(roots.outboxRoot) + [live.taskId, "result.json"]
            && |r.reportPaths| == |files|
            && (forall i :: 0 <= i < |files| ==>
                  Segments(r.reportPaths[i]) == Segments(roots.outboxRoot) + [live.taskId, "files", files[i].filename])
    ensures var r := OutcomeOf(params, live, worker, roots);
            var held := Lookup(ApplyAll(fs, DeliveryOps(params, live, worker, roots, pid, counter)), Segments(r.path));
            && held.Some? && held.value.Document? && var e := held.value.envelope;
            && r.status == e.status && r.taskId == e.taskId && r.epoch == e.epoch
            && |r.artifactFiles| == |ListOf(e.artifacts)|
            && forall i :: 0 <= i < |r.artifactFiles| ==> r.artifactFiles[i] == ListOf(e.artifacts)[i].path
  {
    hide DeliveryOps, Lookup, ApplyAll, CrashState, FailState, JoinPath, Segments, IsBareName, FilenameOk, FilesDir,
         EnvelopeText, TaskDir;
    var ops, files := DeliveryOps(params, live, worker, roots, pid, counter), ListOf(params.report);
    PlacesAreNamed(roots, live, "");
    EnvelopeIsAllOrNothing(fs, params, live, worker, roots, pid, counter, |ops|);
    CrashAtTheEnd(fs, ops);
    forall i | 0 <= i < |files|
      ensures Segments(JoinPath(FilesDir(TaskDir(roots, live)), files[i].filename))
              == Segments(roots.outboxRoot) + [live.taskId, "files", files[i].filename]
    {
      PlacesAreNamed(roots, live, files[i].filename);
    }
  }

  /** What is accepted stays within the caps, and every name and path in it is plain text. */
  lemma AcceptedCallIsPlain(params: Params, policy: Option<string>, roots: Roots, fs: Fs, i: nat)
    requires Accepts(params, policy, roots, fs)
    ensures |ListOf(params.blockers)| <= 64 && |ListOf(params.artifacts)| <= 64 && |ListOf(params.acceptance)| <= 64
    ensures |ListOf(params.commandsRun)| <= 64 && |ListOf(params.report)| <= 4
    ensures i < |ListOf(params.report)| ==>
              var name := ListOf(params.report)[i].filename;
              name != "" && name[0] != '@' && '/' !in name && '\\' !in name && forall c :: c in name ==> !IsControl(c)
    ensures i < |ListOf(params.artifacts)| ==>
              var path := ListOf(params.artifacts)[i].path;
              '\\' !in path && forall c :: c in path ==> !IsControl(c)
  {
    hide ParseTaskPolicy, TaskDir, Resolve, Segments, Within, Contains, Pending, Exists;
    if i < |ListOf(params.report)| {
      var name := ListOf(params.report)[i].filename;
      assert FilenameOk(name);
      assert name[0] == '@' ==> "@" <= name;
    }
    if i < |ListOf(params.artifacts)| {
      var live := ParseTaskPolicy(policy.value).value;
      assert ArtifactOk(ListOf(params.artifacts)[i].path, ListOf(params.report), live, roots, fs);
    }
  }

  // ------------------------------------------------------------ report contents

  /** What one place holds after the report files are written, from what it held before. */
  function Held(c: Option<Content>, dir: Path, files: seq<ReportFile>, pid: nat, counter: nat, p: Path): Option<Content>
    decreases files
  {
    if files == [] then c
    else
      var c' := if p == dir + [files[0].filename] then Some(Text(files[0].content))
                else if p == dir + [TempName(files[0].filename, pid, counter + 1)] then None
                else c;
      Held(c', dir, files[1..], pid, counter + 1, p)
  }

  lemma PlacedWriteOn(fs: Fs, dir: Path, name: string, content: Content, pid: nat, counter: nat, p: Path)
    ensures Lookup(ApplyAll(fs, PlacedWrite(dir, name, content, pid, counter)), p) ==
            if p == dir + [name] then Some(content)
            else if p == dir + [TempName(name, pid, counter + 1)] then None
            else Lookup(fs, p)
  {
    var ops := PlacedWrite(dir, name, content, pid, counter);
    TempNameDiffers(name, pid, counter + 1);
    assert (dir + [name])[|dir|] == name;
    assert (dir + [TempName(name, pid, counter + 1)])[|dir|] == TempName(name, pid, counter + 1);
    assert ops == [ops[0]] + [ops[1]];
    ApplyOneMore(fs, [ops[0]], ops[1]);
    assert ApplyAll(fs, [ops[0]]) == Apply(fs, ops[0]);
  }

  lemma {:induction false} PlacedReportsOn(fs: Fs, dir: Path, files: seq<ReportFile>, pid: nat, counter: nat, p: Path)
    ensures Lookup(ApplyAll(fs, PlacedReports(dir, files, pid, counter)), p)
            == Held(Lookup(fs, p), dir, files, pid, counter, p)
    decreases files
  {
    if files != [] {
      var first := PlacedWrite(dir, files[0].filename, Text(files[0].content), pid, counter);
      PlacedWriteOn(fs, dir, files[0].filename, Text(files[0].content), pid, counter, p);
      ApplyAllConcat(fs, first, PlacedReports(dir, files[1..], pid, counter + 1));
      PlacedReportsOn(ApplyAll(fs, first), dir, files[1..], pid, counter + 1, p);
    }
  }

  /** A later file of the same call goes through a temporary file of this name. */
  ghost predicate Clobbers(files: seq<ReportFile>, pid: nat, counter: nat, j: nat, name: string)
    requires j < |files|
  {
    name == TempName(files[j].filename, pid, counter + j + 1)
  }

  ghost predicate ClobberedAfter(files: seq<ReportFile>, pid: nat, counter: nat, i: int, name: string) {
    exists j: nat | i < j < |files| :: Clobbers(files, pid, counter, j, name)
  }

  /** A place no report file is named for keeps its content unless it is a temporary name. */
  lemma {:induction false} HeldElsewhere(c: Option<Content>, dir: Path, files: seq<ReportFile>, pid: nat,
                                         counter: nat, name: string)
    requires forall i :: 0 <= i < |files| ==> files[i].filename != name
    ensures Held(c, dir, files, pid, counter, dir + [name]) ==
            if ClobberedAfter(files, pid, counter, -1, name) then None else c
    decreases files
  {
    if files != [] {
      var rest := files[1..];
      assert (dir + [name])[|dir|] == name;
      assert (dir + [files[0].filename])[|dir|] == files[0].filename;
      assert (dir + [TempName(files[0].filename, pid, counter + 1)])[|dir|]
          == TempName(files[0].filename, pid, counter + 1);
      var c' := if name == TempName(files[0].filename, pid, counter + 1) then None else c;
      HeldElsewhere(c', dir, rest, pid, counter + 1, name);
      ClobberedShift(files, pid, counter, -1, name);
      if Clobbers(files, pid, counter, 0, name) {
        assert ClobberedAfter(files, pid, counter, -1, name);
      }
    }
  }

  lemma ClobberedShift(files: seq<ReportFile>, pid: nat, counter: nat, i: int, name: string)
    requires files != [] && i >= -1
    ensures ClobberedAfter(files, pid, counter, i + 1, name)
            <==> ClobberedAfter(files[1..], pid, counter + 1, i, name)
    ensures ClobberedAfter(files, pid, counter, -1, name)
            <==> Clobbers(files, pid, counter, 0, name) || ClobberedAfter(files, pid, counter, 0, name)
  {
    if ClobberedAfter(files, pid, counter, i + 1, name) {
      var j: nat :| i + 1 < j < |files| && Clobbers(files, pid, counter, j, name);
      assert Clobbers(files[1..], pid, counter + 1, j - 1, name);
    }
    if ClobberedAfter(files[1..], pid, counter + 1, i, name) {
      var j: nat :| i < j < |files[1..]| && Clobbers(files[1..], pid, counter + 1, j, name);
      assert Clobbers(files, pid, counter, j + 1, name);
    }
    if ClobberedAfter(files, pid, counter, -1, name) {
      var j: nat :| -1 < j < |files| && Clobbers(files, pid, counter, j, name);
      assert j == 0 || Clobbers(files, pid, counter, j, name);
    }
  }

  lemma {:induction false} HeldReport(c: Option<Content>, dir: Path, files: seq<ReportFile>, pid: nat,
                                      counter: nat, i: nat)
    requires i < |files| && forall a, b :: 0 <= a < b < |files| ==> files[a].filename != files[b].filename
    ensures Held(c, dir, files, pid, counter, dir + [files[i].filename]) ==
            if ClobberedAfter(files, pid, counter, i, files[i].filename) then None
            else Some(Text(files[i].content))
    decreases files
  {
    hide TempName;
    var name := files[i].filename;
    assert (dir + [name])[|dir|] == name;
    assert (dir + [files[0].filename])[|dir|] == files[0].filename;
    ClobberedShift(files, pid, counter, i - 1, name);
    if i == 0 {
      HeldElsewhere(Some(Text(files[0].content)), dir, files[1..], pid, counter + 1, name);
    } else {
      var c' := if name == TempName(files[0].filename, pid, counter + 1) then None else c;
      assert (dir + [TempName(files[0].filename, pid, counter + 1)])[|dir|]
          == TempName(files[0].filename, pid, counter + 1);
      HeldReport(c', dir, files[1..], pid, counter + 1, i - 1);
    }
  }

  /** The last two operations and the directory leave everything under `files/` alone. */
  lemma DeliveredBelowFiles(fs: Fs, taskDir: Path, files: seq<ReportFile>, envelope: Envelope, pid: nat, counter: nat,
                            name: string)
    ensures var filesDir := taskDir + [OUTBOX_FILES_DIR];
            Lookup(ApplyAll(fs, PlacedOps(taskDir, files, envelope, pid, counter)), filesDir + [name])
            == Held(Lookup(fs, filesDir + [name]), filesDir, files, pid, counter, filesDir + [name])
  {
    var filesDir := taskDir + [OUTBOX_FILES_DIR];
    var p, head := filesDir + [name], PlacedHead(taskDir, files, pid, counter);
    var tail := [MkDir(taskDir)]
                + PlacedWrite(taskDir, RESULT_ENVELOPE_NAME, Document(envelope), pid, counter + |files|);
    assert PlacedOps(taskDir, files, envelope, pid, counter) == head + tail;
    ApplyAllConcat(fs, head, tail);
    assert |p| == |taskDir| + 2;
    UntouchedStays(ApplyAll(fs, head), tail, p);
    HeadOn(fs, taskDir, files, pid, counter, p);
  }

  /** What the first stretch of a call leaves at any place. */
  lemma HeadOn(fs: Fs, taskDir: Path, files: seq<ReportFile>, pid: nat, counter: nat, p: Path)
    ensures Lookup(ApplyAll(fs, PlacedHead(taskDir, files, pid, counter)), p)
            == Held(Lookup(fs, p), taskDir + [OUTBOX_FILES_DIR], files, pid, counter, p)
  {
    hide PlacedReports, Held;
    var filesDir := taskDir + [OUTBOX_FILES_DIR];
    if files == [] {
      NothingHeld(Lookup(fs, p), filesDir, pid, counter, p);
    } else {
      PlacedReportsOn(Apply(fs, MkDir(filesDir)), filesDir, files, pid, counter, p);
      assert PlacedHead(taskDir, files, pid, counter)[1..] == PlacedReports(filesDir, files, pid, counter);
    }
  }

  lemma NothingHeld(c: Option<Content>, dir: Path, pid: nat, counter: nat, p: Path)
    ensures Held(c, dir, [], pid, counter, p) == c
  {
  }

  /** After a delivery a report file is there with its whole content exactly when no later file of the
      call was written through a temporary file of its name. */
  lemma ReportIsDeliveredIff(fs: Fs, params: Params, live: LiveTask, worker: string, roots: Roots, pid: nat,
                             counter: nat, i: nat)
    requires FilenamesOk(ListOf(params.report)) && i < |ListOf(params.report)|
    ensures var file := ListOf(params.report)[i];
            var after := ApplyAll(fs, DeliveryOps(params, live, worker, roots, pid, counter));
            Lookup(after, Segments(JoinPath(FilesDir(TaskDir(roots, live)), file.filename))) == Some(Text(file.content))
            <==> !ClobberedAfter(ListOf(params.report), pid, counter, i, file.filename)
  {
    hide DeliveryOps, PlacedOps, JoinPath, Segments, TaskDir, FilesDir, TempName, FilenameOk, ClobberedAfter,
         ComposeEnvelope, Lookup, Held;
    var files, taskDir := ListOf(params.report), TaskPath(roots, live);
    var filesDir := taskDir + [OUTBOX_FILES_DIR];
    CallIsPlaced(params, live, worker, roots, pid, counter);
    ReportIsPlaced(TaskDir(roots, live), files[i].filename);
    DeliveredBelowFiles(fs, taskDir, files, ComposeEnvelope(params, live, worker), pid, counter, files[i].filename);
    HeldReport(Lookup(fs, filesDir + [files[i].filename]), filesDir, files, pid, counter, i);
    assert ReportPath(taskDir, files[i].filename) == filesDir + [files[i].filename];
  }

  /** It can happen: with process id 7 and a fresh counter, a file named `b.7.2.tmp` listed before `b`
      is gone when the envelope that claims it lands. */
  lemma ReportCanBeClobbered(fs: Fs, live: LiveTask, worker: string, roots: Roots)
    ensures var files := [ReportFile("b.7.2.tmp", "x"), ReportFile("b", "y")];
            var params := Params(Success, "", None, None, None, None, None, Some(files));
            && FilenamesOk(files)
            && Lookup(ApplyAll(fs, DeliveryOps(params, live, worker, roots, 7, 0)),
                      Segments(JoinPath(FilesDir(TaskDir(roots, live)), "b.7.2.tmp"))) != Some(Text("x"))
  {
    hide TempName, FilenameOk, DeliveryOps, Segments, Lookup, ApplyAll, JoinPath, FilesDir, TaskDir;
    var files := [ReportFile("b.7.2.tmp", "x"), ReportFile("b", "y")];
    var params := Params(Success, "", None, None, None, None, None, Some(files));
    ClobberNames();
    assert Clobbers(files, 7, 0, 1, "b.7.2.tmp");
    ReportIsDeliveredIff(fs, params, live, worker, roots, 7, 0, 0);
  }

  lemma ClobberNames()
    ensures FilenameOk("b.7.2.tmp") && FilenameOk("b") && TempName("b", 7, 2) == "b.7.2.tmp" != "b"
  {
    hide *;
    BareTempName();
    BareLetter();
    TempNameText();
  }

  lemma BareTempName()
    ensures FilenameOk("b.7.2.tmp") && "b.7.2.tmp" != "b"
  {
    hide Contains;
    var name := "b.7.2.tmp";
    DotsApart(name);
    assert name[0] != "@"[0] && |name| > |"b"| && |name| > |".."|;
  }

  lemma BareLetter()
    ensures FilenameOk("b")
  {
    hide Contains;
    var name := "b";
    DotsApart(name);
    assert name[0] != "@"[0] && name[0] != "."[0];
  }

  lemma TempNameText()
    ensures TempName("b", 7, 2) == "b.7.2.tmp"
  {
    assert NatText(7) == "7" && NatText(2) == "2";
    assert "b" + "." + "7" + "." + "2" + ".tmp" == "b.7.2.tmp";
  }

  // ----------------------------------------------------------- truthful claims

  /** A name some write of the call uses for its temporary file. */
  ghost predicate IsTemp(p: Path, taskDir: Path, files: seq<ReportFile>, pid: nat, counter: nat) {
    || p == taskDir + [TempName(RESULT_ENVELOPE_NAME, pid, counter + |files| + 1)]
    || exists j: nat | j < |files| ::
         p == taskDir + [OUTBOX_FILES_DIR, TempName(files[j].filename, pid, counter + j + 1)]
  }

  /** What no write names stays. */
  lemma {:induction false} HeldUnnamed(c: Option<Content>, dir: Path, files: seq<ReportFile>, pid: nat, counter: nat,
                                       p: Path)
    requires forall j: nat :: j < |files| ==> p != dir + [TempName(files[j].filename, pid, counter + j + 1)]
    requires forall j :: 0 <= j < |files| ==> p != dir + [files[j].filename]
    ensures Held(c, dir, files, pid, counter, p) == c
    decreases files
  {
    hide TempName;
    if files != [] {
      TempsOfRest(dir, files, pid, counter, p);
      HeldUnnamed(c, dir, files[1..], pid, counter + 1, p);
    }
  }

  lemma TempsOfRest(dir: Path, files: seq<ReportFile>, pid: nat, counter: nat, p: Path)
    requires files != []
    requires forall j: nat :: j < |files| ==> p != dir + [TempName(files[j].filename, pid, counter + j + 1)]
    ensures p != dir + [TempName(files[0].filename, pid, counter + 1)]
    ensures forall j: nat :: j < |files[1..]| ==>
              p != dir + [TempName(files[1..][j].filename, pid, counter + 1 + j + 1)]
  {
    hide TempName;
    assert p != dir + [TempName(files[0].filename, pid, counter + 0 + 1)];
    forall j: nat | j < |files[1..]| ensures p != dir + [TempName(files[1..][j].filename, pid, counter + 1 + j + 1)] {
      assert p != dir + [TempName(files[j + 1].filename, pid, counter + (j + 1) + 1)];
    }
  }

  lemma {:induction false} HeldNamed(c: Option<Content>, dir: Path, files: seq<ReportFile>, pid: nat, counter: nat,
                                     p: Path, i: nat)
    requires i < |files| && p == dir + [files[i].filename]
    requires forall a, b :: 0 <= a < b < |files| ==> files[a].filename != files[b].filename
    requires forall j: nat :: j < |files| ==> p != dir + [TempName(files[j].filename, pid, counter + j + 1)]
    ensures Held(c, dir, files, pid, counter, p) == Some(Text(files[i].content))
    decreases files
  {
    hide TempName;
    TempsOfRest(dir, files, pid, counter, p);
    assert p[|dir|] == files[i].filename;
    if i == 0 {
      assert forall j | 0 <= j < |files[1..]| :: (dir + [files[1..][j].filename])[|dir|] != files[0].filename;
      HeldUnnamed(Some(Text(files[0].content)), dir, files[1..], pid, counter + 1, p);
    } else {
      assert (dir + [files[0].filename])[|dir|] != files[i].filename;
      HeldNamed(c, dir, files[1..], pid, counter + 1, p, i - 1);
    }
  }

  /** Once the first `n` report files are written, a place that is no temporary name holds the new content
      if it is one of theirs, and else what it held. */
  ghost predicate Replaced(fs: Fs, after: Fs, p: Path, taskDir: Path, files: seq<ReportFile>, n: nat)
    requires n <= |files|
  {
    && (forall i :: 0 <= i < n && p == ReportPath(taskDir, files[i].filename) ==>
          Lookup(after, p) == Some(Text(files[i].content)))
    && (!Pending(p, taskDir, files[..n]) ==> Lookup(after, p) == Lookup(fs, p))
  }

  lemma HeldIsReplaced(fs: Fs, after: Fs, p: Path, taskDir: Path, files: seq<ReportFile>, pid: nat, counter: nat,
                       n: nat)
    requires n <= |files| && !IsTemp(p, taskDir, files, pid, counter)
    requires forall a, b :: 0 <= a < b < |files| ==> files[a].filename != files[b].filename
    requires Lookup(after, p) == Held(Lookup(fs, p), taskDir + [OUTBOX_FILES_DIR], files[..n], pid, counter, p)
    ensures Replaced(fs, after, p, taskDir, files, n)
  {
    hide TempName, Held, Lookup;
    var filesDir, landed := taskDir + [OUTBOX_FILES_DIR], files[..n];
    forall j: nat | j < |landed| ensures p != filesDir + [TempName(landed[j].filename, pid, counter + j + 1)] {
      var temp := TempName(files[j].filename, pid, counter + j + 1);
      assert filesDir + [temp] == taskDir + [OUTBOX_FILES_DIR, temp];
    }
    forall i | 0 <= i < n && p == ReportPath(taskDir, files[i].filename)
      ensures Lookup(after, p) == Some(Text(files[i].content))
    {
      assert p == filesDir + [landed[i].filename];
      HeldNamed(Lookup(fs, p), filesDir, landed, pid, counter, p, i);
    }
    if !Pending(p, taskDir, landed) {
      forall j | 0 <= j < |landed| ensures p != filesDir + [landed[j].filename] {
        assert p != ReportPath(taskDir, landed[j].filename);
        assert filesDir + [landed[j].filename] == ReportPath(taskDir, landed[j].filename);
      }
      HeldUnnamed(Lookup(fs, p), filesDir, landed, pid, counter, p);
    }
  }

  /** What was there, or was to be written, is there afterwards: only temporary names are given up. */
  lemma ExistsAfterDelivery(fs: Fs, params: Params, live: LiveTask, worker: string, roots: Roots, pid: nat,
                            counter: nat, p: Path)
    requires FilenamesOk(ListOf(params.report))
    requires Exists(fs, p) || Pending(p, TaskPath(roots, live), ListOf(params.report))
    requires !IsTemp(p, TaskPath(roots, live), ListOf(params.report), pid, counter)
    ensures Exists(ApplyAll(fs, DeliveryOps(params, live, worker, roots, pid, counter)), p)
  {
    hide DeliveryOps, TaskPath, TempName, FilenameOk, PlacedHead, Held, ApplyAll;
    var taskDir, files, envelope := TaskPath(roots, live), ListOf(params.report), ComposeEnvelope(params, live, worker);
    CallIsPlaced(params, live, worker, roots, pid, counter);
    var ops, head := PlacedOps(taskDir, files, envelope, pid, counter), PlacedHead(taskDir, files, pid, counter);
    DirsOnlyGrow(fs, ops);
    if p !in fs.dirs {
      var last := PlacedWrite(taskDir, RESULT_ENVELOPE_NAME, Document(envelope), pid, counter + |files|);
      HeadOn(fs, taskDir, files, pid, counter, p);
      assert files[..|files|] == files;
      HeldIsReplaced(fs, ApplyAll(fs, head), p, taskDir, files, pid, counter, |files|);
      ApplyAllConcat(fs, head + [MkDir(taskDir)], last);
      ApplyOneMore(fs, head, MkDir(taskDir));
      PlacedWriteOn(ApplyAll(fs, head + [MkDir(taskDir)]), taskDir, RESULT_ENVELOPE_NAME, Document(envelope), pid,
                    counter + |files|, p);
    }
  }

  /** The claim the tool writes for a report file names the file it wrote. */
  lemma ClaimResolves(roots: Roots, live: LiveTask, filename: string)
    requires FilenameOk(filename)
    ensures Resolve(TaskDir(roots, live), Claim(filename).path) == ReportPath(TaskPath(roots, live), filename)
  {
    hide Segments, TaskDir, IsBareName;
    var path := OUTBOX_FILES_DIR + "/" + filename;
    var base := TaskDir(roots, live);
    assert base + "/" + path == base + "/" + OUTBOX_FILES_DIR + "/" + filename;
    assert path[0] == 'f';
    FilesDirIsBare();
    BareNameIsOneSegment(base, OUTBOX_FILES_DIR);
    BareNameIsOneSegment(base + "/" + OUTBOX_FILES_DIR, filename);
  }

  /** Success is truthful: the envelope carries the policy's task and epoch, and every artifact it
      claims resolves inside the task directory or the workdir and exists when the call returns. */
  lemma DeliveredEnvelopeIsTrue(fs: Fs, params: Params, policy: Option<string>, worker: string, roots: Roots,
                                pid: nat, counter: nat, n: nat)
    requires Accepts(params, policy, roots, fs)
    requires var live := ParseTaskPolicy(policy.value).value;
             var artifacts := ListOf(ComposeEnvelope(params, live, worker).artifacts);
             && n < |artifacts|
             && !IsTemp(Resolve(TaskDir(roots, live), artifacts[n].path), TaskPath(roots, live),
                        ListOf(params.report), pid, counter)
    ensures var live := ParseTaskPolicy(policy.value).value;
            var envelope := ComposeEnvelope(params, live, worker);
            var resolved := Resolve(TaskDir(roots, live), ListOf(envelope.artifacts)[n].path);
            && envelope.taskId == live.taskId && envelope.epoch == live.epoch
            && (TaskPath(roots, live) <= resolved
                || (roots.workdir.Some? && Segments(roots.workdir.value) <= resolved))
            && Exists(ApplyAll(fs, DeliveryOps(params, live, worker, roots, pid, counter)), resolved)
  {
    var live := ParseTaskPolicy(policy.value).value;
    var given, files := ListOf(params.artifacts), ListOf(params.report);
    var artifacts := ListOf(ComposeEnvelope(params, live, worker).artifacts);
    var resolved := Resolve(TaskDir(roots, live), artifacts[n].path);
    if n < |given| {
      assert ArtifactOk(given[n].path, files, live, roots, fs);
      ResolveIsNormal(TaskDir(roots, live), given[n].path);
      SegmentsAreNormal(TaskDir(roots, live));
      WithinIsPrefix(Segments(TaskDir(roots, live)), resolved);
      if roots.workdir.Some? {
        SegmentsAreNormal(roots.workdir.value);
        WithinIsPrefix(Segments(roots.workdir.value), resolved);
      }
    } else {
      var i := n - |given|;
      assert artifacts[n] == Claims(files)[i] == Claim(files[i].filename);
      ClaimResolves(roots, live, files[i].filename);
    }
    ExistsAfterDelivery(fs, params, live, worker, roots, pid, counter, resolved);
  }

  /** Which claims are accepted: plain texts that resolve inside the task directory or the workdir, to a
      report file of the call or to something that exists. */
  lemma ClaimIsAcceptedIff(path: string, files: seq<ReportFile>, live: LiveTask, roots: Roots, fs: Fs)
    requires IsBareName(live.taskId)
    ensures var task := Segments(roots.outboxRoot) + [live.taskId];
            var resolved := if path != "" && path[0] == '/' then Segments(path) else Walk(task, Split(path, '/'));
            ArtifactOk(path, files, live, roots, fs)
            <==> && '\\' !in path && (forall i :: 0 <= i < |path| ==> !IsControl(path[i]))
                 && (task <= resolved || (roots.workdir.Some? && Segments(roots.workdir.value) <= resolved))
                 && ((exists i :: 0 <= i < |files| && resolved == task + ["files", files[i].filename])
                     || resolved in fs.files || resolved in fs.dirs)
  {
    hide Walk, JoinPath, IsBareName, Within, Split, IsControl;
    var base := TaskDir(roots, live);
    JoinBareName(roots.outboxRoot, live.taskId, "");
    assert base + "" == base && live.taskId + "" == live.taskId;
    SegmentsBelow(base, path);
    ResolveIsNormal(base, path);
    SegmentsAreNormal(base);
    WithinIsPrefix(Segments(base), Resolve(base, path));
    if roots.workdir.Some? {
      SegmentsAreNormal(roots.workdir.value);
      WithinIsPrefix(Segments(roots.workdir.value), Resolve(base, path));
    }
  }

  lemma ResolveIsNormal(base: string, text: string)
    ensures Normal(Resolve(base, text))
  {
    SegmentsAreNormal(text);
    SegmentsAreNormal(base + "/" + text);
  }
}
