/** `submit_report` (`docker/pi-extensions/report-tools.ts`): refuse first, then write every report
    file and last of all the envelope, each through a temporary name and a rename. */
module ReportDelivery {
  import opened Optional
  import opened StringOps
  import opened Paths
  import opened TaskPolicy

  const OUTBOX_FILES_DIR := "files"
  const RESULT_ENVELOPE_NAME := "result.json"
  const MAX_ENTRIES: nat := 64
  const MAX_REPORT_FILES: nat := 4

  datatype Status = Success | Partial | Blocked | Failed

  datatype Artifact = Artifact(kind: string, path: string)

  datatype ReportFile = ReportFile(filename: string, content: string)

  datatype Criterion = Criterion(criterion: string, met: bool, evidence: Option<string>)

  datatype CommandRun = CommandRun(cmd: string, exitCode: int, excerpt: Option<string>)

  /** The arguments of one call; `None` is an argument left out. */
  datatype Params = Params(
    status: Status, summary: string, notes: Option<string>, blockers: Option<seq<string>>,
    artifacts: Option<seq<Artifact>>, acceptance: Option<seq<Criterion>>,
    commandsRun: Option<seq<CommandRun>>, report: Option<seq<ReportFile>>)

  datatype Envelope = Envelope(
    taskId: string, epoch: nat, worker: string, status: Status, summary: string, notes: Option<string>,
    blockers: Option<seq<string>>, artifacts: Option<seq<Artifact>>,
    acceptance: Option<seq<Criterion>>, commandsRun: Option<seq<CommandRun>>)

  function ListOf<T>(o: Option<seq<T>>): seq<T> {
    if o.None? then [] else o.value
  }

  // -------------------------------------------------------------- file system

  /** What a file holds. `Torn` is whatever an unfinished write has left. */
  datatype Content = Text(text: string) | Document(envelope: Envelope) | Torn

  datatype Fs = Fs(files: map<Path, Content>, dirs: set<Path>)

  predicate Exists(fs: Fs, p: Path) { p in fs.files || p in fs.dirs }

  function Prefixes(p: Path): set<Path> {
    set n | 0 <= n <= |p| :: p[..n]
  }

  /** The four calls that change the file system. */
  datatype Op =
    | MkDir(dir: Path)
    | Write(path: Path, content: Content)
    | Rename(from: Path, to: Path)
    | Remove(path: Path)

  function Apply(fs: Fs, op: Op): Fs {
    match op
    case MkDir(dir) => fs.(dirs := fs.dirs + Prefixes(dir))
    case Write(path, content) => fs.(files := fs.files[path := content])
    case Rename(from, to) =>
      if from in fs.files then fs.(files := (fs.files - {from})[to := fs.files[from]]) else fs
    case Remove(path) => fs.(files := fs.files - {path})
  }

  function ApplyAll(fs: Fs, ops: seq<Op>): Fs
    decreases ops
  {
    if ops == [] then fs else ApplyAll(Apply(fs, ops[0]), ops[1..])
  }

  /** The state a crash leaves that interrupts operation `k`: a file being written is torn. */
  function CrashState(fs: Fs, ops: seq<Op>, k: nat): Fs
    requires k <= |ops|
  {
    var before := ApplyAll(fs, ops[..k]);
    if k < |ops| && ops[k].Write? then Apply(before, Write(ops[k].path, Torn)) else before
  }

  /** The state a failing operation `k` leaves once its temporary file is removed again. */
  function FailState(fs: Fs, ops: seq<Op>, k: nat): Fs
    requires k < |ops|
  {
    match ops[k]
    case Write(path, _) => Apply(CrashState(fs, ops, k), Remove(path))
    case Rename(from, _) => Apply(CrashState(fs, ops, k), Remove(from))
    case _ => CrashState(fs, ops, k)
  }

  // ------------------------------------------------------------------ refusals

  /** Where a call may write and which claims it accepts, from host state alone. */
  datatype Roots = Roots(outboxRoot: string, workdir: Option<string>)

  /** The three texts every call derives from the outbox root and the task id. */
  function TaskDir(roots: Roots, live: LiveTask): string { JoinPath(roots.outboxRoot, live.taskId) }

  function FilesDir(taskDir: string): string { JoinPath(taskDir, OUTBOX_FILES_DIR) }

  function EnvelopeText(taskDir: string): string { JoinPath(taskDir, RESULT_ENVELOPE_NAME) }

  function TaskPath(roots: Roots, live: LiveTask): Path { Segments(TaskDir(roots, live)) }

  function ReportPath(taskDir: Path, filename: string): Path { taskDir + [OUTBOX_FILES_DIR, filename] }

  function EnvelopePath(taskDir: Path): Path { taskDir + [RESULT_ENVELOPE_NAME] }

  predicate OverCap(params: Params) {
    || |ListOf(params.blockers)| > MAX_ENTRIES
    || |ListOf(params.artifacts)| > MAX_ENTRIES
    || |ListOf(params.acceptance)| > MAX_ENTRIES
    || |ListOf(params.commandsRun)| > MAX_ENTRIES
    || |ListOf(params.report)| > MAX_REPORT_FILES
  }

  predicate FilenameOk(filename: string) { !("@" <= filename) && IsBareName(filename) }

  predicate ArtifactPathOk(path: string, taskDir: string, workdir: Option<string>) {
    && (forall i :: 0 <= i < |path| ==> !IsControl(path[i]))
    && '\\' !in path
    && var resolved := Resolve(taskDir, path);
       || Within(Segments(taskDir), resolved)
       || (workdir.Some? && Within(Segments(workdir.value), resolved))
  }

  ghost predicate FilenamesOk(files: seq<ReportFile>) {
    && (forall i :: 0 <= i < |files| ==> FilenameOk(files[i].filename))
    && (forall i, j :: 0 <= i < j < |files| ==> files[i].filename != files[j].filename)
  }

  /** Every check of the first phase, as one condition. */
  ghost predicate Accepts(params: Params, policy: Option<string>, roots: Roots, fs: Fs) {
    && policy.Some? && ParseTaskPolicy(policy.value).Some?
    && !OverCap(params)
    && var live := ParseTaskPolicy(policy.value).value;
       var files, artifacts := ListOf(params.report), ListOf(params.artifacts);
       && FilenamesOk(files)
       && (forall i :: 0 <= i < |artifacts| ==> ArtifactOk(artifacts[i].path, files, live, roots, fs))
  }

  ghost predicate ArtifactOk(path: string, files: seq<ReportFile>, live: LiveTask, roots: Roots, fs: Fs) {
    && ArtifactPathOk(path, TaskDir(roots, live), roots.workdir)
    && var resolved := Resolve(TaskDir(roots, live), path);
       || Pending(resolved, TaskPath(roots, live), files)
       || Exists(fs, resolved)
  }

  /** One of the files this very call is about to write. */
  ghost predicate Pending(p: Path, taskDir: Path, files: seq<ReportFile>) {
    exists i :: 0 <= i < |files| && p == ReportPath(taskDir, files[i].filename)
  }

  // ---------------------------------------------------------------- the writes

  function TempSuffix(pid: nat, counter: nat): string { "." + NatText(pid) + "." + NatText(counter) + ".tmp" }

  /** `${path}.${pid}.${counter}.tmp` */
  function TempName(path: string, pid: nat, counter: nat): string { path + TempSuffix(pid, counter) }

  /** `writeAtomic`, as the counter stands when it is called. */
  function WriteAtomic(path: string, content: Content, pid: nat, counter: nat): seq<Op> {
    var temp := Segments(TempName(path, pid, counter + 1));
    [Write(temp, content), Rename(temp, Segments(path))]
  }

  function ReportOps(filesDir: string, files: seq<ReportFile>, pid: nat, counter: nat): seq<Op>
    decreases files
  {
    if files == [] then []
    else WriteAtomic(JoinPath(filesDir, files[0].filename), Text(files[0].content), pid, counter)
         + ReportOps(filesDir, files[1..], pid, counter + 1)
  }

  function Claim(filename: string): Artifact { Artifact("file", OUTBOX_FILES_DIR + "/" + filename) }

  function Claims(files: seq<ReportFile>): (cs: seq<Artifact>)
    ensures |cs| == |files|
    ensures forall i :: 0 <= i < |files| ==> cs[i] == Claim(files[i].filename)
  {
    seq(|files|, i requires 0 <= i < |files| => Claim(files[i].filename))
  }

  function ComposeEnvelope(params: Params, live: LiveTask, worker: string): Envelope {
    var artifacts := ListOf(params.artifacts) + Claims(ListOf(params.report));
    Envelope(live.taskId, live.epoch, worker, params.status, params.summary, params.notes, params.blockers,
             if artifacts == [] then None else Some(artifacts), params.acceptance, params.commandsRun)
  }

  /** Everything one accepted call does to the file system, in order. */
  function DeliveryOps(params: Params, live: LiveTask, worker: string, roots: Roots, pid: nat, counter: nat): seq<Op> {
    var taskDir, files := TaskDir(roots, live), ListOf(params.report);
    (if files == [] then [] else ReportPhase(taskDir, files, pid, counter))
    + [MkDir(Segments(taskDir))]
    + WriteAtomic(EnvelopeText(taskDir), Document(ComposeEnvelope(params, live, worker)), pid, counter + |files|)
  }

  function ReportPhase(taskDir: string, files: seq<ReportFile>, pid: nat, counter: nat): seq<Op> {
    [MkDir(Segments(FilesDir(taskDir)))] + ReportOps(FilesDir(taskDir), files, pid, counter)
  }

  /** What is begun of a list of operations when `budget` of them succeed. */
  function Begun(ops: seq<Op>, budget: nat): seq<Op> { if budget < |ops| then ops[..budget + 1] else ops }

  /** How many temporary files a list of operations opens. */
  function Writes(ops: seq<Op>): nat
    decreases ops
  {
    if ops == [] then 0 else (if ops[0].Write? then 1 else 0) + Writes(ops[1..])
  }

  // ------------------------------------------------------------------ the tool

  datatype Outcome =
    | Refused
    | Threw
    | Delivered(path: string, status: Status, reportPaths: seq<string>, taskId: string, epoch: nat,
                artifactFiles: seq<string>)

  method CheckFilenames(files: seq<ReportFile>) returns (ok: bool)
    ensures ok <==> FilenamesOk(files)
  {
    var named: set<string> := {};
    for n := 0 to |files|
      invariant named == set i | 0 <= i < n :: files[i].filename
      invariant forall i :: 0 <= i < n ==> FilenameOk(files[i].filename)
      invariant forall i, j :: 0 <= i < j < n ==> files[i].filename != files[j].filename
    {
      if !FilenameOk(files[n].filename) || files[n].filename in named {
        return false;
      }
      named := named + {files[n].filename};
    }
    return true;
  }

  method CheckArtifacts(artifacts: seq<Artifact>, files: seq<ReportFile>, live: LiveTask, roots: Roots, fs: Fs)
    returns (ok: bool)
    requires FilenamesOk(files)
    ensures ok <==> forall i :: 0 <= i < |artifacts| ==> ArtifactOk(artifacts[i].path, files, live, roots, fs)
  {
    hide FilenameOk, ArtifactPathOk, Resolve, TaskDir, TaskPath, FilesDir;
    var taskDir := TaskDir(roots, live);
    var pending: seq<Path> := [];
    for n := 0 to |files|
      invariant |pending| == n
      invariant forall i :: 0 <= i < n ==> pending[i] == ReportPath(TaskPath(roots, live), files[i].filename)
    {
      PendingPath(roots, live, files[n].filename);
      pending := pending + [Resolve(FilesDir(taskDir), files[n].filename)];
    }
    for n := 0 to |artifacts|
      invariant forall i :: 0 <= i < n ==> ArtifactOk(artifacts[i].path, files, live, roots, fs)
    {
      var resolved := Resolve(taskDir, artifacts[n].path);
      assert resolved in pending <==> Pending(resolved, TaskPath(roots, live), files);
      if !ArtifactPathOk(artifacts[n].path, taskDir, roots.workdir) {
        return false;
      }
      if resolved !in pending && !Exists(fs, resolved) {
        return false;
      }
    }
    return true;
  }

  lemma PendingPath(roots: Roots, live: LiveTask, filename: string)
    requires FilenameOk(filename)
    ensures Resolve(FilesDir(TaskDir(roots, live)), filename) == ReportPath(TaskPath(roots, live), filename)
  {
    hide JoinPath, Segments;
    var taskDir := TaskDir(roots, live);
    FilesDirNames(taskDir);
    BareNameIsOneSegment(FilesDir(taskDir), filename);
  }

  lemma FilesDirNames(taskDir: string)
    ensures Segments(FilesDir(taskDir)) == Segments(taskDir) + [OUTBOX_FILES_DIR]
  {
    hide JoinPath, Segments;
    FilesDirIsBare();
    JoinBareName(taskDir, OUTBOX_FILES_DIR, "");
    assert FilesDir(taskDir) + "" == FilesDir(taskDir) && OUTBOX_FILES_DIR + "" == OUTBOX_FILES_DIR;
  }

  lemma FilesDirIsBare()
    ensures IsBareName(OUTBOX_FILES_DIR)
  {
    NoDotsInside(OUTBOX_FILES_DIR);
  }

  lemma {:induction false} NoDotsInside(s: string)
    requires '.' !in s
    ensures !Contains(s, "..")
  {
    if s != "" {
      NoDotsInside(s[1..]);
      assert s[0] != '.';
    }
  }

  /** The extension's process: the file system it sees, its id and its temporary-name counter. */
  class ReportTools {
    var fs: Fs
    var tempCounter: nat
    const pid: nat

    constructor (fs: Fs, pid: nat)
      ensures this.fs == fs && this.pid == pid && tempCounter == 0
    {
      this.fs, this.pid, this.tempCounter := fs, pid, 0;
    }

    /** `budget` is how many more file system calls will succeed. */
    method WriteFile(path: string, content: Content, budget: nat) returns (ok: bool, left: nat)
      modifies this
      ensures tempCounter == old(tempCounter) + 1
      ensures ok <==> budget >= 2
      ensures ok ==> left == budget - 2
      ensures var ops := WriteAtomic(path, content, pid, old(tempCounter));
              fs == if ok then ApplyAll(old(fs), ops) else FailState(old(fs), ops, budget)
    {
      hide TempName, Segments;
      tempCounter := tempCounter + 1;
      var temp := Segments(TempName(path, pid, tempCounter));
      ghost var ops := WriteAtomic(path, content, pid, old(tempCounter));
      assert ops[..0] == [] && ops[..1] == [ops[0]] && ops == [ops[0]] + [ops[1]];
      ApplyOneMore(fs, [ops[0]], ops[1]);
      if budget == 0 {
        fs := Apply(Apply(fs, Write(temp, Torn)), Remove(temp));
        return false, 0;
      }
      fs := Apply(fs, Write(temp, content));
      if budget == 1 {
        fs := Apply(fs, Remove(temp));
        return false, 0;
      }
      fs := Apply(fs, Rename(temp, Segments(path)));
      return true, budget - 2;
    }

    /** The first phase, which changes nothing. */
    method Check(params: Params, roots: Roots, policy: Option<string>) returns (ok: bool)
      ensures ok <==> Accepts(params, policy, roots, fs)
      ensures ok ==> policy.Some? && ParseTaskPolicy(policy.value).Some?
    {
      hide FilenamesOk, ArtifactOk, TaskDir;
      if policy.None? || ParseTaskPolicy(policy.value).None? || OverCap(params) {
        return false;
      }
      var live := ParseTaskPolicy(policy.value).value;
      ok := CheckFilenames(ListOf(params.report));
      if ok {
        ok := CheckArtifacts(ListOf(params.artifacts), ListOf(params.report), live, roots, fs);
      }
    }

    method SubmitReport(params: Params, worker: string, roots: Roots, policy: Option<string>, budget: nat)
      returns (r: Outcome)
      modifies this
      ensures !Accepts(params, policy, roots, old(fs)) ==>
                r.Refused? && fs == old(fs) && tempCounter == old(tempCounter)
      ensures Accepts(params, policy, roots, old(fs)) ==>
                var live := ParseTaskPolicy(policy.value).value;
                var ops := DeliveryOps(params, live, worker, roots, pid, old(tempCounter));
                && tempCounter == old(tempCounter) + Writes(Begun(ops, budget))
                && if budget < |ops| then r.Threw? && fs == FailState(old(fs), ops, budget)
                   else fs == ApplyAll(old(fs), ops) && r == OutcomeOf(params, live, worker, roots)
    {
      hide TaskDir, EnvelopeText, JoinPath, Segments, WriteAtomic, Accepts, FailState, Writes, ApplyAll, ReportPhase,
           Apply;
      var ok := Check(params, roots, policy);
      if !ok {
        return Refused;
      }
      var live := ParseTaskPolicy(policy.value).value;
      var files := ListOf(params.report);
      // Then write; the envelope, which makes the rest known, is last.
      var taskDir := TaskDir(roots, live);
      ghost var ops := DeliveryOps(params, live, worker, roots, pid, tempCounter);
      var left := budget;
      ghost var done: seq<Op> := [];
      var reportPaths: seq<string> := [];
      if files != [] {
        ok, left, reportPaths := WriteReports(taskDir, files, left);
        if !ok {
          FailedEarly(old(fs), ReportPhase(taskDir, files, pid, old(tempCounter)), ops, budget);
          return Threw;
        }
        done := ReportPhase(taskDir, files, pid, old(tempCounter));
      }
      NothingDone(old(fs));
      ghost var make := MkDir(Segments(taskDir));
      if left == 0 {
        FailedNext(old(fs), done, ops);
        WritesOneMore(done, make);
        return Threw;
      }
      fs := Apply(fs, MkDir(Segments(taskDir)));
      ApplyOneMore(old(fs), done, make);
      WritesOneMore(done, make);
      var envelope := ComposeEnvelope(params, live, worker);
      ghost var last := WriteAtomic(EnvelopeText(taskDir), Document(envelope), pid, tempCounter);
      assert ops == done + [make] + last;
      WritesBehind(done + [make], EnvelopeText(taskDir), Document(envelope), pid, tempCounter, budget);
      ok, left := WriteFile(EnvelopeText(taskDir), Document(envelope), left - 1);
      if !ok {
        FailedLate(old(fs), done + [make], last, budget);
        return Threw;
      }
      ApplyAllConcat(old(fs), done + [make], last);
      return Delivered(EnvelopeText(taskDir), params.status, reportPaths, live.taskId, live.epoch,
                       ArtifactPaths(ListOf(envelope.artifacts)));
    }

    method WriteReports(taskDir: string, files: seq<ReportFile>, budget: nat)
      returns (ok: bool, left: nat, reportPaths: seq<string>)
      requires files != []
      modifies this
      ensures var ops := ReportPhase(taskDir, files, pid, old(tempCounter));
              && (ok <==> budget >= |ops|)
              && tempCounter == old(tempCounter) + Writes(Begun(ops, budget))
              && (if ok then
                    && left == budget - |ops| && fs == ApplyAll(old(fs), ops)
                    && tempCounter == old(tempCounter) + |files| && reportPaths == PathsOf(taskDir, files)
                  else fs == FailState(old(fs), ops, budget))
    {
      hide FilesDir, JoinPath, Segments, WriteAtomic, FailState, Writes, Apply;
      var filesDir := FilesDir(taskDir);
      ghost var ops := ReportPhase(taskDir, files, pid, tempCounter);
      reportPaths := [];
      if budget == 0 {
        NothingBegun(fs, ops);
        return false, 0, [];
      }
      fs := Apply(fs, MkDir(Segments(filesDir)));
      left := budget - 1;
      for n := 0 to |files|
        invariant tempCounter == old(tempCounter) + n
        invariant left == budget - 1 - 2 * n
        invariant fs == ApplyAll(old(fs), ReportPhase(taskDir, files[..n], pid, old(tempCounter)))
        invariant reportPaths == PathsOf(taskDir, files[..n])
      {
        var path := JoinPath(filesDir, files[n].filename);
        ghost var done := ReportPhase(taskDir, files[..n], pid, old(tempCounter));
        ghost var next := WriteAtomic(path, Text(files[n].content), pid, tempCounter);
        ReportPhaseStep(taskDir, files, n, pid, old(tempCounter));
        ok, left := WriteFile(path, Text(files[n].content), left);
        if !ok {
          WritesBehind(done, path, Text(files[n].content), pid, old(tempCounter) + n, budget);
          FailedLate(old(fs), done, next, budget);
          FailedEarly(old(fs), done + next, ops, budget);
          return;
        }
        ApplyAllConcat(old(fs), done, next);
        reportPaths := reportPaths + [path];
      }
      ReportPhaseLength(taskDir, files, pid, old(tempCounter));
      assert files[..|files|] == files;
      ok := true;
    }
  }

  function ArtifactPaths(artifacts: seq<Artifact>): (ps: seq<string>)
    ensures |ps| == |artifacts| && forall i :: 0 <= i < |artifacts| ==> ps[i] == artifacts[i].path
  {
    seq(|artifacts|, i requires 0 <= i < |artifacts| => artifacts[i].path)
  }

  function PathsOf(taskDir: string, files: seq<ReportFile>): (ps: seq<string>)
    ensures |ps| == |files|
    ensures forall i :: 0 <= i < |files| ==> ps[i] == JoinPath(FilesDir(taskDir), files[i].filename)
  {
    seq(|files|, i requires 0 <= i < |files| => JoinPath(FilesDir(taskDir), files[i].filename))
  }

  function OutcomeOf(params: Params, live: LiveTask, worker: string, roots: Roots): Outcome {
    var taskDir := TaskDir(roots, live);
    Delivered(EnvelopeText(taskDir), params.status, PathsOf(taskDir, ListOf(params.report)),
              live.taskId, live.epoch, ArtifactPaths(ListOf(ComposeEnvelope(params, live, worker).artifacts)))
  }

  // ------------------------------------------------------ sequences of operations

  lemma {:induction false} ApplyAllConcat(fs: Fs, xs: seq<Op>, ys: seq<Op>)
    ensures ApplyAll(fs, xs + ys) == ApplyAll(ApplyAll(fs, xs), ys)
    decreases xs
  {
    if xs == [] {
      assert xs + ys == ys;
    } else {
      assert (xs + ys)[1..] == xs[1..] + ys;
      ApplyAllConcat(Apply(fs, xs[0]), xs[1..], ys);
    }
  }

  lemma ApplyOneMore(fs: Fs, xs: seq<Op>, op: Op)
    ensures ApplyAll(fs, xs + [op]) == Apply(ApplyAll(fs, xs), op)
  {
    ApplyAllConcat(fs, xs, [op]);
  }

  /** A failure inside a prefix of the operations is that failure of the whole. */
  lemma FailedEarly(fs: Fs, prefix: seq<Op>, ops: seq<Op>, k: nat)
    requires prefix <= ops && k < |prefix|
    ensures FailState(fs, prefix, k) == FailState(fs, ops, k) && Begun(prefix, k) == Begun(ops, k)
  {
    assert prefix[..k] == ops[..k];
  }

  lemma FailedNext(fs: Fs, done: seq<Op>, ops: seq<Op>)
    requires done < ops && ops[|done|].MkDir?
    ensures FailState(fs, ops, |done|) == ApplyAll(fs, done) && Begun(ops, |done|) == done + [ops[|done|]]
  {
    assert ops[..|done|] == done;
  }

  lemma FailedLate(fs: Fs, done: seq<Op>, rest: seq<Op>, k: nat)
    requires |done| <= k < |done| + |rest|
    ensures FailState(fs, done + rest, k) == FailState(ApplyAll(fs, done), rest, k - |done|)
  {
    assert (done + rest)[..k] == done + rest[..k - |done|];
    ApplyAllConcat(fs, done, rest[..k - |done|]);
  }

  lemma {:induction false} ReportOpsStep(dir: string, files: seq<ReportFile>, n: nat, pid: nat, counter: nat)
    requires n < |files|
    ensures ReportOps(dir, files[..n + 1], pid, counter) ==
            ReportOps(dir, files[..n], pid, counter)
            + WriteAtomic(JoinPath(dir, files[n].filename), Text(files[n].content), pid, counter + n)
    ensures ReportOps(dir, files[..n + 1], pid, counter) <= ReportOps(dir, files, pid, counter)
    decreases n
  {
    hide WriteAtomic, JoinPath;
    if n == 0 {
      assert files[..1][1..] == [];
    } else {
      ReportOpsStep(dir, files[1..], n - 1, pid, counter + 1);
      assert files[..n + 1][1..] == files[1..][..n] && files[..n][1..] == files[1..][..n - 1];
    }
  }

  lemma ReportPhaseStep(taskDir: string, files: seq<ReportFile>, n: nat, pid: nat, counter: nat)
    requires n < |files|
    ensures ReportPhase(taskDir, files[..n + 1], pid, counter) ==
            ReportPhase(taskDir, files[..n], pid, counter)
            + WriteAtomic(JoinPath(FilesDir(taskDir), files[n].filename), Text(files[n].content), pid, counter + n)
    ensures ReportPhase(taskDir, files[..n + 1], pid, counter) <= ReportPhase(taskDir, files, pid, counter)
    ensures |ReportPhase(taskDir, files[..n], pid, counter)| == 1 + 2 * n
    ensures Writes(ReportPhase(taskDir, files[..n], pid, counter)) == n
  {
    hide WriteAtomic, JoinPath, FilesDir, Segments;
    ReportOpsStep(FilesDir(taskDir), files, n, pid, counter);
    ReportPhaseLength(taskDir, files[..n], pid, counter);
  }

  lemma ReportPhaseLength(taskDir: string, files: seq<ReportFile>, pid: nat, counter: nat)
    ensures |ReportPhase(taskDir, files, pid, counter)| == 1 + 2 * |files|
    ensures Writes(ReportPhase(taskDir, files, pid, counter)) == |files|
  {
    hide FilesDir, Segments;
    var reports := ReportOps(FilesDir(taskDir), files, pid, counter);
    ReportOpsLength(FilesDir(taskDir), files, pid, counter);
    assert ReportPhase(taskDir, files, pid, counter)[1..] == reports;
  }

  lemma {:induction false} ReportOpsLength(dir: string, files: seq<ReportFile>, pid: nat, counter: nat)
    ensures |ReportOps(dir, files, pid, counter)| == 2 * |files|
    ensures Writes(ReportOps(dir, files, pid, counter)) == |files|
    decreases files
  {
    hide TempName, Segments, JoinPath;
    if files != [] {
      var first := WriteAtomic(JoinPath(dir, files[0].filename), Text(files[0].content), pid, counter);
      ReportOpsLength(dir, files[1..], pid, counter + 1);
      OneWrite(JoinPath(dir, files[0].filename), Text(files[0].content), pid, counter);
      WritesConcat(first, ReportOps(dir, files[1..], pid, counter + 1));
    }
  }

  // ------------------------------------------------------------ counted writes

  lemma {:induction false} WritesConcat(xs: seq<Op>, ys: seq<Op>)
    ensures Writes(xs + ys) == Writes(xs) + Writes(ys)
    decreases xs
  {
    if xs == [] {
      assert xs + ys == ys;
    } else {
      assert (xs + ys)[1..] == xs[1..] + ys;
      WritesConcat(xs[1..], ys);
    }
  }

  lemma OneWrite(path: string, content: Content, pid: nat, counter: nat)
    ensures var ops := WriteAtomic(path, content, pid, counter);
            |ops| == 2 && Writes(ops) == 1 && Writes(ops[..1]) == 1
  {
    hide TempName, Segments;
    var ops := WriteAtomic(path, content, pid, counter);
    assert ops[1..] == [ops[1]] && ops[..1] == [ops[0]] && [ops[0]][1..] == [] && [ops[1]][1..] == [];
    assert Writes([ops[1]]) == 0;
  }

  lemma WritesOneMore(done: seq<Op>, op: Op)
    ensures Writes(done + [op]) == Writes(done) + if op.Write? then 1 else 0
  {
    WritesConcat(done, [op]);
    assert [op][1..] == [];
  }

  /** However far a write gets, it has opened one temporary file. */
  lemma WritesBehind(done: seq<Op>, path: string, content: Content, pid: nat, counter: nat, budget: nat)
    requires |done| <= budget
    ensures Writes(Begun(done + WriteAtomic(path, content, pid, counter), budget)) == Writes(done) + 1
    ensures |WriteAtomic(path, content, pid, counter)| == 2
  {
    hide WriteAtomic, Writes;
    var last := WriteAtomic(path, content, pid, counter);
    OneWrite(path, content, pid, counter);
    var begun := if budget == |done| then last[..1] else last;
    assert Begun(done + last, budget) == done + begun;
    WritesConcat(done, begun);
  }

  lemma NothingDone(fs: Fs)
    ensures ApplyAll(fs, []) == fs && Writes([]) == 0
  {
  }

  lemma NothingBegun(fs: Fs, ops: seq<Op>)
    requires ops != [] && ops[0].MkDir?
    ensures FailState(fs, ops, 0) == fs && Writes(Begun(ops, 0)) == 0
  {
    assert ops[..0] == [] && ops[..1][1..] == [];
  }
}
