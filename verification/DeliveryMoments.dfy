/** A call of `submit_report` that is cut short: what every place holds at each moment, and what becomes of
    the files an earlier envelope of the same task claims. */
module DeliveryMoments {
  import opened Optional
  import opened Paths
  import opened TaskPolicy
  import opened ReportDelivery
  import opened DeliveryPlaces
  import opened DeliveryProperties

  /** How many report files are in place before operation `k`. */
  function Landed(files: seq<ReportFile>, k: nat): (n: nat)
    ensures n <= |files|
  {
    if k == 0 then 0 else if (k - 1) / 2 < |files| then (k - 1) / 2 else |files|
  }

  /** Operation `k` is about a report file. */
  predicate IsReportOp(files: seq<ReportFile>, k: nat) { 0 < k <= 2 * |files| }

  /** The temporary file that operation `k` writes or renames. */
  function OpenTemp(taskDir: Path, files: seq<ReportFile>, pid: nat, counter: nat, k: nat): Path
    requires IsReportOp(files, k)
  {
    var j := (k - 1) / 2;
    taskDir + [OUTBOX_FILES_DIR] + [TempName(files[j].filename, pid, counter + j + 1)]
  }

  lemma CheckpointOn(fs: Fs, taskDir: Path, files: seq<ReportFile>, envelope: Envelope, pid: nat, counter: nat, j: nat,
                     p: Path)
    requires j < |files|
    ensures var ops := PlacedOps(taskDir, files, envelope, pid, counter);
            && 2 * j + 3 < |ops|
            && Lookup(ApplyAll(fs, ops[..1 + 2 * j]), p)
               == Held(Lookup(fs, p), taskDir + [OUTBOX_FILES_DIR], files[..j], pid, counter, p)
  {
    hide Held, PlacedReports, TempName, Lookup;
    var filesDir := taskDir + [OUTBOX_FILES_DIR];
    var ops, make := PlacedOps(taskDir, files, envelope, pid, counter), MkDir(taskDir + [OUTBOX_FILES_DIR]);
    PlacedOpsLength(taskDir, files, envelope, pid, counter);
    PlacedReportsAt(filesDir, files, pid, counter, j);
    assert ops[..1 + 2 * j] == [make] + PlacedReports(filesDir, files[..j], pid, counter);
    ApplyAllConcat(fs, [make], PlacedReports(filesDir, files[..j], pid, counter));
    OneOp(fs, make);
    MakingKeeps(fs, filesDir, p);
    PlacedReportsOn(Apply(fs, make), filesDir, files[..j], pid, counter, p);
  }

  lemma OneOp(fs: Fs, op: Op)
    ensures ApplyAll(fs, [op]) == Apply(fs, op)
  {
    assert [op][1..] == [];
  }

  lemma MakingKeeps(fs: Fs, dir: Path, p: Path)
    ensures Lookup(Apply(fs, MkDir(dir)), p) == Lookup(fs, p)
  {
  }

  /** The two moments of a write: before its temporary file is whole, and before the rename. */
  lemma WriteCutShort(fs: Fs, before: seq<Op>, temp: Path, content: Content, to: Path, rest: seq<Op>, p: Path)
    ensures var ops := before + [Write(temp, content), Rename(temp, to)] + rest;
            var held, k := Lookup(ApplyAll(fs, before), p), |before|;
            && Lookup(CrashState(fs, ops, k), p) == (if p == temp then Some(Torn) else held)
            && Lookup(FailState(fs, ops, k), p) == (if p == temp then None else held)
            && Lookup(CrashState(fs, ops, k + 1), p) == (if p == temp then Some(content) else held)
            && Lookup(FailState(fs, ops, k + 1), p) == if p == temp then None else held
  {
    hide ApplyAll;
    var ops := before + [Write(temp, content), Rename(temp, to)] + rest;
    assert ops[..|before|] == before && ops[..|before| + 1] == before + [Write(temp, content)];
    ApplyOneMore(fs, before, Write(temp, content));
  }

  /** What every place but the envelope's holds when a call is cut short at operation `k`. */
  lemma PlacedCutShort(fs: Fs, taskDir: Path, files: seq<ReportFile>, envelope: Envelope, pid: nat, counter: nat,
                       k: nat, p: Path)
    requires k < |PlacedOps(taskDir, files, envelope, pid, counter)|
    requires p != EnvelopePath(taskDir) && p != taskDir + [TempName(RESULT_ENVELOPE_NAME, pid, counter + |files| + 1)]
    ensures var ops := PlacedOps(taskDir, files, envelope, pid, counter);
            var held := Held(Lookup(fs, p), taskDir + [OUTBOX_FILES_DIR], files[..Landed(files, k)], pid, counter, p);
            if IsReportOp(files, k) && p == OpenTemp(taskDir, files, pid, counter, k) then
              && Lookup(CrashState(fs, ops, k), p)
                 == Some(if k % 2 == 1 then Torn else Text(files[(k - 1) / 2].content))
              && Lookup(FailState(fs, ops, k), p) == None
            else Lookup(CrashState(fs, ops, k), p) == Lookup(FailState(fs, ops, k), p) == held
  {
    hide PlacedOps, TempName, Held, ApplyAll, CrashState, FailState, Lookup, Touches, PlacedHead;
    var ops, h := PlacedOps(taskDir, files, envelope, pid, counter), |PlacedHead(taskDir, files, pid, counter)|;
    PlacedOpsLength(taskDir, files, envelope, pid, counter);
    if IsReportOp(files, k) {
      ReportCutShort(fs, taskDir, files, envelope, pid, counter, (k - 1) / 2, p);
    } else {
      RestCutShort(fs, taskDir, files, envelope, pid, counter, k, p);
    }
  }

  lemma ReportCutShort(fs: Fs, taskDir: Path, files: seq<ReportFile>, envelope: Envelope, pid: nat, counter: nat,
                       j: nat, p: Path)
    requires j < |files|
    ensures var ops := PlacedOps(taskDir, files, envelope, pid, counter);
            var temp := OpenTemp(taskDir, files, pid, counter, 1 + 2 * j);
            var held := Held(Lookup(fs, p), taskDir + [OUTBOX_FILES_DIR], files[..j], pid, counter, p);
            && 2 * j + 3 < |ops|
            && Lookup(CrashState(fs, ops, 2 * j + 1), p) == (if p == temp then Some(Torn) else held)
            && Lookup(FailState(fs, ops, 2 * j + 1), p) == (if p == temp then None else held)
            && Lookup(CrashState(fs, ops, 2 * j + 2), p) == (if p == temp then Some(Text(files[j].content)) else held)
            && Lookup(FailState(fs, ops, 2 * j + 2), p) == if p == temp then None else held
  {
    hide PlacedOps, TempName, Held, ApplyAll, CrashState, FailState, Lookup;
    var ops, filesDir := PlacedOps(taskDir, files, envelope, pid, counter), taskDir + [OUTBOX_FILES_DIR];
    var temp, to := OpenTemp(taskDir, files, pid, counter, 1 + 2 * j), filesDir + [files[j].filename];
    CheckpointOn(fs, taskDir, files, envelope, pid, counter, j, p);
    PlacedOpsAt(taskDir, files, envelope, pid, counter, 2 * j + 1);
    PlacedOpsAt(taskDir, files, envelope, pid, counter, 2 * j + 2);
    var before, rest := ops[..2 * j + 1], ops[2 * j + 3..];
    assert ops == before + [Write(temp, Text(files[j].content)), Rename(temp, to)] + rest;
    WriteCutShort(fs, before, temp, Text(files[j].content), to, rest, p);
  }

  lemma RestCutShort(fs: Fs, taskDir: Path, files: seq<ReportFile>, envelope: Envelope, pid: nat, counter: nat,
                     k: nat, p: Path)
    requires k < |PlacedOps(taskDir, files, envelope, pid, counter)| && !IsReportOp(files, k)
    requires p != EnvelopePath(taskDir) && p != taskDir + [TempName(RESULT_ENVELOPE_NAME, pid, counter + |files| + 1)]
    ensures var ops := PlacedOps(taskDir, files, envelope, pid, counter);
            var held := Held(Lookup(fs, p), taskDir + [OUTBOX_FILES_DIR], files[..Landed(files, k)], pid, counter, p);
            Lookup(CrashState(fs, ops, k), p) == Lookup(FailState(fs, ops, k), p) == held
  {
    hide TempName, Held, ApplyAll, CrashState, FailState, Lookup, PlacedHead;
    var ops, head := PlacedOps(taskDir, files, envelope, pid, counter), PlacedHead(taskDir, files, pid, counter);
    PlacedOpsLength(taskDir, files, envelope, pid, counter);
    PlacedOpsAt(taskDir, files, envelope, pid, counter, k);
    if k < |head| {
      assert files[..0] == [];
      NothingHeld(Lookup(fs, p), taskDir + [OUTBOX_FILES_DIR], pid, counter, p);
      assert ops[..0] == [];
      NothingDone(fs);
      InterruptedKeeps(fs, ops, 0, p, Lookup(fs, p));
    } else {
      var tail := ops[|head|..k];
      assert ops[..k] == head + tail && files[..|files|] == files;
      ApplyAllConcat(fs, head, tail);
      forall i | 0 <= i < |tail| ensures !Touches(tail[i], p) {
        PlacedOpsAt(taskDir, files, envelope, pid, counter, |head| + i);
      }
      UntouchedStays(ApplyAll(fs, head), tail, p);
      HeadOn(fs, taskDir, files, pid, counter, p);
      InterruptedKeeps(fs, ops, k, p, Lookup(ApplyAll(fs, head), p));
    }
  }

  // ------------------------------------------------------------- main results

  /** At each moment of a call every place that is neither the envelope nor a temporary name of the call
      holds the new content if it is a report file already in place, and else what it held before. */
  lemma CutShortReplaces(fs: Fs, params: Params, live: LiveTask, worker: string, roots: Roots, pid: nat,
                         counter: nat, k: nat, p: Path)
    requires FilenamesOk(ListOf(params.report)) && k < |DeliveryOps(params, live, worker, roots, pid, counter)|
    requires !IsTemp(p, TaskPath(roots, live), ListOf(params.report), pid, counter)
    requires p != Segments(EnvelopeText(TaskDir(roots, live)))
    ensures var ops, files := DeliveryOps(params, live, worker, roots, pid, counter), ListOf(params.report);
            && Replaced(fs, CrashState(fs, ops, k), p, TaskPath(roots, live), files, Landed(files, k))
            && Replaced(fs, FailState(fs, ops, k), p, TaskPath(roots, live), files, Landed(files, k))
  {
    hide DeliveryOps, PlacedOps, TempName, Held, CrashState, FailState, Lookup, FilenameOk, EnvelopeText, TaskDir,
         Replaced, Landed, ComposeEnvelope, Segments;
    var files, taskDir, envelope := ListOf(params.report), TaskPath(roots, live), ComposeEnvelope(params, live, worker);
    var ops := DeliveryOps(params, live, worker, roots, pid, counter);
    CallIsPlaced(params, live, worker, roots, pid, counter);
    EnvelopeIsPlaced(TaskDir(roots, live));
    if IsReportOp(files, k) {
      var temp := TempName(files[(k - 1) / 2].filename, pid, counter + (k - 1) / 2 + 1);
      assert OpenTemp(taskDir, files, pid, counter, k) == taskDir + [OUTBOX_FILES_DIR, temp];
    }
    PlacedCutShort(fs, taskDir, files, envelope, pid, counter, k, p);
    HeldIsReplaced(fs, CrashState(fs, ops, k), p, taskDir, files, pid, counter, Landed(files, k));
    HeldIsReplaced(fs, FailState(fs, ops, k), p, taskDir, files, pid, counter, Landed(files, k));
  }

  /** So an envelope of an earlier call stays true of what exists: while a later call of the task is under
      way, or after it was cut short, the envelope is the same and each file it claims is still there,
      unless the later call took that file's name for a temporary one. */
  lemma EarlierEnvelopeStaysTrue(fs: Fs, params: Params, live: LiveTask, worker: string, roots: Roots, pid: nat,
                                 counter: nat, k: nat, p: Path)
    requires FilenamesOk(ListOf(params.report)) && k < |DeliveryOps(params, live, worker, roots, pid, counter)|
    requires p in fs.files && !IsTemp(p, TaskPath(roots, live), ListOf(params.report), pid, counter)
    ensures var ops := DeliveryOps(params, live, worker, roots, pid, counter);
            var envelope := Segments(EnvelopeText(TaskDir(roots, live)));
            && Lookup(CrashState(fs, ops, k), envelope) == Lookup(fs, envelope)
            && Lookup(FailState(fs, ops, k), envelope) == Lookup(fs, envelope)
            && p in CrashState(fs, ops, k).files && p in FailState(fs, ops, k).files
  {
    hide DeliveryOps, TempName, CrashState, FailState, FilenamesOk, EnvelopeText, TaskDir, Landed, IsTemp, Segments;
    EnvelopeIsAllOrNothing(fs, params, live, worker, roots, pid, counter, k);
    var files, taskDir, ops := ListOf(params.report), TaskPath(roots, live),
                               DeliveryOps(params, live, worker, roots, pid, counter);
    if p != Segments(EnvelopeText(TaskDir(roots, live))) {
      CutShortReplaces(fs, params, live, worker, roots, pid, counter, k, p);
      StillThere(fs, CrashState(fs, ops, k), p, taskDir, files, Landed(files, k));
      StillThere(fs, FailState(fs, ops, k), p, taskDir, files, Landed(files, k));
    }
  }

  lemma StillThere(fs: Fs, after: Fs, p: Path, taskDir: Path, files: seq<ReportFile>, n: nat)
    requires n <= |files| && p in fs.files && Replaced(fs, after, p, taskDir, files, n)
    ensures p in after.files
  {
    if Pending(p, taskDir, files[..n]) {
      var i :| 0 <= i < n && p == ReportPath(taskDir, files[..n][i].filename);
      assert files[..n][i] == files[i];
    }
  }

  /** How many report files a call that fails at operation `k` has begun to write. */
  function Opened(files: seq<ReportFile>, k: nat): (n: nat)
    ensures n <= |files|
  {
    Landed(files, k) + if IsReportOp(files, k) then 1 else 0
  }

  /** A file of an earlier call that this one does not name survives a failure at operation `k` exactly when
      no report file begun by then goes through a temporary file of its name. */
  lemma EarlierFileSurvivesIff(fs: Fs, params: Params, live: LiveTask, worker: string, roots: Roots, pid: nat,
                               counter: nat, k: nat, name: string)
    requires FilenamesOk(ListOf(params.report)) && k < |DeliveryOps(params, live, worker, roots, pid, counter)|
    requires forall i :: 0 <= i < |ListOf(params.report)| ==> ListOf(params.report)[i].filename != name
    requires ReportPath(TaskPath(roots, live), name) in fs.files
    ensures var ops, files := DeliveryOps(params, live, worker, roots, pid, counter), ListOf(params.report);
            var p := ReportPath(TaskPath(roots, live), name);
            Lookup(FailState(fs, ops, k), p) == Lookup(fs, p)
            <==> !ClobberedAfter(files[..Opened(files, k)], pid, counter, -1, name)
  {
    hide DeliveryOps, PlacedOps, TempName, Held, FailState, FilenameOk, ComposeEnvelope, TaskPath, ClobberedAfter;
    var files, taskDir, envelope := ListOf(params.report), TaskPath(roots, live), ComposeEnvelope(params, live, worker);
    var filesDir, n := taskDir + [OUTBOX_FILES_DIR], Landed(files, k);
    var p := filesDir + [name];
    assert p == ReportPath(taskDir, name) && |p| == |taskDir| + 2;
    CallIsPlaced(params, live, worker, roots, pid, counter);
    PlacedCutShort(fs, taskDir, files, envelope, pid, counter, k, p);
    HeldElsewhere(Lookup(fs, p), filesDir, files[..n], pid, counter, name);
    if IsReportOp(files, k) {
      OneMoreOpened(files, pid, counter, n, name);
      assert p[|filesDir|] == name;
      assert OpenTemp(taskDir, files, pid, counter, k)[|filesDir|] == TempName(files[n].filename, pid, counter + n + 1);
    }
  }

  lemma OneMoreOpened(files: seq<ReportFile>, pid: nat, counter: nat, n: nat, name: string)
    requires n < |files|
    ensures ClobberedAfter(files[..n + 1], pid, counter, -1, name)
            <==> ClobberedAfter(files[..n], pid, counter, -1, name)
                 || name == TempName(files[n].filename, pid, counter + n + 1)
  {
    hide TempName;
    var more := files[..n + 1];
    if ClobberedAfter(more, pid, counter, -1, name) {
      var j: nat :| -1 < j < |more| && Clobbers(more, pid, counter, j, name);
      assert j < n ==> Clobbers(files[..n], pid, counter, j, name);
    }
    if ClobberedAfter(files[..n], pid, counter, -1, name) {
      var j: nat :| -1 < j < n && Clobbers(files[..n], pid, counter, j, name);
      assert Clobbers(more, pid, counter, j, name);
    }
    if name == TempName(files[n].filename, pid, counter + n + 1) {
      assert Clobbers(more, pid, counter, n, name);
    }
  }
}
