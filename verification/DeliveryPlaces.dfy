/** Where one call of `submit_report` writes. The call works on path texts it joins from names the model
    chose; the check on those names is what keeps every text below the task directory. */
module DeliveryPlaces {
  import opened StringOps
  import opened Paths
  import opened TaskPolicy
  import opened ReportDelivery

  // --------------------------------------------------- the operations, placed

  /** A write below `dir`, by the name of its last segment alone. */
  function PlacedWrite(dir: Path, name: string, content: Content, pid: nat, counter: nat): seq<Op> {
    var temp := dir + [TempName(name, pid, counter + 1)];
    [Write(temp, content), Rename(temp, dir + [name])]
  }

  function PlacedReports(dir: Path, files: seq<ReportFile>, pid: nat, counter: nat): seq<Op>
    decreases files
  {
    if files == [] then []
    else PlacedWrite(dir, files[0].filename, Text(files[0].content), pid, counter)
         + PlacedReports(dir, files[1..], pid, counter + 1)
  }

  function PlacedHead(taskDir: Path, files: seq<ReportFile>, pid: nat, counter: nat): seq<Op> {
    var filesDir := taskDir + [OUTBOX_FILES_DIR];
    if files == [] then [] else [MkDir(filesDir)] + PlacedReports(filesDir, files, pid, counter)
  }

  function PlacedOps(taskDir: Path, files: seq<ReportFile>, envelope: Envelope, pid: nat, counter: nat): seq<Op> {
    PlacedHead(taskDir, files, pid, counter) + [MkDir(taskDir)]
    + PlacedWrite(taskDir, RESULT_ENVELOPE_NAME, Document(envelope), pid, counter + |files|)
  }

  lemma SuffixIsPlain(pid: nat, counter: nat)
    ensures '/' !in TempSuffix(pid, counter) && |TempSuffix(pid, counter)| > 1
  {
  }

  lemma WriteIsPlaced(dir: string, name: string, content: Content, pid: nat, counter: nat)
    requires IsBareName(name)
    ensures WriteAtomic(JoinPath(dir, name), content, pid, counter)
            == PlacedWrite(Segments(dir), name, content, pid, counter)
  {
    hide JoinPath, Segments, IsBareName, TempSuffix;
    SuffixIsPlain(pid, counter + 1);
    JoinBareName(dir, name, "");
    JoinBareName(dir, name, TempSuffix(pid, counter + 1));
    assert JoinPath(dir, name) + "" == JoinPath(dir, name) && name + "" == name;
  }

  lemma {:induction false} ReportsArePlaced(dir: string, files: seq<ReportFile>, pid: nat, counter: nat)
    requires forall i :: 0 <= i < |files| ==> FilenameOk(files[i].filename)
    ensures ReportOps(dir, files, pid, counter) == PlacedReports(Segments(dir), files, pid, counter)
    decreases files
  {
    hide JoinPath, Segments, WriteAtomic, PlacedWrite, IsBareName;
    if files != [] {
      assert FilenameOk(files[0].filename);
      WriteIsPlaced(dir, files[0].filename, Text(files[0].content), pid, counter);
      ReportsArePlaced(dir, files[1..], pid, counter + 1);
    }
  }

  lemma EnvelopeNameIsBare()
    ensures IsBareName(RESULT_ENVELOPE_NAME)
  {
    hide Contains;
    DotsApart(RESULT_ENVELOPE_NAME);
  }

  lemma {:induction false} DotsApart(s: string)
    requires forall i :: 0 <= i < |s| - 1 ==> s[i] != '.' || s[i + 1] != '.'
    ensures !Contains(s, "..")
  {
    if s != "" {
      DotsApart(s[1..]);
      assert |s| >= 2 ==> s[0] != '.' || s[1] != '.';
    }
  }

  /** With checked names every text a call writes, temporary ones among them, names a segment directly
      below the task directory or its `files`. */
  lemma CallIsPlaced(params: Params, live: LiveTask, worker: string, roots: Roots, pid: nat, counter: nat)
    requires FilenamesOk(ListOf(params.report))
    ensures DeliveryOps(params, live, worker, roots, pid, counter)
            == PlacedOps(TaskPath(roots, live), ListOf(params.report), ComposeEnvelope(params, live, worker), pid,
                         counter)
  {
    hide JoinPath, Segments, WriteAtomic, PlacedWrite, FilenameOk, IsBareName, FilesDir, TaskDir, ComposeEnvelope;
    var taskDir, files := TaskDir(roots, live), ListOf(params.report);
    FilesDirNames(taskDir);
    ReportsArePlaced(FilesDir(taskDir), files, pid, counter);
    EnvelopeNameIsBare();
    WriteIsPlaced(taskDir, RESULT_ENVELOPE_NAME, Document(ComposeEnvelope(params, live, worker)), pid,
                  counter + |files|);
  }

  // ------------------------------------------------------- where the writes go

  /** The places an operation names. */
  function Places(op: Op): set<Path> {
    match op
    case MkDir(dir) => {dir}
    case Write(path, _) => {path}
    case Rename(from, to) => {from, to}
    case Remove(path) => {path}
  }

  lemma {:induction false} PlacedReportsAt(dir: Path, files: seq<ReportFile>, pid: nat, counter: nat, j: nat)
    requires j < |files|
    ensures |PlacedReports(dir, files, pid, counter)| == 2 * |files|
    ensures PlacedReports(dir, files, pid, counter)[2 * j..2 * j + 2]
            == PlacedWrite(dir, files[j].filename, Text(files[j].content), pid, counter + j)
    ensures PlacedReports(dir, files, pid, counter)[..2 * j] == PlacedReports(dir, files[..j], pid, counter)
    decreases files
  {
    hide TempName;
    PlacedLength(dir, files, pid, counter);
    var first := PlacedWrite(dir, files[0].filename, Text(files[0].content), pid, counter);
    var rest := PlacedReports(dir, files[1..], pid, counter + 1);
    if j > 0 {
      PlacedReportsAt(dir, files[1..], pid, counter + 1, j - 1);
      assert (first + rest)[2 * j..2 * j + 2] == rest[2 * j - 2..2 * j];
      assert (first + rest)[..2 * j] == first + rest[..2 * j - 2];
      assert files[..j][1..] == files[1..][..j - 1];
    }
  }

  lemma {:induction false} PlacedLength(dir: Path, files: seq<ReportFile>, pid: nat, counter: nat)
    ensures |PlacedReports(dir, files, pid, counter)| == 2 * |files|
    decreases files
  {
    hide TempName;
    if files != [] {
      PlacedLength(dir, files[1..], pid, counter + 1);
    }
  }

  lemma PlacedTwo(dir: Path, name: string, content: Content, pid: nat, counter: nat)
    ensures |PlacedWrite(dir, name, content, pid, counter)| == 2
  {
  }

  lemma PlacedOpsLength(taskDir: Path, files: seq<ReportFile>, envelope: Envelope, pid: nat, counter: nat)
    ensures |PlacedHead(taskDir, files, pid, counter)| == if files == [] then 0 else 1 + 2 * |files|
    ensures |PlacedOps(taskDir, files, envelope, pid, counter)| == |PlacedHead(taskDir, files, pid, counter)| + 3
  {
    PlacedLength(taskDir + [OUTBOX_FILES_DIR], files, pid, counter);
  }

  /** Which operation stands at `k`. */
  lemma PlacedOpsAt(taskDir: Path, files: seq<ReportFile>, envelope: Envelope, pid: nat, counter: nat, k: nat)
    requires k < |PlacedOps(taskDir, files, envelope, pid, counter)|
    ensures var ops := PlacedOps(taskDir, files, envelope, pid, counter);
            var h := if files == [] then 0 else 1 + 2 * |files|;
            && |ops| == h + 3
            && (k < h && k == 0 ==> ops[k] == MkDir(taskDir + [OUTBOX_FILES_DIR]))
            && (0 < k < h ==> var j := (k - 1) / 2;
                  ops[k] == PlacedWrite(taskDir + [OUTBOX_FILES_DIR], files[j].filename, Text(files[j].content), pid,
                                        counter + j)[(k - 1) % 2])
            && (k == h ==> ops[k] == MkDir(taskDir))
            && (k > h ==> ops[k] == PlacedWrite(taskDir, RESULT_ENVELOPE_NAME, Document(envelope), pid,
                                                counter + |files|)[k - h - 1])
  {
    hide PlacedWrite, PlacedHead;
    PlacedTwo(taskDir, RESULT_ENVELOPE_NAME, Document(envelope), pid, counter + |files|);
    PlacedOpsLength(taskDir, files, envelope, pid, counter);
    if k < |PlacedHead(taskDir, files, pid, counter)| {
      PlacedHeadAt(taskDir, files, pid, counter, k);
    }
  }

  lemma PlacedHeadAt(taskDir: Path, files: seq<ReportFile>, pid: nat, counter: nat, k: nat)
    requires k < |PlacedHead(taskDir, files, pid, counter)|
    ensures k <= 2 * |files|
    ensures PlacedHead(taskDir, files, pid, counter)[k]
            == if k == 0 then MkDir(taskDir + [OUTBOX_FILES_DIR])
               else var j := (k - 1) / 2;
                    PlacedWrite(taskDir + [OUTBOX_FILES_DIR], files[j].filename, Text(files[j].content), pid,
                                counter + j)[(k - 1) % 2]
  {
    hide PlacedReports;
    var filesDir := taskDir + [OUTBOX_FILES_DIR];
    PlacedLength(filesDir, files, pid, counter);
    if k > 0 {
      var j := (k - 1) / 2;
      PlacedReportsAt(filesDir, files, pid, counter, j);
      assert PlacedReports(filesDir, files, pid, counter)[k - 1]
          == PlacedReports(filesDir, files, pid, counter)[2 * j..2 * j + 2][(k - 1) % 2];
    }
  }

  lemma PlacedOpsEnd(taskDir: Path, files: seq<ReportFile>, envelope: Envelope, pid: nat, counter: nat)
    ensures var ops := PlacedOps(taskDir, files, envelope, pid, counter);
            |ops| >= 2 && ops[|ops| - 2..]
                          == PlacedWrite(taskDir, RESULT_ENVELOPE_NAME, Document(envelope), pid, counter + |files|)
  {
    hide PlacedHead, TempName;
  }

  /** Every operation of a call with checked names stays under the one directory of the policy's task. */
  lemma WritesStayUnderTaskDir(params: Params, live: LiveTask, worker: string, roots: Roots, pid: nat,
                               counter: nat, k: nat, p: Path)
    requires IsBareName(live.taskId) && FilenamesOk(ListOf(params.report))
    requires k < |DeliveryOps(params, live, worker, roots, pid, counter)|
    requires p in Places(DeliveryOps(params, live, worker, roots, pid, counter)[k])
    ensures Segments(roots.outboxRoot) + [live.taskId] <= p
  {
    hide JoinPath, Segments, TempName, IsBareName, PlacedOps, DeliveryOps;
    JoinBareName(roots.outboxRoot, live.taskId, "");
    assert TaskDir(roots, live) + "" == TaskDir(roots, live) && live.taskId + "" == live.taskId;
    CallIsPlaced(params, live, worker, roots, pid, counter);
    PlacedOpsAt(TaskPath(roots, live), ListOf(params.report), ComposeEnvelope(params, live, worker), pid, counter, k);
  }

  /** The check is needed: unchecked, a report file called `../result.json` is renamed onto the envelope. */
  lemma UncheckedNameReachesEnvelope(taskDir: string, content: string, pid: nat, counter: nat)
    ensures !FilenameOk("../result.json")
    ensures ReportOps(FilesDir(taskDir), [ReportFile("../result.json", content)], pid, counter)[1].to
            == EnvelopePath(Segments(taskDir))
  {
    hide JoinPath, Segments, TempName;
    var name, filesDir := "../result.json", FilesDir(taskDir);
    assert name[2] == '/';
    FilesDirNames(taskDir);
    JoinPathNames(filesDir, name);
    SegmentsBelow(filesDir, name);
    UpAndDown(Segments(taskDir));
  }

  lemma UpAndDown(at: Path)
    ensures Walk(at + [OUTBOX_FILES_DIR], Split("../result.json", '/')) == at + [RESULT_ENVELOPE_NAME]
  {
    hide Split;
    assert "../result.json" == ".." + ['/'] + RESULT_ENVELOPE_NAME;
    SplitConcat("..", RESULT_ENVELOPE_NAME, '/');
    SplitOne("..", '/');
    SplitOne(RESULT_ENVELOPE_NAME, '/');
    var below := at + [OUTBOX_FILES_DIR];
    assert below[..|below| - 1] == at;
    assert [RESULT_ENVELOPE_NAME][1..] == [] && ["..", RESULT_ENVELOPE_NAME][1..] == [RESULT_ENVELOPE_NAME];
    assert RESULT_ENVELOPE_NAME[0] == 'r';
  }

  // ------------------------------------------------------------ temporary names

  lemma LastDotIsOne(u: string, d: string, v: string, e: string)
    requires u + "." + d == v + "." + e && '.' !in d && '.' !in e
    ensures u == v && d == e
  {
    var s := u + "." + d;
    LastIs(s, '.', |u|);
    LastIs(v + "." + e, '.', |v|);
    assert u == s[..|u|] && v == s[..|v|] && d == s[|u| + 1..] && e == s[|v| + 1..];
  }

  lemma DigitsHoldNoDot(n: nat)
    ensures '.' !in NatText(n)
  {
    var s := NatText(n);
    assert forall i | 0 <= i < |s| :: IsDigit(s[i]);
  }

  /** A temporary name tells the name, the process and the write it was made for. */
  lemma TempNameIsInjective(a: string, p: nat, m: nat, b: string, q: nat, n: nat)
    requires TempName(a, p, m) == TempName(b, q, n)
    ensures a == b && p == q && m == n
  {
    hide NatText;
    var mine, others := a + "." + NatText(p) + "." + NatText(m), b + "." + NatText(q) + "." + NatText(n);
    assert TempName(a, p, m) == mine + ".tmp" && TempName(b, q, n) == others + ".tmp";
    assert mine == TempName(a, p, m)[..|TempName(a, p, m)| - 4] == others;
    DigitsHoldNoDot(m);
    DigitsHoldNoDot(n);
    LastDotIsOne(a + "." + NatText(p), NatText(m), b + "." + NatText(q), NatText(n));
    DigitsHoldNoDot(p);
    DigitsHoldNoDot(q);
    LastDotIsOne(a, NatText(p), b, NatText(q));
    NatOfText(p);
    NatOfText(q);
    NatOfText(m);
    NatOfText(n);
  }

  lemma {:induction false} WritesSoFar(dir: Path, files: seq<ReportFile>, pid: nat, counter: nat)
    ensures Writes(PlacedReports(dir, files, pid, counter)) == |files|
    decreases files
  {
    hide TempName;
    if files != [] {
      var first := PlacedWrite(dir, files[0].filename, Text(files[0].content), pid, counter);
      WritesSoFar(dir, files[1..], pid, counter + 1);
      assert first[1..] == [first[1]] && [first[1]][1..] == [];
      assert Writes([first[1]]) == 0;
      WritesConcat(first, PlacedReports(dir, files[1..], pid, counter + 1));
    }
  }

  /** The temporary file opened at `k` is numbered by the writes begun up to there. */
  lemma TempIsNumbered(taskDir: Path, files: seq<ReportFile>, envelope: Envelope, pid: nat, counter: nat, k: nat)
    returns (dir: Path, name: string)
    requires k < |PlacedOps(taskDir, files, envelope, pid, counter)|
    requires PlacedOps(taskDir, files, envelope, pid, counter)[k].Write?
    ensures var ops := PlacedOps(taskDir, files, envelope, pid, counter);
            ops[k].path == dir + [TempName(name, pid, counter + Writes(ops[..k]) + 1)]
  {
    hide TempName;
    var ops, filesDir := PlacedOps(taskDir, files, envelope, pid, counter), taskDir + [OUTBOX_FILES_DIR];
    var head := PlacedHead(taskDir, files, pid, counter);
    PlacedOpsAt(taskDir, files, envelope, pid, counter, k);
    PlacedLength(filesDir, files, pid, counter);
    var make := [MkDir(filesDir)];
    if k < |head| {
      var j := (k - 1) / 2;
      PlacedReportsAt(filesDir, files, pid, counter, j);
      assert ops[..k] == make + PlacedReports(filesDir, files[..j], pid, counter);
      WritesConcat(make, PlacedReports(filesDir, files[..j], pid, counter));
      WritesSoFar(filesDir, files[..j], pid, counter);
      assert make[1..] == [];
      return filesDir, files[j].filename;
    } else {
      assert ops[..k] == head + [MkDir(taskDir)];
      WritesOneMore(head, MkDir(taskDir));
      WritesSoFar(filesDir, files, pid, counter);
      WritesConcat(make, PlacedReports(filesDir, files, pid, counter));
      assert make[1..] == [];
      return taskDir, RESULT_ENVELOPE_NAME;
    }
  }

  lemma WritesUpTo(ops: seq<Op>, i: nat, n: nat)
    requires i < n <= |ops| && ops[i].Write?
    ensures Writes(ops[..i]) < Writes(ops[..n])
  {
    assert ops[..n] == ops[..i] + [ops[i]] + ops[i + 1..n];
    WritesOneMore(ops[..i], ops[i]);
    WritesConcat(ops[..i] + [ops[i]], ops[i + 1..n]);
  }

  /** Two writes of one call never share a temporary file. */
  lemma CallReusesNoTemp(params: Params, live: LiveTask, worker: string, roots: Roots, pid: nat, counter: nat,
                         i: nat, k: nat)
    requires FilenamesOk(ListOf(params.report))
    requires var ops := DeliveryOps(params, live, worker, roots, pid, counter);
             i < k < |ops| && ops[i].Write? && ops[k].Write?
    ensures var ops := DeliveryOps(params, live, worker, roots, pid, counter);
            ops[i].path != ops[k].path
  {
    hide DeliveryOps, PlacedOps, TempName, Writes, FilenamesOk, ComposeEnvelope, TaskPath;
    var ops := DeliveryOps(params, live, worker, roots, pid, counter);
    var taskDir, files, envelope := TaskPath(roots, live), ListOf(params.report), ComposeEnvelope(params, live, worker);
    CallIsPlaced(params, live, worker, roots, pid, counter);
    var dir1, name1 := TempIsNumbered(taskDir, files, envelope, pid, counter, i);
    var dir2, name2 := TempIsNumbered(taskDir, files, envelope, pid, counter, k);
    WritesUpTo(ops, i, k);
    TempsApart(dir1, name1, pid, counter + Writes(ops[..i]) + 1, dir2, name2, pid, counter + Writes(ops[..k]) + 1);
  }

  lemma TempsApart(dir1: Path, name1: string, p: nat, m: nat, dir2: Path, name2: string, q: nat, n: nat)
    requires p != q || m != n
    ensures dir1 + [TempName(name1, p, m)] != dir2 + [TempName(name2, q, n)]
  {
    hide TempName;
    var one, two := dir1 + [TempName(name1, p, m)], dir2 + [TempName(name2, q, n)];
    if one == two {
      assert one[|one| - 1] == two[|two| - 1];
      TempNameIsInjective(name1, p, m, name2, q, n);
    }
  }

  /** Nor do two calls, about whatever tasks: not in one process, however early the first was cut short,
      and not in two. */
  lemma CallsShareNoTemp(one: Params, live1: LiveTask, worker1: string, roots1: Roots, pid1: nat, counter1: nat,
                         two: Params, live2: LiveTask, worker2: string, roots2: Roots, pid2: nat, counter2: nat,
                         budget: nat, i: nat, k: nat)
    requires FilenamesOk(ListOf(one.report)) && FilenamesOk(ListOf(two.report))
    requires var ops1 := DeliveryOps(one, live1, worker1, roots1, pid1, counter1);
             var ops2 := DeliveryOps(two, live2, worker2, roots2, pid2, counter2);
             && i < |Begun(ops1, budget)| && ops1[i].Write? && k < |ops2| && ops2[k].Write?
             && (pid1 != pid2 || counter1 + Writes(Begun(ops1, budget)) <= counter2)
    ensures DeliveryOps(one, live1, worker1, roots1, pid1, counter1)[i].path
            != DeliveryOps(two, live2, worker2, roots2, pid2, counter2)[k].path
  {
    hide DeliveryOps, PlacedOps, TempName, Writes, FilenamesOk, ComposeEnvelope, TaskPath;
    var ops1 := DeliveryOps(one, live1, worker1, roots1, pid1, counter1);
    var ops2 := DeliveryOps(two, live2, worker2, roots2, pid2, counter2);
    CallIsPlaced(one, live1, worker1, roots1, pid1, counter1);
    CallIsPlaced(two, live2, worker2, roots2, pid2, counter2);
    var dir1, name1 := TempIsNumbered(TaskPath(roots1, live1), ListOf(one.report), ComposeEnvelope(one, live1, worker1),
                                      pid1, counter1, i);
    var dir2, name2 := TempIsNumbered(TaskPath(roots2, live2), ListOf(two.report), ComposeEnvelope(two, live2, worker2),
                                      pid2, counter2, k);
    var begun := Begun(ops1, budget);
    assert begun[..i] == ops1[..i] && begun[..|begun|] == begun;
    WritesUpTo(begun, i, |begun|);
    TempsApart(dir1, name1, pid1, counter1 + Writes(ops1[..i]) + 1,
               dir2, name2, pid2, counter2 + Writes(ops2[..k]) + 1);
  }
}
