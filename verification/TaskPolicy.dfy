/** `/policy/task`: the two lines the host renders (`src/run/task-policy.ts`) and the live task the
    worker's extensions read back (`docker/pi-extensions/report-tools.ts`). */
module TaskPolicy {
  import opened Optional
  import opened StringOps
  import opened Paths

  /** The identity of one allocation. */
  datatype LiveTask = LiveTask(taskId: string, epoch: nat)

  const TASK_POLICY_NONE := "<none>"
  const MAX_TASK_ID: nat := 200
  const MAX_SAFE_INTEGER: nat := 0x1F_FFFF_FFFF_FFFF

  // ------------------------------------------------------------------- a name

  /** Fit to be spent as a single directory or file name. */
  predicate IsBareName(name: string) {
    && name != "" && name != "." && name != ".."
    && '/' !in name && '\\' !in name
    && !Contains(name, "..")
    && forall i :: 0 <= i < |name| ==> !IsControl(name[i])
  }

  /** Spent as a path segment, a bare name goes exactly one level down. */
  lemma BareNameIsOneSegment(base: string, name: string)
    requires IsBareName(name)
    ensures Segments(base + "/" + name) == Segments(base) + [name]
  {
    SegmentsBelow(base, name);
    SplitOne(name, '/');
  }

  /** Joined below a directory, a bare name is the last segment, and so is the name with more behind it. */
  lemma JoinBareName(dir: string, name: string, suffix: string)
    requires IsBareName(name) && '/' !in suffix && (suffix == "" || |suffix| > 1)
    ensures Segments(JoinPath(dir, name) + suffix) == Segments(dir) + [name + suffix]
  {
    hide Segments;
    BareNameIsOneSegment(dir, name);
    SegmentsAreNormal(dir);
    assert (dir + "/" + name)[|dir + "/" + name| - 1] == name[|name| - 1];
    JoinEndsWith(Segments(dir), name, suffix);
    assert JoinPath(dir, name) + suffix == PathText(Segments(dir) + [name + suffix]);
    PathTextNames(Segments(dir) + [name + suffix]);
  }

  // ---------------------------------------------------------------------- host

  function StripControls(s: string): string {
    if s == "" then "" else (if IsControl(s[0]) then "" else [s[0]]) + StripControls(s[1..])
  }

  /** The UTF-16 code units of one character. */
  function UnitsOf(c: char): nat { if c as int < 0x1_0000 then 1 else 2 }

  /** `s.length` */
  function Units(s: string): nat { if s == "" then 0 else UnitsOf(s[0]) + Units(s[1..]) }

  /** `s.slice(0, n)` as it reaches the file: half a surrogate pair is written as U+FFFD. */
  function Slice(s: string, n: nat): (cut: string)
    ensures Units(cut) <= n
    ensures Units(s) <= n ==> cut == s
  {
    if s == "" || n == 0 then ""
    else if UnitsOf(s[0]) <= n then
      var rest := Slice(s[1..], n - UnitsOf(s[0]));
      assert ([s[0]] + rest)[1..] == rest;
      [s[0]] + rest
    else
      assert "\U{FFFD}"[1..] == "";
      "\U{FFFD}"
  }

  /** A JavaScript number that may be an epoch; `None` is one that is not finite. */
  type Epoch = Option<real>

  function SafeEpoch(epoch: Epoch): nat { if epoch.Some? && epoch.value >= 0.0 then epoch.value.Floor else 0 }

  function RenderTaskPolicy(taskId: Option<string>, epoch: Epoch): string {
    var id := if taskId.None? || taskId.value == "" then TASK_POLICY_NONE else taskId.value;
    var cut := Slice(StripControls(id), MAX_TASK_ID);
    var safeId := if cut == "" then TASK_POLICY_NONE else cut;
    safeId + "\n" + NatText(SafeEpoch(epoch)) + "\n"
  }

  // -------------------------------------------------------------------- worker

  function ParseTaskPolicy(body: string): (live: Option<LiveTask>)
    ensures live.Some? ==> IsBareName(live.value.taskId) && live.value.taskId != TASK_POLICY_NONE
    ensures live.Some? ==> live.value.epoch <= MAX_SAFE_INTEGER
  {
    var lines := Split(body, '\n');
    var taskId := lines[0];
    var epochText := Trim(if |lines| > 1 then lines[1] else "");
    if taskId == "" || taskId == TASK_POLICY_NONE then None
    else if !IsBareName(taskId) then None
    else if epochText == "" || !AllDigits(epochText) then None
    else if NatOf(epochText) > MAX_SAFE_INTEGER then None
    else Some(LiveTask(taskId, NatOf(epochText)))
  }

  lemma {:induction false} StripControlsKeeps(s: string)
    requires forall i :: 0 <= i < |s| ==> !IsControl(s[i])
    ensures StripControls(s) == s
  {
    if s != "" {
      StripControlsKeeps(s[1..]);
      assert [s[0]] + s[1..] == s;
    }
  }

  lemma {:induction false} StripControlsStrips(s: string)
    ensures forall i :: 0 <= i < |StripControls(s)| ==> !IsControl(StripControls(s)[i])
  {
    if s != "" {
      StripControlsStrips(s[1..]);
    }
  }

  lemma ReadTwoLines(id: string, epoch: nat)
    requires '\n' !in id
    ensures ParseTaskPolicy(id + "\n" + NatText(epoch) + "\n") ==
            if id == "" || id == TASK_POLICY_NONE || !IsBareName(id) || epoch > MAX_SAFE_INTEGER then None
            else Some(LiveTask(id, epoch))
  {
    hide IsBareName, Split;
    TwoLines(id, NatText(epoch));
    NatOfText(epoch);
  }

  lemma TwoLines(id: string, digits: string)
    requires '\n' !in id && '\n' !in digits
    ensures Split(id + "\n" + digits + "\n", '\n') == [id, digits, ""]
  {
    hide Split;
    assert id + "\n" + digits + "\n" == id + "\n" + (digits + "\n" + "");
    SplitConcat(id, digits + "\n" + "", '\n');
    SplitConcat(digits, "", '\n');
    SplitOne(id, '\n');
    SplitOne(digits, '\n');
    SplitOne("", '\n');
  }

  predicate Names(live: Option<LiveTask>, id: string, epoch: Epoch) {
    live.Some? && live.value.taskId == id && epoch == Some(live.value.epoch as real)
  }

  /** The whole numbers a double counts one by one. */
  predicate IsCount(epoch: Epoch) {
    epoch.Some? && 0.0 <= epoch.value <= 9007199254740991.0 && epoch.value == epoch.value.Floor as real
  }

  lemma {:induction false} SliceHasNoControls(s: string, n: nat)
    requires forall i :: 0 <= i < |s| ==> !IsControl(s[i])
    ensures forall i :: 0 <= i < |Slice(s, n)| ==> !IsControl(Slice(s, n)[i])
    decreases s
  {
    if s != "" && n > 0 && UnitsOf(s[0]) <= n {
      SliceHasNoControls(s[1..], n - UnitsOf(s[0]));
    }
  }

  /** The worker reads exactly what the host wrote, for exactly the task ids of at most 200 UTF-16 units
      that can be a directory and the epochs a double counts; for every other one it reads some other task
      or none. */
  lemma TaskPolicyRoundTrip(id: string, epoch: Epoch)
    ensures Names(ParseTaskPolicy(RenderTaskPolicy(Some(id), epoch)), id, epoch)
            <==> IsBareName(id) && id != "<none>" && Units(id) <= 200 && IsCount(epoch)
  {
    hide IsBareName, ParseTaskPolicy, Slice, Units, NatText;
    var named := if id == "" then TASK_POLICY_NONE else id;
    var stripped := StripControls(named);
    var cut := Slice(stripped, MAX_TASK_ID);
    var safeId := if cut == "" then TASK_POLICY_NONE else cut;
    StripControlsStrips(named);
    SliceHasNoControls(stripped, MAX_TASK_ID);
    NoneHasNoControls();
    assert '\n' !in safeId;
    NoneIsShort();
    assert Units(safeId) <= MAX_TASK_ID;
    ReadTwoLines(safeId, SafeEpoch(epoch));
    if IsBareName(id) {
      BareNamesHold(id);
      StripControlsKeeps(id);
    }
  }

  lemma NoneHasNoControls()
    ensures forall i :: 0 <= i < |TASK_POLICY_NONE| ==> !IsControl(TASK_POLICY_NONE[i])
  {
  }

  lemma NoneIsShort()
    ensures Units(TASK_POLICY_NONE) <= MAX_TASK_ID
  {
    assert TASK_POLICY_NONE == ['<'] + (['n'] + (['o'] + (['n'] + (['e'] + (['>'] + "")))));
  }

  lemma BareNamesHold(id: string)
    requires IsBareName(id)
    ensures id != "" && forall i :: 0 <= i < |id| ==> !IsControl(id[i])
  {
  }

  /** An idle worker has no live task. */
  lemma IdleHasNoTask(epoch: Epoch)
    ensures ParseTaskPolicy(RenderTaskPolicy(None, epoch)).None?
  {
    hide ParseTaskPolicy, IsBareName, NatText, Slice, Units;
    NoneHasNoControls();
    NoneIsShort();
    StripControlsKeeps(TASK_POLICY_NONE);
    ReadTwoLines(TASK_POLICY_NONE, SafeEpoch(epoch));
  }
}
