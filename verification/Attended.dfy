/** Handing a worker's pane to a person and back (`src/attended/mode.ts`), with the one other writer of
    the record, a delivered steer (`src/cli/commands/steer.ts`). Each operation is a list of steps; it
    may fail or crash after any of them, and a record is written whole or not at all. */
module Attended {
  import opened Optional

  datatype Mode = Viewer | Tui

  datatype Record = Record(worker: string, mode: Mode, enteredAt: nat, leftAt: Option<nat>, voided: seq<string>)

  datatype Pane = Follower | Interactive

  datatype State = State(record: Option<Record>, pane: Pane)

  datatype Step = WriteRecord(record: Record) | SetPane(pane: Pane)

  function Apply(s: State, step: Step): State {
    match step
    case WriteRecord(record) => s.(record := Some(record))
    case SetPane(pane) => s.(pane := pane)
  }

  function ApplyAll(s: State, steps: seq<Step>): State {
    if steps == [] then s else Apply(ApplyAll(s, steps[..|steps| - 1]), steps[|steps| - 1])
  }

  // --------------------------------------------------------------- operations

  function EnteredRecord(existing: Option<Record>, worker: string, now: nat, voided: seq<string>): Record {
    Record(worker, Tui, if existing.Some? then existing.value.enteredAt else now, None, voided)
  }

  /** Record first, pane second. */
  function EnterSteps(existing: Option<Record>, worker: string, now: nat, voided: seq<string>): seq<Step> {
    [WriteRecord(EnteredRecord(existing, worker, now, voided)), SetPane(Interactive)]
  }

  /** Pane first, record second; refused where no pane was handed over. */
  function LeaveSteps(existing: Option<Record>, now: nat): seq<Step> {
    if existing.None? || existing.value.mode != Tui then []
    else [SetPane(Follower), WriteRecord(existing.value.(mode := Viewer, leftAt := Some(now)))]
  }

  /** A steer is a point in time, and leaves a record alone while a person holds the pane. */
  function SteerSteps(existing: Option<Record>, worker: string, now: nat): seq<Step> {
    if existing.None? then [WriteRecord(Record(worker, Viewer, now, Some(now), []))]
    else if existing.value.mode == Tui then []
    else [WriteRecord(existing.value.(leftAt := Some(now)))]
  }

  datatype Operation =
    | Enter(worker: string, now: nat, voided: seq<string>)
    | Leave(now: nat)
    | Steer(worker: string, now: nat)

  function Steps(op: Operation, existing: Option<Record>): seq<Step> {
    match op
    case Enter(worker, now, voided) => EnterSteps(existing, worker, now, voided)
    case Leave(now) => LeaveSteps(existing, now)
    case Steer(worker, now) => SteerSteps(existing, worker, now)
  }

  function Cut(steps: seq<Step>, budget: nat): seq<Step> { if budget < |steps| then steps[..budget] else steps }

  /** The operation, of which only the first `budget` steps take effect. */
  function Attempt(s: State, op: Operation, budget: nat): State { ApplyAll(s, Cut(Steps(op, s.record), budget)) }

  /** The record file and the pane, and the code that changes them step by step. */
  class Presentation {
    var record: Option<Record>
    var pane: Pane

    function View(): State
      reads this
    {
      State(record, pane)
    }

    constructor ()
      ensures View() == State(None, Follower)
    {
      record, pane := None, Follower;
    }

    method EnterTui(worker: string, now: nat, voided: seq<string>, budget: nat) returns (result: Option<Record>)
      modifies this
      ensures View() == Attempt(old(View()), Enter(worker, now, voided), budget)
      ensures result.Some? ==> result == record
      ensures result.Some? <==> budget >= 2
    {
      var existing := record;
      var entered := EnteredRecord(existing, worker, now, voided);
      Unfold(View(), Enter(worker, now, voided), budget);
      if budget == 0 { return None; }
      record := Some(entered);
      if budget == 1 { return None; }
      pane := Interactive;
      return Some(entered);
    }

    method LeaveTui(now: nat, budget: nat) returns (result: Option<Record>)
      modifies this
      ensures View() == Attempt(old(View()), Leave(now), budget)
      ensures result.Some? ==> result == record
      ensures result.Some? <==> budget >= 2 && old(record).Some? && old(record).value.mode == Tui
    {
      Unfold(View(), Leave(now), budget);
      var existing := record;
      if existing.None? || existing.value.mode != Tui { return None; }
      if budget == 0 { return None; }
      pane := Follower;
      if budget == 1 { return None; }
      record := Some(existing.value.(mode := Viewer, leftAt := Some(now)));
      return record;
    }
  }

  // -------------------------------------------------------------- main results

  /** A pane in a person's hands has a record that says so and no end. */
  predicate NeverUnderclaims(s: State) {
    s.pane == Interactive ==> s.record.Some? && s.record.value.mode == Tui && s.record.value.leftAt.None?
  }

  /** A run: non-overlapping operations, each cut short anywhere. */
  function After(s: State, run: seq<(Operation, nat)>): State {
    if run == [] then s
    else
      var (op, budget) := run[|run| - 1];
      Attempt(After(s, run[..|run| - 1]), op, budget)
  }

  lemma OneStep(s: State, steps: seq<Step>)
    requires |steps| == 1
    ensures ApplyAll(s, steps) == Apply(s, steps[0])
  {
    assert steps[..0] == [];
  }

  lemma Unfold(s: State, op: Operation, budget: nat)
    ensures var steps := Cut(Steps(op, s.record), budget);
            Attempt(s, op, budget)
            == if steps == [] then s
               else if |steps| == 1 then Apply(s, steps[0]) else Apply(Apply(s, steps[0]), steps[1])
  {
    var steps := Cut(Steps(op, s.record), budget);
    if |steps| == 1 { OneStep(s, steps); }
    if |steps| == 2 { OneStep(s, steps[..1]); }
  }

  lemma AttemptKeeps(s: State, op: Operation, budget: nat)
    requires NeverUnderclaims(s)
    ensures NeverUnderclaims(Attempt(s, op, budget))
    ensures s.record.Some? ==> Attempt(s, op, budget).record.Some?
                               && Attempt(s, op, budget).record.value.enteredAt == s.record.value.enteredAt
  {
    Unfold(s, op, budget);
    hide Attempt, ApplyAll;
  }

  /** Over every run a person at the pane is on record, and what is on record stays there with the
      moment of the first touch. */
  lemma {:induction false} RecordNeverUnderclaims(s: State, run: seq<(Operation, nat)>)
    requires NeverUnderclaims(s)
    ensures NeverUnderclaims(After(s, run))
    ensures s.record.Some? ==> After(s, run).record.Some?
                               && After(s, run).record.value.enteredAt == s.record.value.enteredAt
  {
    hide Attempt, NeverUnderclaims;
    if run != [] {
      var (op, budget) := run[|run| - 1];
      RecordNeverUnderclaims(s, run[..|run| - 1]);
      AttemptKeeps(After(s, run[..|run| - 1]), op, budget);
    }
  }

  /** Whoever held the pane once is on record for good, with one moment of entry. */
  lemma TouchedStaysTouched(run: seq<(Operation, nat)>, i: nat)
    requires i <= |run| && After(State(None, Follower), run[..i]).pane == Interactive
    ensures var first, last := After(State(None, Follower), run[..i]).record, After(State(None, Follower), run).record;
            first.Some? && last.Some? && last.value.enteredAt == first.value.enteredAt
  {
    var start := State(None, Follower);
    RecordNeverUnderclaims(start, run[..i]);
    AfterConcat(start, run[..i], run[i..]);
    assert run == run[..i] + run[i..];
    RecordNeverUnderclaims(After(start, run[..i]), run[i..]);
  }

  lemma {:induction false} AfterConcat(s: State, xs: seq<(Operation, nat)>, ys: seq<(Operation, nat)>)
    ensures After(s, xs + ys) == After(After(s, xs), ys)
  {
    hide Attempt;
    if ys == [] {
      assert xs + ys == xs;
    } else {
      assert (xs + ys)[..|xs + ys| - 1] == xs + ys[..|ys| - 1];
      AfterConcat(s, xs, ys[..|ys| - 1]);
    }
  }

  /** Completed, the two undo each other at the pane and leave one record of the visit. */
  lemma LeaveUndoesEnter(s: State, worker: string, entered: nat, voided: seq<string>, left: nat)
    ensures var t := Attempt(Attempt(s, Enter(worker, entered, voided), 2), Leave(left), 2);
            && t.pane == Follower
            && t.record == Some(Record(worker, Viewer, if s.record.Some? then s.record.value.enteredAt else entered,
                                       Some(left), voided))
  {
    Unfold(s, Enter(worker, entered, voided), 2);
    Unfold(Attempt(s, Enter(worker, entered, voided), 2), Leave(left), 2);
    hide Attempt, ApplyAll;
  }

  // ------------------------------------------------------- why it is built so

  function Reversed(steps: seq<Step>): seq<Step>
    requires |steps| == 2
  {
    [steps[1], steps[0]]
  }

  /** In the other order, each operation has a point where a crash leaves a person unrecorded. */
  lemma OtherOrderUnderclaims(worker: string, now: nat, voided: seq<string>, later: nat)
    ensures var untouched := State(None, Follower);
            !NeverUnderclaims(ApplyAll(untouched, Reversed(EnterSteps(None, worker, now, voided))[..1]))
    ensures var held := State(Some(Record(worker, Tui, now, None, voided)), Interactive);
            NeverUnderclaims(held) && !NeverUnderclaims(ApplyAll(held, Reversed(LeaveSteps(held.record, later))[..1]))
  {
    var enter := Reversed(EnterSteps(None, worker, now, voided))[..1];
    assert enter[..0] == [];
    var held := State(Some(Record(worker, Tui, now, None, voided)), Interactive);
    var leave := Reversed(LeaveSteps(held.record, later))[..1];
    assert leave[..0] == [];
  }

  /** An enter between the two steps of a leave ends with a person at a pane that is on record as
      handed back: the operations must not overlap. */
  lemma OverlapUnderclaims(worker: string, now: nat, voided: seq<string>, later: nat)
    ensures var held := State(Some(Record(worker, Tui, now, None, voided)), Interactive);
            var leave := LeaveSteps(held.record, later);
            var between := Apply(held, leave[0]);
            NeverUnderclaims(between)
            && !NeverUnderclaims(Apply(Attempt(between, Enter(worker, later, voided), 2), leave[1]))
  {
    var held := State(Some(Record(worker, Tui, now, None, voided)), Interactive);
    var between := Apply(held, LeaveSteps(held.record, later)[0]);
    Unfold(between, Enter(worker, later, voided), 2);
  }
}
