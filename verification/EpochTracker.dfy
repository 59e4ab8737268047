/** The one-slot epoch tracker and the two event handlers that live on it
    (`docker/pi-extensions/report-tools.ts`): what a worker did in the live epoch, one bounded nag,
    and the `pifleet.no_submit/v1` records. */
module EpochTracker {
  import opened Optional
  import opened TaskPolicy

  // -------------------------------------------------------------- the tracker

  datatype Tally = Tally(live: LiveTask, toolCalls: nat, delivered: bool, nagged: bool)

  datatype Kind = ToolCall | Delivery | Nag

  /** One call on the tracker. */
  datatype Note = Note(live: LiveTask, kind: Kind)

  function EmptyTally(live: LiveTask): Tally { Tally(live, 0, false, false) }

  function Add(tally: Tally, kind: Kind): (added: Tally)
    ensures added.live == tally.live
  {
    match kind
    case ToolCall => tally.(toolCalls := tally.toolCalls + 1)
    case Delivery => tally.(delivered := true)
    case Nag => tally.(nagged := true)
  }

  /** The slot's tally when it is about `live`, and an empty one when it is about anything else. */
  function TallyFor(slot: Option<Tally>, live: LiveTask): (tally: Tally)
    ensures tally.live == live
  {
    if slot.Some? && slot.value.live == live then slot.value else EmptyTally(live)
  }

  function SlotAfter(notes: seq<Note>): Option<Tally> {
    if notes == [] then None
    else
      var last := notes[|notes| - 1];
      Some(Add(TallyFor(SlotAfter(notes[..|notes| - 1]), last.live), last.kind))
  }

  class Tracker {
    var tally: Option<Tally>

    constructor ()
      ensures tally == SlotAfter([])
    {
      tally := None;
    }

    /** The slot, replaced when it is about some other epoch. */
    method SlotFor(live: LiveTask) returns (slot: Tally)
      modifies this
      ensures slot == TallyFor(old(tally), live) && tally == Some(slot)
    {
      if tally.None? || tally.value.live != live {
        tally := Some(EmptyTally(live));
      }
      slot := tally.value;
    }

    /** `noteToolCall`, `noteDelivery` and `noteNag`. */
    method Record(live: LiveTask, kind: Kind)
      modifies this
      ensures tally == Some(Add(TallyFor(old(tally), live), kind))
    {
      var slot := SlotFor(live);
      tally := Some(Add(slot, kind));
    }
  }

  // --------------------------------------------- the table it stands in for

  function Entry(table: map<LiveTask, Tally>, live: LiveTask): Tally {
    if live in table then table[live] else EmptyTally(live)
  }

  /** The unbounded table the slot replaces: one tally for each pair ever noted. */
  function TableAfter(notes: seq<Note>): map<LiveTask, Tally> {
    if notes == [] then map[]
    else
      var before, last := TableAfter(notes[..|notes| - 1]), notes[|notes| - 1];
      before[last.live := Add(Entry(before, last.live), last.kind)]
  }

  function Calls(notes: seq<Note>, live: LiveTask): nat {
    if notes == [] then 0
    else Calls(notes[..|notes| - 1], live) + (if notes[|notes| - 1] == Note(live, ToolCall) then 1 else 0)
  }

  /** Tool calls counted, and whether the pair was ever delivered and nagged. */
  function Counted(notes: seq<Note>, live: LiveTask): Tally {
    Tally(live, Calls(notes, live), Note(live, Delivery) in notes, Note(live, Nag) in notes)
  }

  lemma CountedStep(notes: seq<Note>, last: Note, live: LiveTask)
    ensures Counted(notes + [last], live)
            == if last.live == live then Add(Counted(notes, live), last.kind) else Counted(notes, live)
  {
    assert (notes + [last])[..|notes|] == notes;
  }

  /** What the table holds for a pair. */
  lemma {:induction false} TableCounts(notes: seq<Note>, live: LiveTask)
    ensures Entry(TableAfter(notes), live) == Counted(notes, live)
  {
    if notes != [] {
      var before, last := notes[..|notes| - 1], notes[|notes| - 1];
      assert notes == before + [last];
      CountedStep(before, last, live);
      TableCounts(before, live);
      TableCounts(before, last.live);
    }
  }

  /** How many of the latest notes are about `live`, with none about another pair among them. */
  function Tail(notes: seq<Note>, live: LiveTask): (n: nat)
    ensures n <= |notes|
    ensures forall i :: |notes| - n <= i < |notes| ==> notes[i].live == live
  {
    if notes == [] || notes[|notes| - 1].live != live then 0 else Tail(notes[..|notes| - 1], live) + 1
  }

  function Lost(notes: seq<Note>, live: LiveTask): seq<Note> { notes[..|notes| - Tail(notes, live)] }

  function Kept(notes: seq<Note>, live: LiveTask): seq<Note> { notes[|notes| - Tail(notes, live)..] }

  lemma {:induction false} CallsConcat(xs: seq<Note>, ys: seq<Note>, live: LiveTask)
    ensures Calls(xs + ys, live) == Calls(xs, live) + Calls(ys, live)
  {
    if ys == [] {
      assert xs + ys == xs;
    } else {
      assert (xs + ys)[..|xs + ys| - 1] == xs + ys[..|ys| - 1];
      CallsConcat(xs, ys[..|ys| - 1], live);
    }
  }

  lemma {:induction false} NoCalls(notes: seq<Note>, live: LiveTask)
    ensures Calls(notes, live) == 0 <==> Note(live, ToolCall) !in notes
  {
    if notes != [] {
      NoCalls(notes[..|notes| - 1], live);
      assert notes == notes[..|notes| - 1] + [notes[|notes| - 1]];
    }
  }

  /** The slot remembers the latest notes about a pair and nothing older. */
  lemma {:induction false} SlotHoldsKept(notes: seq<Note>, live: LiveTask)
    ensures TallyFor(SlotAfter(notes), live) == Counted(Kept(notes, live), live)
  {
    hide Counted, Add;
    if notes != [] && notes[|notes| - 1].live == live {
      var before, last := notes[..|notes| - 1], notes[|notes| - 1];
      SlotHoldsKept(before, live);
      assert Kept(notes, live) == Kept(before, live) + [last];
      CountedStep(Kept(before, live), last, live);
    } else {
      assert Kept(notes, live) == [];
      NothingCounted(live);
    }
  }

  lemma NothingCounted(live: LiveTask)
    ensures Counted([], live) == EmptyTally(live)
  {
  }

  /** The slot agrees with the table about a pair exactly when no tool call of the pair came before
      another pair's note, and each flag set before one was set again after it. */
  lemma SlotIsTableEntryIff(notes: seq<Note>, live: LiveTask)
    ensures TallyFor(SlotAfter(notes), live) == Entry(TableAfter(notes), live)
            <==> && Note(live, ToolCall) !in Lost(notes, live)
                 && (Note(live, Delivery) in Lost(notes, live) ==> Note(live, Delivery) in Kept(notes, live))
                 && (Note(live, Nag) in Lost(notes, live) ==> Note(live, Nag) in Kept(notes, live))
  {
    var lost, kept := Lost(notes, live), Kept(notes, live);
    assert notes == lost + kept;
    SlotHoldsKept(notes, live);
    TableCounts(notes, live);
    CallsConcat(lost, kept, live);
    NoCalls(lost, live);
  }

  /** No other pair was noted after this one. */
  ghost predicate Unsuperseded(notes: seq<Note>, live: LiveTask) {
    forall i, j :: 0 <= i < j < |notes| && notes[i].live == live ==> notes[j].live == live
  }

  /** For a pair that never returns after another was tracked, one slot is as good as the table. */
  lemma SlotRefinesTable(notes: seq<Note>, live: LiveTask)
    requires Unsuperseded(notes, live)
    ensures TallyFor(SlotAfter(notes), live) == Entry(TableAfter(notes), live)
            == Counted(notes, live)
  {
    SlotIsTableEntryIff(notes, live);
    TableCounts(notes, live);
    LostIsOlder(notes, live);
  }

  lemma LostIsOlder(notes: seq<Note>, live: LiveTask)
    requires Unsuperseded(notes, live)
    ensures forall kind :: Note(live, kind) !in Lost(notes, live)
  {
    var lost := Lost(notes, live);
    LostEndsElsewhere(notes, live);
    forall i | 0 <= i < |lost| ensures lost[i].live != live {
      assert lost[i] == notes[i];
    }
  }

  lemma {:induction false} LostEndsElsewhere(notes: seq<Note>, live: LiveTask)
    ensures Lost(notes, live) == [] || notes[|Lost(notes, live)| - 1].live != live
  {
    if notes != [] && notes[|notes| - 1].live == live {
      LostEndsElsewhere(notes[..|notes| - 1], live);
    }
  }

  // ------------------------------------------------------------- the handlers

  datatype Output = NagSent(live: LiveTask) | NoSubmit(tally: Tally)

  predicate ShouldNag(tally: Tally, envelopeOnDisk: bool) {
    !tally.delivered && !envelopeOnDisk && !tally.nagged && tally.toolCalls > 0
  }

  /** `policy` is the parsed `/policy/task`, `disk` the task ids whose `result.json` exists. */
  datatype State = State(policy: Option<LiveTask>, slot: Option<Tally>, disk: set<string>)

  const START := State(None, None, {})

  datatype Event =
    | HostWrites(policy: Option<LiveTask>)
    | DiskChanges(disk: set<string>)
    | ToolCalled
    | Submitted(accepted: bool)
    | AgentEnds(sendWorks: bool, appendWorks: bool)

  predicate Nags(s: State, e: Event) {
    && e.AgentEnds? && e.sendWorks && s.policy.Some?
    && ShouldNag(TallyFor(s.slot, s.policy.value), s.policy.value.taskId in s.disk)
  }

  /** The calls one event makes on the tracker. */
  function Notes(s: State, e: Event): (notes: seq<Note>)
    ensures |notes| <= 1
    ensures notes != [] ==> s.policy == Some(notes[0].live)
  {
    if s.policy.None? then []
    else if e.ToolCalled? then [Note(s.policy.value, ToolCall)]
    else if e == Submitted(true) then [Note(s.policy.value, Delivery)]
    else if Nags(s, e) then [Note(s.policy.value, Nag)]
    else []
  }

  function SlotWith(slot: Option<Tally>, notes: seq<Note>): Option<Tally>
    requires |notes| <= 1
  {
    if notes == [] then slot else Some(Add(TallyFor(slot, notes[0].live), notes[0].kind))
  }

  function Step(s: State, e: Event): State {
    var slot := SlotWith(s.slot, Notes(s, e));
    match e
    case HostWrites(policy) => State(policy, slot, s.disk)
    case DiskChanges(disk) => State(s.policy, slot, disk)
    case Submitted(accepted) =>
      State(s.policy, slot, if accepted && s.policy.Some? then s.disk + {s.policy.value.taskId} else s.disk)
    case _ => State(s.policy, slot, s.disk)
  }

  /** The nag, when one is sent, and then the record, unless the epoch was delivered. */
  function Emits(s: State, e: Event): seq<Output> {
    if !e.AgentEnds? || s.policy.None? || TallyFor(s.slot, s.policy.value).delivered then []
    else
      (if Nags(s, e) then [NagSent(s.policy.value)] else [])
      + (if e.appendWorks then [NoSubmit(TallyFor(Step(s, e).slot, s.policy.value))] else [])
  }

  /** The extension's handlers over its tracker. */
  class Extension {
    const tracker: Tracker

    constructor ()
      ensures fresh(tracker) && tracker.tally == START.slot
    {
      tracker := new Tracker();
    }

    method OnToolCall(ghost s: State, policy: Option<LiveTask>)
      requires s.policy == policy && s.slot == tracker.tally
      modifies tracker
      ensures tracker.tally == Step(s, ToolCalled).slot
    {
      if policy.Some? {
        tracker.Record(policy.value, ToolCall);
      }
    }

    /** After `submitReport` returned: the pair is the outcome's own, whatever the policy says by now. */
    method OnDelivered(live: LiveTask)
      modifies tracker
      ensures tracker.tally == SlotWith(old(tracker.tally), [Note(live, Delivery)])
    {
      tracker.Record(live, Delivery);
    }

    method OnAgentEnd(ghost s: State, policy: Option<LiveTask>, disk: set<string>, sendWorks: bool, appendWorks: bool)
      returns (outputs: seq<Output>)
      requires s == State(policy, tracker.tally, disk)
      modifies tracker
      ensures tracker.tally == Step(s, AgentEnds(sendWorks, appendWorks)).slot
      ensures outputs == Emits(s, AgentEnds(sendWorks, appendWorks))
    {
      outputs := [];
      if policy.None? { return; }
      var live := policy.value;
      if TallyFor(tracker.tally, live).delivered { return; }
      var envelopeOnDisk := live.taskId in disk;
      if ShouldNag(TallyFor(tracker.tally, live), envelopeOnDisk) {
        if sendWorks {
          outputs := outputs + [NagSent(live)];
          tracker.Record(live, Nag);
        }
      }
      if appendWorks {
        outputs := outputs + [NoSubmit(TallyFor(tracker.tally, live))];
      }
    }
  }

  /** The host may rewrite the policy after a submit has read it and before the delivery is noted. That is
      the same as rewriting it after: a submit takes effect for the pair it read. */
  lemma SubmitTakesEffectAtItsRead(s: State, live: LiveTask, policy: Option<LiveTask>)
    requires s.policy == Some(live)
    ensures var rewritten, submitted := Step(s, HostWrites(policy)), Step(s, Submitted(true));
            && Step(submitted, HostWrites(policy)).slot == SlotWith(rewritten.slot, [Note(live, Delivery)])
            && Step(submitted, HostWrites(policy)).policy == rewritten.policy
            && Step(submitted, HostWrites(policy)).disk == rewritten.disk + {live.taskId}
  {
  }
}
