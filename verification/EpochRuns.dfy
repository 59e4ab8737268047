/** Whole runs of a worker's session: the host rewrites the policy, the model calls tools and
    submits, turns end. What the nags and the records say about each epoch. */
module EpochRuns {
  import opened Optional
  import opened TaskPolicy
  import opened EpochTracker

  type Run = seq<Event>

  function After(run: Run): State {
    if run == [] then START else Step(After(run[..|run| - 1]), run[|run| - 1])
  }

  function History(run: Run): seq<Note> {
    if run == [] then [] else History(run[..|run| - 1]) + Notes(After(run[..|run| - 1]), run[|run| - 1])
  }

  /** The epoch that was live when event `i` happened. */
  function LiveAt(run: Run, i: nat): Option<LiveTask>
    requires i <= |run|
  {
    After(run[..i]).policy
  }

  function EmittedAt(run: Run, i: nat): seq<Output>
    requires i < |run|
  {
    Emits(After(run[..i]), run[i])
  }

  // ------------------------------------------------- what happened, by events

  /** Tool calls made while `live` was live, counted over the events alone. */
  function ToolCallsSoFar(run: Run, live: LiveTask): nat {
    if run == [] then 0
    else
      var before := run[..|run| - 1];
      ToolCallsSoFar(before, live)
      + (if run[|run| - 1].ToolCalled? && After(before).policy == Some(live) then 1 else 0)
  }

  ghost predicate DeliveredAt(run: Run, i: nat, live: LiveTask) {
    i < |run| && run[i] == Submitted(true) && LiveAt(run, i) == Some(live)
  }

  ghost predicate DeliveredBefore(run: Run, j: nat, live: LiveTask) {
    exists i: nat | i < j :: DeliveredAt(run, i, live)
  }

  ghost predicate NaggedAt(run: Run, i: nat, live: LiveTask) {
    i < |run| && NagSent(live) in EmittedAt(run, i)
  }

  ghost predicate NaggedBefore(run: Run, j: nat, live: LiveTask) {
    exists i: nat | i < j :: NaggedAt(run, i, live)
  }

  /** No epoch becomes live again after another one was. */
  ghost predicate Contiguous(run: Run) {
    forall i: nat, j: nat, k: nat | i < j < k <= |run| ::
      LiveAt(run, i).Some? && LiveAt(run, j).Some? && LiveAt(run, i) != LiveAt(run, j)
      ==> LiveAt(run, k) != LiveAt(run, i)
  }

  // ----------------------------------------------------- the tracker's history

  lemma {:induction false} SlotFollowsHistory(run: Run)
    ensures After(run).slot == SlotAfter(History(run))
  {
    hide Notes;
    if run != [] {
      var before := run[..|run| - 1];
      SlotFollowsHistory(before);
      var notes := Notes(After(before), run[|run| - 1]);
      assert After(run).slot == SlotWith(After(before).slot, notes);
      if notes != [] {
        var history := History(run);
        assert history == History(before) + [notes[0]];
        assert history[..|history| - 1] == History(before);
      } else {
        assert History(run) == History(before);
      }
    }
  }

  lemma {:induction false} HistoryCountsCalls(run: Run, live: LiveTask)
    ensures Calls(History(run), live) == ToolCallsSoFar(run, live)
  {
    if run != [] {
      var before := run[..|run| - 1];
      HistoryCountsCalls(before, live);
      var notes := Notes(After(before), run[|run| - 1]);
      CallsConcat(History(before), notes, live);
      assert notes != [] ==> notes[..|notes| - 1] == [];
    }
  }

  lemma NagIsEmitted(s: State, e: Event, live: LiveTask)
    ensures NagSent(live) in Emits(s, e) <==> Note(live, Nag) in Notes(s, e)
  {
  }

  lemma {:induction false} HistoryHoldsDeliveries(run: Run, live: LiveTask)
    ensures Note(live, Delivery) in History(run) <==> DeliveredBefore(run, |run|, live)
  {
    hide Notes, Step, After;
    if run != [] {
      var n := |run| - 1;
      HistoryHoldsDeliveries(run[..n], live);
      DeliveryIsNoted(run, n, live);
      assert forall i: nat | i < n :: run[..n][..i] == run[..i];
      assert forall i: nat | i < n :: DeliveredAt(run[..n], i, live) <==> DeliveredAt(run, i, live);
    }
  }

  lemma DeliveryIsNoted(run: Run, n: nat, live: LiveTask)
    requires n < |run|
    ensures Note(live, Delivery) in Notes(After(run[..n]), run[n]) <==> DeliveredAt(run, n, live)
  {
    hide After;
  }

  lemma {:induction false} HistoryHoldsNags(run: Run, live: LiveTask)
    ensures Note(live, Nag) in History(run) <==> NaggedBefore(run, |run|, live)
  {
    hide Notes, Emits, Step, After;
    if run != [] {
      var n := |run| - 1;
      HistoryHoldsNags(run[..n], live);
      NagIsEmitted(After(run[..n]), run[n], live);
      assert forall i: nat | i < n :: run[..n][..i] == run[..i];
      assert forall i: nat | i < n :: NaggedAt(run[..n], i, live) <==> NaggedAt(run, i, live);
      assert Note(live, Nag) in Notes(After(run[..n]), run[n]) <==> NaggedAt(run, n, live);
    }
  }

  /** The event each note of the history was made at. */
  function MadeAt(run: Run): (at: seq<nat>)
    ensures |at| == |History(run)|
    ensures forall m :: 0 <= m < |at| ==> at[m] < |run|
    ensures forall l, m :: 0 <= l < m < |at| ==> at[l] < at[m]
  {
    if run == [] then []
    else
      MadeAt(run[..|run| - 1])
      + (if Notes(After(run[..|run| - 1]), run[|run| - 1]) == [] then [] else [|run| - 1])
  }

  lemma {:induction false} NotesAreOfLive(run: Run, m: nat)
    requires m < |History(run)|
    ensures LiveAt(run, MadeAt(run)[m]) == Some(History(run)[m].live)
  {
    hide Step, Notes;
    var before := run[..|run| - 1];
    if m < |History(before)| {
      NotesAreOfLive(before, m);
      assert before[..MadeAt(before)[m]] == run[..MadeAt(before)[m]];
    }
  }

  lemma ContiguousIsUnsuperseded(run: Run, live: LiveTask)
    requires Contiguous(run) && After(run).policy == Some(live)
    ensures Unsuperseded(History(run), live)
  {
    var notes, at := History(run), MadeAt(run);
    assert run[..|run|] == run;
    forall l, m | 0 <= l < m < |notes| && notes[l].live == live ensures notes[m].live == live {
      NotesAreOfLive(run, l);
      NotesAreOfLive(run, m);
      assert at[l] < at[m] < |run|;
      assert LiveAt(run, |run|) == LiveAt(run, at[l]);
    }
  }

  /** The tally the handlers see is what the events of the run add up to. */
  lemma TallyIsTrue(run: Run, live: LiveTask)
    requires Contiguous(run) && After(run).policy == Some(live)
    ensures TallyFor(After(run).slot, live)
            == Tally(live, ToolCallsSoFar(run, live), DeliveredBefore(run, |run|, live), NaggedBefore(run, |run|, live))
  {
    hide Contiguous, After, History, ToolCallsSoFar, DeliveredBefore, NaggedBefore, SlotAfter, TallyFor;
    ContiguousIsUnsuperseded(run, live);
    SlotFollowsHistory(run);
    SlotRefinesTable(History(run), live);
    HistoryCountsCalls(run, live);
    HistoryHoldsDeliveries(run, live);
    HistoryHoldsNags(run, live);
  }

  // ------------------------------------------------------------- main results

  lemma PrefixIsContiguous(run: Run, j: nat)
    requires Contiguous(run) && j <= |run|
    ensures Contiguous(run[..j])
  {
    assert forall i: nat | i <= j :: run[..j][..i] == run[..i];
    assert forall i: nat | i <= j :: LiveAt(run[..j], i) == LiveAt(run, i);
  }

  lemma {:induction false} PrefixSays(run: Run, j: nat, live: LiveTask)
    requires j <= |run|
    ensures DeliveredBefore(run[..j], j, live) <==> DeliveredBefore(run, j, live)
    ensures NaggedBefore(run[..j], j, live) <==> NaggedBefore(run, j, live)
  {
    assert forall i: nat | i < j :: run[..j][..i] == run[..i];
    assert forall i: nat | i < j :: DeliveredAt(run[..j], i, live) <==> DeliveredAt(run, i, live);
    assert forall i: nat | i < j :: NaggedAt(run[..j], i, live) <==> NaggedAt(run, i, live);
  }

  /** When a turn ends in a live epoch, a nag is sent exactly when sending works, the epoch made a
      tool call, delivered nothing, has no envelope on disk and was not nagged before. */
  lemma NaggedExactlyWhenDue(run: Run, j: nat, live: LiveTask)
    requires Contiguous(run) && j < |run| && run[j].AgentEnds? && LiveAt(run, j) == Some(live)
    ensures NaggedAt(run, j, live)
            <==> && run[j].sendWorks
                 && ToolCallsSoFar(run[..j], live) > 0
                 && !DeliveredBefore(run, j, live)
                 && live.taskId !in After(run[..j]).disk
                 && !NaggedBefore(run, j, live)
  {
    hide After, ToolCallsSoFar, DeliveredBefore, NaggedBefore, Contiguous;
    PrefixIsContiguous(run, j);
    PrefixSays(run, j, live);
    TallyIsTrue(run[..j], live);
    NagIsEmitted(After(run[..j]), run[j], live);
  }

  /** A turn that ends in a live epoch leaves a record exactly when appending works and the epoch
      delivered nothing; the record holds the epoch's tool calls so far and whether it was nagged. */
  lemma RecordIsTrue(run: Run, j: nat, live: LiveTask)
    requires Contiguous(run) && j < |run| && run[j].AgentEnds? && LiveAt(run, j) == Some(live)
    ensures forall tally ::
              NoSubmit(tally) in EmittedAt(run, j)
              <==> && run[j].appendWorks
                   && !DeliveredBefore(run, j, live)
                   && tally == Tally(live, ToolCallsSoFar(run[..j], live), false,
                                     NaggedBefore(run, j, live) || NaggedAt(run, j, live))
  {
    hide After, ToolCallsSoFar, DeliveredBefore, NaggedBefore, Contiguous;
    PrefixIsContiguous(run, j);
    PrefixSays(run, j, live);
    TallyIsTrue(run[..j], live);
    NagIsEmitted(After(run[..j]), run[j], live);
  }

  /** Only a turn's end in an epoch says anything about that epoch. */
  lemma OutputsAreAboutLive(run: Run, j: nat, output: Output)
    requires j < |run| && output in EmittedAt(run, j)
    ensures run[j].AgentEnds?
    ensures LiveAt(run, j) == Some(match output case NagSent(live) => live case NoSubmit(tally) => tally.live)
  {
  }

  /** One nag, not a loop. */
  lemma NaggedAtMostOnce(run: Run, i: nat, j: nat, live: LiveTask)
    requires Contiguous(run) && NaggedAt(run, i, live) && NaggedAt(run, j, live)
    ensures i == j
  {
    hide Contiguous, EmittedAt, After, ToolCallsSoFar;
    OutputsAreAboutLive(run, i, NagSent(live));
    OutputsAreAboutLive(run, j, NagSent(live));
    NaggedExactlyWhenDue(run, i, live);
    NaggedExactlyWhenDue(run, j, live);
  }

  /** Nothing accuses an epoch after it delivered. */
  lemma SilentAfterDelivery(run: Run, i: nat, j: nat, live: LiveTask, tally: Tally)
    requires Contiguous(run) && i < j < |run| && DeliveredAt(run, i, live)
    ensures !NaggedAt(run, j, live)
    ensures tally.live == live ==> NoSubmit(tally) !in EmittedAt(run, j)
  {
    if NaggedAt(run, j, live) {
      OutputsAreAboutLive(run, j, NagSent(live));
      NaggedExactlyWhenDue(run, j, live);
    }
    if tally.live == live && NoSubmit(tally) in EmittedAt(run, j) {
      OutputsAreAboutLive(run, j, NoSubmit(tally));
      RecordIsTrue(run, j, live);
    }
  }

  // --------------------------------------------------------------- every run

  ghost predicate MakesNote(run: Run, i: nat, note: Note) {
    i < |run| && note in Notes(After(run[..i]), run[i])
  }

  /** Event `k` is noted about another pair than `live`. */
  ghost predicate NotesOther(run: Run, k: nat, live: LiveTask) {
    exists note :: MakesNote(run, k, note) && note.live != live
  }

  /** Event `i` makes this note, and none between it and `j` is noted about another pair. */
  ghost predicate StandsFrom(run: Run, i: nat, j: nat, note: Note) {
    MakesNote(run, i, note) && forall k: nat | i < k < j :: !NotesOther(run, k, note.live)
  }

  ghost predicate Stands(run: Run, j: nat, note: Note) { exists i: nat | i < j :: StandsFrom(run, i, j, note) }

  lemma NotesOfPrefix(run: Run, n: nat)
    requires n <= |run|
    ensures forall i: nat, note | i < n :: MakesNote(run[..n], i, note) <==> MakesNote(run, i, note)
    ensures forall i: nat, live | i < n :: NotesOther(run[..n], i, live) <==> NotesOther(run, i, live)
  {
    hide Notes, After;
    forall i: nat | i < n ensures run[..n][..i] == run[..i] && run[..n][i] == run[i] {
    }
    assert forall i: nat, note | i < n :: MakesNote(run[..n], i, note) <==> MakesNote(run, i, note);
  }

  lemma StandsInPrefix(run: Run, n: nat, j: nat, note: Note)
    requires j <= n <= |run|
    ensures Stands(run[..n], j, note) <==> Stands(run, j, note)
  {
    hide MakesNote, NotesOther;
    NotesOfPrefix(run, n);
    assert forall i: nat | i < j :: StandsFrom(run[..n], i, j, note) <==> StandsFrom(run, i, j, note);
  }

  lemma StandsOneMore(run: Run, n: nat, note: Note)
    requires n < |run|
    ensures Stands(run, n + 1, note)
            <==> MakesNote(run, n, note) || (Stands(run, n, note) && !NotesOther(run, n, note.live))
  {
    hide MakesNote, NotesOther;
    if MakesNote(run, n, note) {
      assert StandsFrom(run, n, n + 1, note);
    }
    if Stands(run, n, note) && !NotesOther(run, n, note.live) {
      var i: nat :| i < n && StandsFrom(run, i, n, note);
      assert StandsFrom(run, i, n + 1, note);
    }
    if Stands(run, n + 1, note) {
      var i: nat :| i < n + 1 && StandsFrom(run, i, n + 1, note);
      assert i < n ==> StandsFrom(run, i, n, note);
    }
  }

  /** The slot knows exactly the notes no other pair's note came after. */
  lemma {:induction false} KeptStands(run: Run, note: Note)
    ensures note in Kept(History(run), note.live) <==> Stands(run, |run|, note)
  {
    hide Notes, After, Stands, MakesNote, Kept, History;
    if run == [] {
      NothingStands(note);
    } else {
      var n := |run| - 1;
      KeptStands(run[..n], note);
      StandsInPrefix(run, n, n, note);
      StandsOneMore(run, n, note);
      LastNotes(run, note);
    }
  }

  lemma LastNotes(run: Run, note: Note)
    requires run != []
    ensures var n := |run| - 1;
            note in Kept(History(run), note.live)
            <==> MakesNote(run, n, note)
                 || (note in Kept(History(run[..n]), note.live) && !NotesOther(run, n, note.live))
  {
    hide Notes, After, Kept, History, MakesNote, NotesOther;
    var n := |run| - 1;
    HistoryOneMore(run);
    NotesAt(run, n, note);
    KeptOneMore(History(run[..n]), Notes(After(run[..n]), run[n]), note);
  }

  lemma HistoryOneMore(run: Run)
    requires run != []
    ensures var n := |run| - 1; History(run) == History(run[..n]) + Notes(After(run[..n]), run[n])
  {
    hide Notes, After;
  }

  lemma NotesAt(run: Run, n: nat, note: Note)
    requires n < |run|
    ensures var notes := Notes(After(run[..n]), run[n]);
            && |notes| <= 1
            && (MakesNote(run, n, note) <==> note in notes)
            && (NotesOther(run, n, note.live) <==> notes != [] && notes[0].live != note.live)
  {
    hide After;
    var notes := Notes(After(run[..n]), run[n]);
    assert notes != [] ==> MakesNote(run, n, notes[0]);
  }

  lemma KeptOneMore(before: seq<Note>, notes: seq<Note>, note: Note)
    requires |notes| <= 1
    ensures note in Kept(before + notes, note.live)
            <==> note in notes
                 || (note in Kept(before, note.live) && (notes == [] || notes[0].live == note.live))
  {
    if notes == [] {
      assert before + notes == before;
    } else {
      var all := before + notes;
      assert all[..|all| - 1] == before && all[|all| - 1] == notes[0];
      if notes[0].live == note.live {
        assert Kept(all, note.live) == Kept(before, note.live) + notes;
      }
    }
  }

  lemma NothingStands(note: Note)
    ensures History([]) == [] && Kept([], note.live) == [] && !Stands([], 0, note)
  {
  }

  lemma TallyStands(run: Run, live: LiveTask)
    ensures var tally := TallyFor(After(run).slot, live);
            && tally.live == live
            && (tally.toolCalls > 0 <==> Stands(run, |run|, Note(live, ToolCall)))
            && (tally.delivered <==> Stands(run, |run|, Note(live, Delivery)))
            && (tally.nagged <==> Stands(run, |run|, Note(live, Nag)))
  {
    hide After, History, Stands, SlotAfter, Kept;
    SlotFollowsHistory(run);
    SlotHoldsKept(History(run), live);
    NoCalls(Kept(History(run), live), live);
    KeptStands(run, Note(live, ToolCall));
    KeptStands(run, Note(live, Delivery));
    KeptStands(run, Note(live, Nag));
  }

  /** On every run, epochs that return among them: a turn that ends in `live` records it as not submitted
      exactly when appending works and each delivery of it had another pair noted behind it. */
  lemma RecordedIff(run: Run, j: nat, live: LiveTask)
    requires j < |run| && run[j].AgentEnds? && LiveAt(run, j) == Some(live)
    ensures (exists tally: Tally :: tally.live == live && NoSubmit(tally) in EmittedAt(run, j))
            <==> run[j].appendWorks && !Stands(run, j, Note(live, Delivery))
  {
    hide After, Stands, Nags;
    TallyStands(run[..j], live);
    StandsInPrefix(run, j, j, Note(live, Delivery));
    var s := After(run[..j]);
    var tally := TallyFor(Step(s, run[j]).slot, live);
    assert NoSubmit(tally) in EmittedAt(run, j) <==> run[j].appendWorks && !TallyFor(s.slot, live).delivered;
  }

  /** And it nags exactly when sending works, a tool call stands, no delivery and no nag does, and no envelope
      is on disk. */
  lemma NaggedIff(run: Run, j: nat, live: LiveTask)
    requires j < |run| && run[j].AgentEnds? && LiveAt(run, j) == Some(live)
    ensures NaggedAt(run, j, live)
            <==> && run[j].sendWorks && live.taskId !in After(run[..j]).disk
                 && Stands(run, j, Note(live, ToolCall))
                 && !Stands(run, j, Note(live, Delivery)) && !Stands(run, j, Note(live, Nag))
  {
    hide After, Stands;
    TallyStands(run[..j], live);
    StandsInPrefix(run, j, j, Note(live, ToolCall));
    StandsInPrefix(run, j, j, Note(live, Delivery));
    StandsInPrefix(run, j, j, Note(live, Nag));
    NagIsEmitted(After(run[..j]), run[j], live);
  }

  /** The first epoch of the run below, back again after the second one made a tool call. */
  function ReturningRun(a: LiveTask, b: LiveTask): Run {
    [HostWrites(Some(a)), ToolCalled, AgentEnds(true, true), HostWrites(Some(b)), ToolCalled,
     HostWrites(Some(a)), ToolCalled, AgentEnds(true, true)]
  }

  lemma Advance(run: Run, n: nat, s: State, calls: nat, live: LiveTask)
    requires n < |run| && After(run[..n]) == s && ToolCallsSoFar(run[..n], live) == calls
    ensures After(run[..n + 1]) == Step(s, run[n])
    ensures ToolCallsSoFar(run[..n + 1], live)
            == calls + if run[n].ToolCalled? && s.policy == Some(live) then 1 else 0
  {
    assert run[..n + 1][..n] == run[..n];
  }

  /** An epoch that returns after another was tracked is nagged again, and its record forgets. */
  lemma ReturningEpochIsForgotten(a: LiveTask, b: LiveTask)
    requires a != b
    ensures NaggedAt(ReturningRun(a, b), 2, a) && NaggedAt(ReturningRun(a, b), 7, a)
    ensures NoSubmit(Tally(a, 1, false, true)) in EmittedAt(ReturningRun(a, b), 7)
    ensures ToolCallsSoFar(ReturningRun(a, b)[..7], a) == 2
  {
    hide After, ToolCallsSoFar, DeliveredAt;
    var run := ReturningRun(a, b);
    Beginning(run, a);
    Advance(run, 0, START, 0, a);
    Advance(run, 1, State(Some(a), None, {}), 0, a);
    Advance(run, 2, State(Some(a), Some(Tally(a, 1, false, false)), {}), 1, a);
    Advance(run, 3, State(Some(a), Some(Tally(a, 1, false, true)), {}), 1, a);
    Advance(run, 4, State(Some(b), Some(Tally(a, 1, false, true)), {}), 1, a);
    Advance(run, 5, State(Some(b), Some(Tally(b, 1, false, false)), {}), 1, a);
    Advance(run, 6, State(Some(a), Some(Tally(b, 1, false, false)), {}), 1, a);
  }

  /** The same with a report delivered first. */
  function DeliveringRun(a: LiveTask, b: LiveTask): Run {
    [HostWrites(Some(a)), ToolCalled, Submitted(true), HostWrites(Some(b)), ToolCalled, HostWrites(Some(a)),
     AgentEnds(true, true)]
  }

  /** An epoch that delivered, and returns after another was tracked, is recorded as never submitted and
      never working. */
  lemma DeliveredEpochIsAccused(a: LiveTask, b: LiveTask)
    requires a != b
    ensures DeliveredAt(DeliveringRun(a, b), 2, a)
    ensures NoSubmit(Tally(a, 0, false, false)) in EmittedAt(DeliveringRun(a, b), 6)
    ensures ToolCallsSoFar(DeliveringRun(a, b)[..6], a) == 1
  {
    hide After, ToolCallsSoFar;
    var run := DeliveringRun(a, b);
    var disk := {a.taskId};
    Beginning(run, a);
    Advance(run, 0, START, 0, a);
    Advance(run, 1, State(Some(a), None, {}), 0, a);
    Advance(run, 2, State(Some(a), Some(Tally(a, 1, false, false)), {}), 1, a);
    Advance(run, 3, State(Some(a), Some(Tally(a, 1, true, false)), disk), 1, a);
    Advance(run, 4, State(Some(b), Some(Tally(a, 1, true, false)), disk), 1, a);
    Advance(run, 5, State(Some(b), Some(Tally(b, 1, false, false)), disk), 1, a);
  }

  lemma Beginning(run: Run, live: LiveTask)
    ensures After(run[..0]) == START && ToolCallsSoFar(run[..0], live) == 0
  {
  }
}
