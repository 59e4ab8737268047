/** The polling reader of the task drop (`docker/pi-extensions/dispatch-trigger.ts`) against the host,
    which rewrites the drop in place. `Trigger` is the extension's closure; a `World` adds the file
    the two sides share, and a run is any interleaving of what either side may do next. */
module DispatchTrigger {
  import opened Optional
  import opened Json
  import opened StagedDrop

  /** The closure's three variables, the intervals it has running and the turns it started. */
  datatype State = State(
    lastFired: Option<Text>, lastBody: Option<Text>, timer: Option<nat>, live: set<nat>, sent: seq<Text>)

  const INITIAL := State(None, None, None, {}, [])

  /** One `tick` on what the read returned; `None` is a read that failed. */
  function Ticked(s: State, read: Option<Text>): State {
    if read.None? then s.(lastBody := None)
    else
      var s' := s.(lastBody := read);
      if s.lastBody != read then s'
      else
        var header := ReadStagedHeader(read.value);
        if !header.Staged? then s'
        else
          var key := FireKey(header.taskId, header.epoch);
          if s.lastFired == Some(key) then s'
          else s'.(lastFired := Some(key), sent := s.sent + [key])
  }

  /** `handle` is what `setInterval` returns: a name no running interval has. */
  function Started(s: State, handle: nat): State
    requires handle !in s.live
  {
    if s.timer.Some? then s else s.(timer := Some(handle), live := s.live + {handle})
  }

  function Stopped(s: State): State {
    if s.timer.None? then s else s.(timer := None, live := s.live - {s.timer.value})
  }

  class Trigger {
    var lastFired: Option<Text>
    var lastBody: Option<Text>
    var timer: Option<nat>
    var live: set<nat>
    var sent: seq<Text>

    ghost function Snapshot(): State
      reads this
    {
      State(lastFired, lastBody, timer, live, sent)
    }

    constructor ()
      ensures Snapshot() == INITIAL
    {
      lastFired, lastBody, timer, live, sent := None, None, None, {}, [];
    }

    method Tick(read: Option<Text>)
      modifies this
      ensures Snapshot() == Ticked(old(Snapshot()), read)
    {
      if read.None? {
        lastBody := None;
        return;
      }
      var previous := lastBody;
      lastBody := read;
      if previous != read {
        return;
      }
      var staged := ReadStagedHeader(read.value);
      if !staged.Staged? {
        return;
      }
      var key := FireKey(staged.taskId, staged.epoch);
      if lastFired == Some(key) {
        return;
      }
      lastFired := Some(key);
      sent := sent + [key];
    }

    method SessionStart(handle: nat)
      requires handle !in live
      modifies this
      ensures Snapshot() == Started(old(Snapshot()), handle)
    {
      if timer.Some? {
        return;
      }
      timer := Some(handle);
      live := live + {handle};
    }

    method SessionShutdown()
      modifies this
      ensures Snapshot() == Stopped(old(Snapshot()))
    {
      if timer.None? {
        return;
      }
      live := live - {timer.value};
      timer := None;
    }
  }

  // --------------------------------------------------------------- whole runs

  /** What the host is asked to have in the drop. */
  datatype Target = Target(identity: Option<Identity>, prompt: Text)

  predicate ValidTarget(t: Target) { t.identity.Some? ==> ValidIdentity(t.identity.value) }

  function Body(t: Target): Text
    requires ValidTarget(t)
  {
    RenderDrop(t.identity, t.prompt)
  }

  function TargetKey(t: Target): Option<Text>
    requires ValidTarget(t)
  {
    if t.identity.None? then None else Some(FireKey(t.identity.value.taskId, t.identity.value.epoch))
  }

  /** `BeginWrite` truncates the file for the next target and `WriteMore` lets more of it land, in
      whatever pieces; `Hide` and `Show` bracket a moment at which the file cannot be read. */
  datatype Event =
    | BeginWrite(target: Target)
    | WriteMore(units: nat)
    | Hide
    | Show
    | Poll
    | Start(handle: nat)
    | Shutdown

  /** One turn started: its key, the target the host was writing, and whether all of it had landed. */
  datatype Fire = Fire(key: Text, target: nat, complete: bool)

  /** The targets so far; the file holds the first `written` units of the last one. */
  datatype World = World(targets: seq<Target>, written: nat, readable: bool, trigger: State, fires: seq<Fire>)

  const ORIGIN := World([], 0, false, INITIAL, [])

  predicate Complete(w: World)
    requires w.targets != [] && ValidTarget(w.targets[|w.targets| - 1])
  {
    w.written >= |Body(w.targets[|w.targets| - 1])|
  }

  predicate AllValid(ts: seq<Target>) {
    forall i :: 0 <= i < |ts| ==> ValidTarget(ts[i])
  }

  function FileRead(w: World): Option<Text>
    requires AllValid(w.targets)
  {
    if w.targets == [] || !w.readable then None else Some(Cut(Body(w.targets[|w.targets| - 1]), w.written))
  }

  predicate Enabled(w: World, e: Event) {
    match e
    case BeginWrite(target) => ValidTarget(target)
    case WriteMore(_) => w.targets != []
    case Show => w.targets != []
    case Poll => w.trigger.timer.Some?
    case Start(handle) => handle !in w.trigger.live
    case _ => true
  }

  function Step(w: World, e: Event): (w': World)
    requires AllValid(w.targets) && Enabled(w, e)
    ensures AllValid(w'.targets)
  {
    match e
    case BeginWrite(target) => w.(targets := w.targets + [target], written := 0, readable := true)
    case WriteMore(units) => w.(written := w.written + units)
    case Hide => w.(readable := false)
    case Show => w.(readable := true)
    case Start(handle) => w.(trigger := Started(w.trigger, handle))
    case Shutdown => w.(trigger := Stopped(w.trigger))
    case Poll =>
      var trigger := Ticked(w.trigger, FileRead(w));
      w.(trigger := trigger,
         fires := if |trigger.sent| == |w.trigger.sent| then w.fires
                  else w.fires + [Fire(trigger.sent[|trigger.sent| - 1], |w.targets| - 1, Complete(w))])
  }

  /** The states of a run, one more than its events. */
  ghost predicate Run(ws: seq<World>, es: seq<Event>) {
    && |ws| == |es| + 1 && ws[0] == ORIGIN
    && forall i :: 0 <= i < |es| ==> StepsTo(ws[i], es[i], ws[i + 1])
  }

  ghost predicate StepsTo(w: World, e: Event, w': World) {
    AllValid(w.targets) && Enabled(w, e) && w' == Step(w, e)
  }

  ghost predicate Invariant(w: World) {
    && AllValid(w.targets)
    && w.trigger.live == (if w.trigger.timer.None? then {} else {w.trigger.timer.value})
    && |w.fires| == |w.trigger.sent|
    && (forall i :: 0 <= i < |w.fires| ==> w.fires[i].key == w.trigger.sent[i])
    && w.trigger.lastFired == (if w.fires == [] then None else Some(w.fires[|w.fires| - 1].key))
    && (forall i :: 0 <= i < |w.fires| ==>
          w.fires[i].target < |w.targets| && TargetKey(w.targets[w.fires[i].target]) == Some(w.fires[i].key))
    && (forall i, j :: 0 <= i < j < |w.fires| ==> w.fires[i].target <= w.fires[j].target)
    && (forall i :: 0 < i < |w.fires| ==> w.fires[i - 1].key != w.fires[i].key)
  }

  /** Whatever a poll reads shows the header of the target being written, or none. */
  lemma PollReadsOwnKey(w: World)
    requires AllValid(w.targets) && FileRead(w).Some?
    ensures var header := ReadStagedHeader(FileRead(w).value);
            && (header.Staged? ==>
                  TargetKey(w.targets[|w.targets| - 1]) == Some(FireKey(header.taskId, header.epoch)))
            && (Complete(w) && TargetKey(w.targets[|w.targets| - 1]).Some? ==> header.Staged?)
  {
    var target := w.targets[|w.targets| - 1];
    EveryPrefixReadsOwnHeader(target.identity, target.prompt, w.written);
  }

  lemma PollKeepsInvariant(w: World)
    requires Invariant(w) && Enabled(w, Poll)
    ensures Invariant(Step(w, Poll))
  {
    hide ReadStagedHeader, FireKey, RenderDrop, TargetKey;
    var w' := Step(w, Poll);
    if FileRead(w).Some? {
      PollReadsOwnKey(w);
    }
  }

  lemma StepKeepsInvariant(w: World, e: Event)
    requires Invariant(w) && Enabled(w, e)
    ensures Invariant(Step(w, e))
  {
    hide TargetKey;
    if e.Poll? {
      PollKeepsInvariant(w);
    } else if e.BeginWrite? {
      var w' := Step(w, e);
      assert forall i :: 0 <= i < |w.fires| ==> w'.targets[w.fires[i].target] == w.targets[w.fires[i].target];
    }
  }

  lemma OriginInvariant()
    ensures Invariant(ORIGIN)
  {
  }

  lemma {:induction false} RunKeepsInvariant(ws: seq<World>, es: seq<Event>, n: nat)
    requires Run(ws, es) && n < |ws|
    ensures Invariant(ws[n])
  {
    hide Invariant, Step, Enabled;
    if n == 0 {
      OriginInvariant();
    } else {
      RunKeepsInvariant(ws, es, n - 1);
      assert StepsTo(ws[n - 1], es[n - 1], ws[n]);
      StepKeepsInvariant(ws[n - 1], es[n - 1]);
    }
  }

  /** At most one interval ever runs, however sessions start and stop. */
  lemma AtMostOneTimer(ws: seq<World>, es: seq<Event>, n: nat)
    requires Run(ws, es) && n < |ws|
    ensures |ws[n].trigger.live| <= 1
  {
    RunKeepsInvariant(ws, es, n);
  }

  /** No run starts a turn for a key the host never staged, and no two turns running have one key. */
  lemma EveryFireIsStaged(ws: seq<World>, es: seq<Event>, n: nat, i: nat)
    requires Run(ws, es) && n < |ws| && i < |ws[n].fires|
    ensures AllValid(ws[n].targets) && ws[n].fires[i].target < |ws[n].targets|
    ensures TargetKey(ws[n].targets[ws[n].fires[i].target]) == Some(ws[n].fires[i].key)
    ensures i > 0 ==> ws[n].fires[i - 1].key != ws[n].fires[i].key
  {
    RunKeepsInvariant(ws, es, n);
  }

  /** Once another key is staged, the host does not stage the earlier one again. */
  ghost predicate KeysNeverReturn(ts: seq<Target>)
    requires AllValid(ts)
  {
    forall i, j, k | 0 <= i < j < k < |ts| && TargetKey(ts[i]) == TargetKey(ts[k]) ::
      TargetKey(ts[i]).Some? && TargetKey(ts[j]).Some? ==> TargetKey(ts[j]) == TargetKey(ts[i])
  }

  lemma KeysOfFires(w: World, i: nat, j: nat)
    requires Invariant(w) && KeysNeverReturn(w.targets) && i < j < |w.fires|
    ensures w.fires[i].key != w.fires[j].key
  {
    hide TargetKey;
    var a, b, c := w.fires[i].target, w.fires[i + 1].target, w.fires[j].target;
    assert a <= b <= c;
    var keyA, keyB, keyC := TargetKey(w.targets[a]), TargetKey(w.targets[b]), TargetKey(w.targets[c]);
    assert keyA == Some(w.fires[i].key) && keyB == Some(w.fires[i + 1].key) && keyC == Some(w.fires[j].key);
    assert w.fires[i + 1 - 1].key != w.fires[i + 1].key;
  }

  /** Each allocation starts one turn at most, even across session shutdown and restart. */
  lemma FiresAtMostOnce(ws: seq<World>, es: seq<Event>, n: nat, i: nat, j: nat)
    requires Run(ws, es) && n < |ws| && AllValid(ws[n].targets) && KeysNeverReturn(ws[n].targets)
    requires i < j < |ws[n].fires|
    ensures ws[n].fires[i].key != ws[n].fires[j].key
  {
    RunKeepsInvariant(ws, es, n);
    KeysOfFires(ws[n], i, j);
  }

  /** The poll before position `n`, if there was one. */
  ghost predicate PreviousPoll(es: seq<Event>, m: nat, n: nat) {
    m < n < |es| && es[m].Poll? && es[n].Poll? && forall k :: m < k < n ==> !es[k].Poll?
  }

  lemma {:induction false} LastBodyIsPreviousRead(ws: seq<World>, es: seq<Event>, m: nat, n: nat)
    requires Run(ws, es) && m < n <= |es| && es[m].Poll? && forall k :: m < k < n ==> !es[k].Poll?
    ensures AllValid(ws[m].targets) && ws[n].trigger.lastBody == FileRead(ws[m])
    decreases n
  {
    assert StepsTo(ws[n - 1], es[n - 1], ws[n]);
    if n > m + 1 {
      LastBodyIsPreviousRead(ws, es, m, n - 1);
    }
  }

  lemma {:induction false} NoBodyBeforeFirstPoll(ws: seq<World>, es: seq<Event>, n: nat)
    requires Run(ws, es) && n <= |es| && forall k :: 0 <= k < n ==> !es[k].Poll?
    ensures ws[n].trigger.lastBody.None?
  {
    if n > 0 {
      assert StepsTo(ws[n - 1], es[n - 1], ws[n]);
      NoBodyBeforeFirstPoll(ws, es, n - 1);
    }
  }

  lemma {:induction false} FindPreviousPoll(es: seq<Event>, n: nat) returns (m: int)
    requires n <= |es|
    ensures -1 <= m < n && (m >= 0 ==> es[m].Poll?) && forall k :: m < k < n ==> !es[k].Poll?
  {
    m := n - 1;
    while m >= 0 && !es[m].Poll?
      invariant -1 <= m < n && forall k :: m < k < n ==> !es[k].Poll?
    {
      m := m - 1;
    }
  }

  /** A poll that finds part of a drop differs from the poll before it. */
  ghost predicate PartialsAreReadOnce(ws: seq<World>, es: seq<Event>)
    requires Run(ws, es)
  {
    forall m: nat, n: nat |
      PreviousPoll(es, m, n) && StepsTo(ws[m], es[m], ws[m + 1]) && StepsTo(ws[n], es[n], ws[n + 1]) ::
      ws[n].targets != [] && !Complete(ws[n]) && FileRead(ws[n]).Some? ==> FileRead(ws[m]) != FileRead(ws[n])
  }

  /** A turn starts only at a poll whose read repeats the read of the poll before it. */
  lemma FiresOnRepeatedRead(ws: seq<World>, es: seq<Event>, n: nat) returns (m: nat)
    requires Run(ws, es) && n < |es| && ws[n + 1].fires != ws[n].fires
    ensures PreviousPoll(es, m, n) && StepsTo(ws[m], es[m], ws[m + 1]) && StepsTo(ws[n], es[n], ws[n + 1])
    ensures FileRead(ws[m]) == FileRead(ws[n]) && FileRead(ws[n]).Some? && ws[n].targets != []
    ensures ws[n + 1].fires == ws[n].fires + [ws[n + 1].fires[|ws[n].fires|]]
    ensures ws[n + 1].fires[|ws[n].fires|].complete == Complete(ws[n])
  {
    assert StepsTo(ws[n], es[n], ws[n + 1]);
    var at := FindPreviousPoll(es, n);
    if at < 0 {
      NoBodyBeforeFirstPoll(ws, es, n);
      assert false;
    }
    m := at;
    assert StepsTo(ws[m], es[m], ws[m + 1]);
    LastBodyIsPreviousRead(ws, es, m, n);
  }

  /** A poll starts a turn on part of a drop. */
  ghost predicate FiresTorn(w: World, w': World) {
    w'.fires != w.fires && w'.fires != [] && !w'.fires[|w'.fires| - 1].complete
  }

  /** Exactly when that happens: the poll repeats the read before it, the header and separator have
      landed and the whole has not, and the drop's key is not the one fired last. */
  lemma FiresTornIff(ws: seq<World>, es: seq<Event>, m: nat, n: nat)
    requires Run(ws, es) && PreviousPoll(es, m, n)
    requires AllValid(ws[m].targets) && AllValid(ws[n].targets) && ws[n].targets != []
    ensures var target := ws[n].targets[|ws[n].targets| - 1];
            FiresTorn(ws[n], ws[n + 1])
            <==> && FileRead(ws[n]).Some? && FileRead(ws[m]) == FileRead(ws[n])
                 && target.identity.Some?
                 && HeaderLength(target.identity) <= ws[n].written < |Body(target)|
                 && ws[n].trigger.lastFired != TargetKey(target)
  {
    hide ReadStagedHeader, FireKey, RenderDrop, HeaderLength;
    assert StepsTo(ws[n], es[n], ws[n + 1]);
    LastBodyIsPreviousRead(ws, es, m, n);
    RunKeepsInvariant(ws, es, n);
    var target := ws[n].targets[|ws[n].targets| - 1];
    EveryPrefixReadsOwnHeader(target.identity, target.prompt, ws[n].written);
  }

  /** It can: any drop with a prompt, stalled behind its separator for two polls. */
  lemma TornDropFires(target: Target) returns (ws: seq<World>, es: seq<Event>)
    requires ValidTarget(target) && target.identity.Some? && HeaderLength(target.identity) < |Body(target)|
    ensures Run(ws, es) && |ws| == 6 && FiresTorn(ws[4], ws[5])
    ensures ws[5].fires == [Fire(TargetKey(target).value, 0, false)]
  {
    hide ReadStagedHeader, FireKey, RenderDrop, ValidIdentity, HeaderLength;
    es := [Start(0), BeginWrite(target), WriteMore(HeaderLength(target.identity)), Poll, Poll];
    var w1 := Step(ORIGIN, es[0]);
    var w2 := Step(w1, es[1]);
    var w3 := Step(w2, es[2]);
    var w4 := Step(w3, es[3]);
    EveryPrefixReadsOwnHeader(target.identity, target.prompt, w4.written);
    ws := [ORIGIN, w1, w2, w3, w4, Step(w4, es[4])];
  }

  lemma FireIsComplete(ws: seq<World>, es: seq<Event>, n: nat)
    requires Run(ws, es) && PartialsAreReadOnce(ws, es) && n < |es| && ws[n + 1].fires != ws[n].fires
    ensures |ws[n].fires| < |ws[n + 1].fires|
    ensures ws[n + 1].fires == ws[n].fires + [ws[n + 1].fires[|ws[n].fires|]]
    ensures ws[n + 1].fires[|ws[n].fires|].complete
  {
    hide Run, Complete, Step, FileRead, AllValid, Enabled;
    FiresOneMore(ws, es, n);
    var m := FiresOnRepeatedRead(ws, es, n);
    assert PreviousPoll(es, m, n);
  }

  lemma FiresOneMore(ws: seq<World>, es: seq<Event>, n: nat)
    requires Run(ws, es) && n < |es| && ws[n + 1].fires != ws[n].fires
    ensures |ws[n].fires| < |ws[n + 1].fires|
  {
    hide FileRead, Complete, AllValid, ReadStagedHeader;
    assert StepsTo(ws[n], es[n], ws[n + 1]);
  }

  /** If no partial write is read twice running, every turn starts on a completely written drop. */
  lemma {:induction false} FiresOnCompleteDrops(ws: seq<World>, es: seq<Event>, n: nat, i: nat)
    requires Run(ws, es) && PartialsAreReadOnce(ws, es) && n < |ws| && i < |ws[n].fires|
    ensures ws[n].fires[i].complete
    decreases n
  {
    hide StepsTo, PartialsAreReadOnce, FileRead, Complete, AllValid, Enabled, Step;
    if n > 0 {
      if ws[n].fires != ws[n - 1].fires {
        FireIsComplete(ws, es, n - 1);
      }
      if i < |ws[n - 1].fires| {
        FiresOnCompleteDrops(ws, es, n - 1, i);
      }
    }
  }

  /** A staged drop that two consecutive polls read whole has started its turn by the second. */
  lemma FiresByTheSecondPoll(ws: seq<World>, es: seq<Event>, m: nat, n: nat)
    requires Run(ws, es) && PreviousPoll(es, m, n)
    requires AllValid(ws[m].targets) && AllValid(ws[n].targets)
    requires ws[n].targets != [] && ws[n].readable && Complete(ws[n])
    requires TargetKey(ws[n].targets[|ws[n].targets| - 1]).Some? && FileRead(ws[m]) == FileRead(ws[n])
    ensures ws[n + 1].fires != []
    ensures Some(ws[n + 1].fires[|ws[n + 1].fires| - 1].key) == TargetKey(ws[n].targets[|ws[n].targets| - 1])
  {
    hide ReadStagedHeader, FireKey, RenderDrop, TargetKey;
    assert StepsTo(ws[n], es[n], ws[n + 1]);
    LastBodyIsPreviousRead(ws, es, m, n);
    RunKeepsInvariant(ws, es, n);
    RunKeepsInvariant(ws, es, n + 1);
    PollReadsOwnKey(ws[n]);
  }

  /** Such runs exist: any valid drop, written whole and polled twice, starts its turn. */
  lemma WholeDropFires(target: Target) returns (ws: seq<World>, es: seq<Event>)
    requires ValidTarget(target) && target.identity.Some?
    ensures Run(ws, es) && |ws| == 6
    ensures ws[5].fires == [Fire(TargetKey(target).value, 0, true)]
  {
    hide ReadStagedHeader, FireKey, RenderDrop, ValidIdentity;
    es := [Start(0), BeginWrite(target), WriteMore(|Body(target)|), Poll, Poll];
    var w1 := Step(ORIGIN, es[0]);
    var w2 := Step(w1, es[1]);
    var w3 := Step(w2, es[2]);
    var w4 := Step(w3, es[3]);
    PollReadsOwnKey(w4);
    ws := [ORIGIN, w1, w2, w3, w4, Step(w4, es[4])];
  }
}
