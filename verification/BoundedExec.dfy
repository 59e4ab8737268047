/** `realExec` (`src/container/run.ts`): one child, two pipes and three timers. A run is any order in
    which the child, the pipes, the timers and the clock may act; a timer that is due, or a call that
    can settle, holds the clock. */
module BoundedExec {
  import opened Optional

  newtype Byte = i: int | 0 <= i < 256

  type Bytes = seq<Byte>

  const DEFAULT_TIMEOUT_MS: nat := 60_000
  const KILL_GRACE_MS: nat := 2_000
  const DRAIN_MS: nat := 2_000

  // ------------------------------------------------------------------ buffers

  function Concat(chunks: seq<Bytes>): Bytes {
    if chunks == [] then [] else Concat(chunks[..|chunks| - 1]) + chunks[|chunks| - 1]
  }

  function TotalLength(chunks: seq<Bytes>): (n: nat)
    ensures n == |Concat(chunks)|
  {
    if chunks == [] then 0 else TotalLength(chunks[..|chunks| - 1]) + |chunks[|chunks| - 1]|
  }

  lemma {:induction false} PrefixFits(chunks: seq<Bytes>, i: nat)
    requires i <= |chunks|
    ensures TotalLength(chunks[..i]) <= TotalLength(chunks)
    decreases |chunks| - i
  {
    if i < |chunks| {
      PrefixFits(chunks, i + 1);
      assert chunks[..i + 1][..i] == chunks[..i];
    } else {
      assert chunks[..i] == chunks;
    }
  }

  /** `target.set(chunk, at)` */
  method SetAt(target: array<Byte>, chunk: Bytes, at: nat)
    requires at + |chunk| <= target.Length
    modifies target
    ensures target[..at] == old(target[..at]) && target[at..at + |chunk|] == chunk
    ensures target[at + |chunk|..] == old(target[at + |chunk|..])
  {
    forall i | 0 <= i < |chunk| {
      target[at + i] := chunk[i];
    }
  }

  /** The end of `pump`: the chunks, each at the offset where the last one ended. */
  method Assemble(chunks: seq<Bytes>) returns (joined: array<Byte>)
    ensures fresh(joined) && joined[..] == Concat(chunks)
  {
    var size := 0;
    for i := 0 to |chunks|
      invariant size == TotalLength(chunks[..i])
    {
      size := size + |chunks[i]|;
      OneMoreChunk(chunks, i);
    }
    assert chunks[..|chunks|] == chunks;
    joined := new Byte[size];
    var at := 0;
    hide TotalLength, Concat;
    NoChunks();
    for i := 0 to |chunks|
      invariant at == TotalLength(chunks[..i]) <= joined.Length
      invariant joined[..at] == Concat(chunks[..i])
    {
      OneMoreChunk(chunks, i);
      PrefixFits(chunks, i + 1);
      SetAt(joined, chunks[i], at);
      assert joined[..at + |chunks[i]|] == joined[..at] + joined[at..at + |chunks[i]|];
      at := at + |chunks[i]|;
    }
    assert joined[..at] == joined[..];
  }

  lemma NoChunks()
    ensures Concat([]) == [] && TotalLength([]) == 0
  {
  }

  lemma OneMoreChunk(chunks: seq<Bytes>, i: nat)
    requires i < |chunks|
    ensures Concat(chunks[..i + 1]) == Concat(chunks[..i]) + chunks[i]
    ensures TotalLength(chunks[..i + 1]) == TotalLength(chunks[..i]) + |chunks[i]|
  {
    assert chunks[..i + 1][..i] == chunks[..i];
  }

  // -------------------------------------------------------------- the machine

  datatype Child = Running | Exited(code: int, at: nat)

  datatype Pump = Pump(chunks: seq<Bytes>, reading: bool)

  datatype Outcome = Outcome(code: Option<int>, stdout: Bytes, stderr: Bytes, timedOut: bool)

  /** Each timer holds the moment it is due, while it is armed. */
  datatype Control = Control(timedOut: bool, timer: Option<nat>, kill: Option<nat>, drain: Option<nat>)

  datatype State = State(now: nat, child: Child, out: Pump, err: Pump, control: Control, outcome: Option<Outcome>)

  function Spawned(timeout: nat): State {
    State(0, Running, Pump([], true), Pump([], true), Control(false, Some(timeout), None, None), None)
  }

  datatype Event =
    | Pass
    | OutChunk(chunk: Bytes) | ErrChunk(chunk: Bytes)
    | OutEnds | ErrEnds
    | Exits(code: int)
    | TimerFires | KillFires | DrainFires
    | Settles

  predicate IsDue(timer: Option<nat>, now: nat) { timer.Some? && timer.value <= now }

  predicate CanSettle(s: State) { s.child.Exited? && !s.out.reading && !s.err.reading }

  predicate Enabled(s: State, e: Event) {
    s.outcome.None?
    && match e
       case Pass =>
         !IsDue(s.control.timer, s.now) && !IsDue(s.control.kill, s.now) && !IsDue(s.control.drain, s.now)
         && !CanSettle(s)
       case OutChunk(_) => s.out.reading
       case ErrChunk(_) => s.err.reading
       case OutEnds => s.out.reading
       case ErrEnds => s.err.reading
       case Exits(_) => s.child.Running?
       case TimerFires => IsDue(s.control.timer, s.now)
       case KillFires => IsDue(s.control.kill, s.now)
       case DrainFires => IsDue(s.control.drain, s.now)
       case Settles => CanSettle(s)
  }

  function TimedOut(c: Control, now: nat): Control {
    c.(timedOut := true, timer := None, kill := Some(now + KILL_GRACE_MS))
  }

  function SawExit(c: Control, now: nat): Control { c.(drain := Some(now + DRAIN_MS)) }

  const KILLED: int := 137

  function Step(s: State, e: Event): State {
    match e
    case Pass => s.(now := s.now + 1)
    case OutChunk(chunk) => s.(out := s.out.(chunks := s.out.chunks + [chunk]))
    case ErrChunk(chunk) => s.(err := s.err.(chunks := s.err.chunks + [chunk]))
    case OutEnds => s.(out := s.out.(reading := false))
    case ErrEnds => s.(err := s.err.(reading := false))
    case Exits(code) => s.(child := Exited(code, s.now), control := SawExit(s.control, s.now))
    case TimerFires => s.(control := TimedOut(s.control, s.now))
    case KillFires =>
      if s.child.Running? then
        s.(child := Exited(KILLED, s.now), control := SawExit(s.control.(kill := None), s.now))
      else s.(control := s.control.(kill := None))
    case DrainFires =>
      s.(out := s.out.(reading := false), err := s.err.(reading := false), control := s.control.(drain := None))
    case Settles =>
      s.(outcome := Some(OutcomeOf(s)), control := s.control.(timer := None, kill := None, drain := None))
  }

  function OutcomeOf(s: State): Outcome {
    Outcome(if s.control.timedOut || s.child.Running? then None else Some(s.child.code),
            Concat(s.out.chunks), Concat(s.err.chunks), s.control.timedOut)
  }

  /** The variables of one call and the callbacks that set them. */
  class Call {
    var timedOut: bool
    var timer: Option<nat>
    var kill: Option<nat>
    var drain: Option<nat>

    function View(): Control
      reads this
    {
      Control(timedOut, timer, kill, drain)
    }

    constructor (timeout: Option<nat>)
      ensures View() == Spawned(if timeout.Some? then timeout.value else DEFAULT_TIMEOUT_MS).control
    {
      timedOut := false;
      timer := Some(if timeout.Some? then timeout.value else DEFAULT_TIMEOUT_MS);
      kill, drain := None, None;
    }

    method OnTimer(now: nat)
      modifies this
      ensures View() == TimedOut(old(View()), now)
    {
      timedOut, timer := true, None;
      kill := Some(now + KILL_GRACE_MS);
    }

    method OnExit(now: nat)
      modifies this
      ensures View() == SawExit(old(View()), now)
    {
      drain := Some(now + DRAIN_MS);
    }

    /** Both pumps have ended after the exit of the child. */
    method Settle(ghost s: State, code: int, out: seq<Bytes>, err: seq<Bytes>) returns (outcome: Outcome)
      requires CanSettle(s) && s.control == View() && s.child.code == code
      requires s.out.chunks == out && s.err.chunks == err
      modifies this
      ensures Some(outcome) == Step(s, Settles).outcome && View() == Step(s, Settles).control
    {
      drain := None;
      var stdout := Assemble(out);
      var stderr := Assemble(err);
      outcome := Outcome(if timedOut then None else Some(code), stdout[..], stderr[..], timedOut);
      timer, kill := None, None;
    }
  }

  // --------------------------------------------------------------------- runs

  type Run = seq<Event>

  function After(timeout: nat, run: Run): State {
    if run == [] then Spawned(timeout) else Step(After(timeout, run[..|run| - 1]), run[|run| - 1])
  }

  predicate Legal(timeout: nat, run: Run) {
    run == []
    || (Legal(timeout, run[..|run| - 1]) && Enabled(After(timeout, run[..|run| - 1]), run[|run| - 1]))
  }

  function Bound(timeout: nat): nat { timeout + KILL_GRACE_MS + DRAIN_MS }

  /** Where the clock may stand, given what has happened. */
  predicate InTime(s: State, timeout: nat) {
    && s.now <= Bound(timeout)
    && (s.control.timedOut ==> timeout <= s.now)
    && (s.outcome.Some? ==> s.outcome.value == OutcomeOf(s) && s.child.Exited?)
    && (!s.control.timedOut ==> s.now <= timeout)
    && (s.outcome.None? ==>
          && s.control.timer == (if s.control.timedOut then None else Some(timeout))
          && (s.child.Running? ==> s.control.drain.None?)
          && (s.child.Running? && s.control.timedOut ==> s.control.kill.Some?)
          && (s.control.kill.Some? ==> s.now <= s.control.kill.value <= timeout + KILL_GRACE_MS)
          && (s.control.drain.Some? ==> s.child.Exited? && s.now <= s.control.drain.value == s.child.at + DRAIN_MS)
          && (s.child.Exited? && s.control.drain.None? ==> CanSettle(s)))
    && (s.child.Exited? ==> s.child.at <= timeout + KILL_GRACE_MS && s.now <= s.child.at + DRAIN_MS)
  }

  lemma StepStaysInTime(s: State, timeout: nat, e: Event)
    requires InTime(s, timeout) && Enabled(s, e)
    ensures InTime(Step(s, e), timeout)
  {
    hide Concat;
  }

  lemma {:induction false} RunStaysInTime(timeout: nat, run: Run)
    requires Legal(timeout, run)
    ensures InTime(After(timeout, run), timeout)
  {
    hide InTime, Enabled, Step;
    if run != [] {
      RunStaysInTime(timeout, run[..|run| - 1]);
      StepStaysInTime(After(timeout, run[..|run| - 1]), timeout, run[|run| - 1]);
    } else {
      StartsInTime(timeout);
    }
  }

  lemma StartsInTime(timeout: nat)
    ensures InTime(Spawned(timeout), timeout)
  {
  }

  // ----------------------------------------------------------------- settling

  function One(b: bool): nat { if b then 1 else 0 }

  /** What is left to happen: the clock's time up to the bound, and everything that happens once. */
  function Left(s: State, timeout: nat): nat
    requires s.now <= Bound(timeout)
  {
    (Bound(timeout) - s.now) + 3 * One(s.control.timer.Some?) + 2 * One(s.control.kill.Some?)
    + One(s.control.drain.Some?) + 2 * One(s.child.Running?) + One(s.out.reading) + One(s.err.reading)
    + One(s.outcome.None?)
  }

  predicate IsChunk(e: Event) { e.OutChunk? || e.ErrChunk? }

  function CountOthers(run: Run): nat {
    if run == [] then 0 else CountOthers(run[..|run| - 1]) + One(!IsChunk(run[|run| - 1]))
  }

  lemma StepUsesUp(s: State, timeout: nat, e: Event)
    requires InTime(s, timeout) && Enabled(s, e)
    ensures Step(s, e).now <= Bound(timeout)
    ensures Left(Step(s, e), timeout) + One(!IsChunk(e)) <= Left(s, timeout)
  {
    hide Concat;
    StepStaysInTime(s, timeout, e);
  }

  lemma {:induction false} RunUsesUp(timeout: nat, run: Run)
    requires Legal(timeout, run)
    ensures InTime(After(timeout, run), timeout)
    ensures Left(After(timeout, run), timeout) + CountOthers(run) <= Bound(timeout) + 8
  {
    hide InTime, Enabled, Step, IsChunk;
    RunStaysInTime(timeout, run);
    if run != [] {
      var before, last := run[..|run| - 1], run[|run| - 1];
      RunUsesUp(timeout, before);
      assert After(timeout, before).now <= Bound(timeout) by { InTimeIsBounded(After(timeout, before), timeout); }
      assert After(timeout, run).now <= Bound(timeout) by { InTimeIsBounded(After(timeout, run), timeout); }
      StepUsesUp(After(timeout, before), timeout, last);
    }
  }

  lemma InTimeIsBounded(s: State, timeout: nat)
    requires InTime(s, timeout)
    ensures s.now <= Bound(timeout)
  {
  }

  /** On every schedule the clock stops at the bound, all but a bounded number of steps read a chunk,
      and a call that has not settled can always move: so a call whose pipes do not deliver for ever
      settles, and settles in time. */
  lemma SettlesInTime(timeout: nat, run: Run)
    requires Legal(timeout, run)
    ensures After(timeout, run).now <= timeout + 4_000
    ensures CountOthers(run) <= Bound(timeout) + 8
    ensures After(timeout, run).outcome.None? <==> exists e :: !IsChunk(e) && Enabled(After(timeout, run), e)
  {
    hide Concat;
    RunUsesUp(timeout, run);
    var s := After(timeout, run);
    if s.outcome.None? {
      if Enabled(s, Pass) {
        assert !IsChunk(Pass);
      } else if CanSettle(s) {
        assert !IsChunk(Settles) && Enabled(s, Settles);
      } else if IsDue(s.control.timer, s.now) {
        assert !IsChunk(TimerFires) && Enabled(s, TimerFires);
      } else if IsDue(s.control.kill, s.now) {
        assert !IsChunk(KillFires) && Enabled(s, KillFires);
      } else {
        assert !IsChunk(DrainFires) && Enabled(s, DrainFires);
      }
    }
  }

  // ------------------------------------------------------------------ outcome

  function OutChunks(run: Run): seq<Bytes> {
    if run == [] then []
    else OutChunks(run[..|run| - 1]) + (if run[|run| - 1].OutChunk? then [run[|run| - 1].chunk] else [])
  }

  function ErrChunks(run: Run): seq<Bytes> {
    if run == [] then []
    else ErrChunks(run[..|run| - 1]) + (if run[|run| - 1].ErrChunk? then [run[|run| - 1].chunk] else [])
  }

  lemma {:induction false} RunRemembers(timeout: nat, run: Run)
    requires Legal(timeout, run)
    ensures var s := After(timeout, run);
            && s.out.chunks == OutChunks(run) && s.err.chunks == ErrChunks(run)
            && (s.control.timedOut <==> TimerFires in run)
  {
    hide Step, Enabled;
    if run != [] {
      var before, last := run[..|run| - 1], run[|run| - 1];
      RunRemembers(timeout, before);
      StepRemembers(After(timeout, before), last);
      assert run == before + [last];
    }
  }

  lemma StepRemembers(s: State, e: Event)
    requires Enabled(s, e)
    ensures Step(s, e).out.chunks == s.out.chunks + if e.OutChunk? then [e.chunk] else []
    ensures Step(s, e).err.chunks == s.err.chunks + if e.ErrChunk? then [e.chunk] else []
    ensures Step(s, e).control.timedOut <==> s.control.timedOut || e.TimerFires?
  {
    hide Concat;
  }

  /** A settled call says `timedOut` exactly when the timer fired before it settled, has a code
      exactly when it did not, and holds every chunk that was read, in order. */
  lemma OutcomeIsTrue(timeout: nat, run: Run)
    requires Legal(timeout, run) && After(timeout, run).outcome.Some?
    ensures var s := After(timeout, run); var outcome := s.outcome.value;
            && (outcome.timedOut <==> TimerFires in run)
            && (outcome.code.None? <==> outcome.timedOut)
            && (outcome.code.Some? ==> outcome.code.value == s.child.code)
            && outcome.stdout == Concat(OutChunks(run)) && outcome.stderr == Concat(ErrChunks(run))
            && (s.now < timeout ==> !outcome.timedOut) && (timeout < s.now ==> outcome.timedOut)
  {
    hide After, Legal, Concat, OutChunks, ErrChunks;
    RunRemembers(timeout, run);
    RunStaysInTime(timeout, run);
  }

  /** A child that exits early enough for the whole drain to end before the deadline is reported with
      its own code, whoever still holds the pipes. */
  lemma EarlyExitIsReported(timeout: nat, run: Run)
    requires Legal(timeout, run) && After(timeout, run).outcome.Some?
    requires After(timeout, run).child.at + DRAIN_MS < timeout
    ensures After(timeout, run).outcome.value.code == Some(After(timeout, run).child.code)
  {
    hide After, Legal, Concat;
    RunStaysInTime(timeout, run);
  }

  // ------------------------------------------------------------ the worst runs

  function Passes(n: nat): Run { seq(n, _ => Pass) }

  /** Nothing is due for `n` milliseconds. */
  predicate Quiet(s: State, n: nat) {
    && s.outcome.None? && !CanSettle(s)
    && (s.control.timer.Some? ==> s.now + n <= s.control.timer.value)
    && (s.control.kill.Some? ==> s.now + n <= s.control.kill.value)
    && (s.control.drain.Some? ==> s.now + n <= s.control.drain.value)
  }

  lemma Then(timeout: nat, run: Run, e: Event)
    requires Legal(timeout, run) && Enabled(After(timeout, run), e)
    ensures Legal(timeout, run + [e]) && After(timeout, run + [e]) == Step(After(timeout, run), e)
  {
    assert (run + [e])[..|run|] == run;
  }

  lemma {:induction false} WaitFor(timeout: nat, run: Run, n: nat)
    requires Legal(timeout, run) && Quiet(After(timeout, run), n)
    ensures Legal(timeout, run + Passes(n))
    ensures var s := After(timeout, run); After(timeout, run + Passes(n)) == s.(now := s.now + n)
    decreases n
  {
    hide After, Legal;
    if n == 0 {
      assert run + Passes(n) == run;
    } else {
      WaitFor(timeout, run, n - 1);
      Then(timeout, run + Passes(n - 1), Pass);
      assert run + Passes(n) == run + Passes(n - 1) + [Pass];
    }
  }

  /** A child that ignores SIGTERM and leaves its pipes to others takes exactly the bound. */
  lemma BoundIsReached(timeout: nat) returns (run: Run)
    ensures Legal(timeout, run) && After(timeout, run).now == Bound(timeout)
    ensures After(timeout, run).outcome == Some(Outcome(None, [], [], true))
  {
    hide After, Legal;
    run := Begin(timeout);
    WaitFor(timeout, run, timeout);
    run := run + Passes(timeout);
    Then(timeout, run, TimerFires);
    run := run + [TimerFires];
    WaitFor(timeout, run, KILL_GRACE_MS);
    run := run + Passes(KILL_GRACE_MS);
    Then(timeout, run, KillFires);
    run := run + [KillFires];
    WaitFor(timeout, run, DRAIN_MS);
    run := run + Passes(DRAIN_MS);
    Then(timeout, run, DrainFires);
    run := run + [DrainFires];
    Then(timeout, run, Settles);
    run := run + [Settles];
  }

  lemma Begin(timeout: nat) returns (run: Run)
    ensures run == [] && Legal(timeout, run) && After(timeout, run) == Spawned(timeout)
  {
    run := [];
  }

  /** From here on the pipes are held until the drain gives up. */
  lemma Drained(timeout: nat, before: Run, n: nat) returns (run: Run)
    requires Legal(timeout, before)
    requires var s := After(timeout, before);
             && s.outcome.None? && s.child.Exited? && s.out.reading && s.err.reading
             && s.control.timer.None? && s.control.drain == Some(s.now + n)
             && (s.control.kill.Some? ==> s.now + n <= s.control.kill.value)
    ensures Legal(timeout, run) && After(timeout, run).child == After(timeout, before).child
    ensures After(timeout, run).outcome == Some(OutcomeOf(After(timeout, before)))
  {
    hide After, Legal, Concat;
    WaitFor(timeout, before, n);
    run := before + Passes(n);
    Then(timeout, run, DrainFires);
    run := run + [DrainFires];
    Then(timeout, run, Settles);
    run := run + [Settles];
  }

  /** The timer stays armed while the pipes drain: whatever moment a child exits at and whatever code it
      has, it can be reported as timed out, with no code, once the deadline falls within its drain. */
  lemma TimedOutAfterExit(timeout: nat, at: nat, code: int) returns (run: Run)
    requires at <= timeout <= at + DRAIN_MS
    ensures Legal(timeout, run) && After(timeout, run).child == Exited(code, at)
    ensures After(timeout, run).outcome == Some(Outcome(None, [], [], true))
  {
    hide After, Legal;
    run := Begin(timeout);
    WaitFor(timeout, run, at);
    run := run + Passes(at);
    Then(timeout, run, Exits(code));
    run := run + [Exits(code)];
    WaitFor(timeout, run, timeout - at);
    run := run + Passes(timeout - at);
    Then(timeout, run, TimerFires);
    run := run + [TimerFires];
    run := Drained(timeout, run, at + DRAIN_MS - timeout);
  }

  /** A child that outlives the deadline and exits within the grace of the kill is reported so too. */
  lemma TimedOutBeforeExit(timeout: nat, at: nat, code: int) returns (run: Run)
    requires timeout <= at <= timeout + KILL_GRACE_MS
    ensures Legal(timeout, run) && After(timeout, run).child == Exited(code, at)
    ensures After(timeout, run).outcome == Some(Outcome(None, [], [], true))
  {
    hide After, Legal;
    run := Begin(timeout);
    WaitFor(timeout, run, timeout);
    run := run + Passes(timeout);
    Then(timeout, run, TimerFires);
    run := run + [TimerFires];
    WaitFor(timeout, run, at - timeout);
    run := run + Passes(at - timeout);
    Then(timeout, run, Exits(code));
    run := run + [Exits(code)];
    run := EarlyEnd(timeout, run);
  }

  /** Both pipes end at once. */
  lemma EarlyEnd(timeout: nat, before: Run) returns (run: Run)
    requires Legal(timeout, before)
    requires var s := After(timeout, before); s.outcome.None? && s.child.Exited? && s.out.reading && s.err.reading
    ensures Legal(timeout, run) && After(timeout, run).child == After(timeout, before).child
    ensures After(timeout, run).outcome == Some(OutcomeOf(After(timeout, before)))
  {
    hide After, Legal, Concat;
    run := before;
    Then(timeout, run, OutEnds);
    run := run + [OutEnds];
    Then(timeout, run, ErrEnds);
    run := run + [ErrEnds];
    Then(timeout, run, Settles);
    run := run + [Settles];
  }

  ghost predicate EndsWith(timeout: nat, run: Run, child: Child) {
    Legal(timeout, run) && After(timeout, run).outcome.Some? && After(timeout, run).child == child
  }

  /** A child exits by the end of the grace on every schedule. Whenever it exits, every schedule reports
      its own code if and only if its whole drain ends before the deadline. */
  lemma CodeIsReportedIff(timeout: nat, at: nat, code: int)
    ensures at <= timeout + 2_000 <==> exists run :: EndsWith(timeout, run, Exited(code, at))
    ensures at <= timeout + 2_000 ==>
              ((forall run :: EndsWith(timeout, run, Exited(code, at)) ==>
                               After(timeout, run).outcome.value.code == Some(code))
               <==> at + 2_000 < timeout)
  {
    hide After, Legal, Concat;
    if at <= timeout + KILL_GRACE_MS {
      var run := SomeEnd(timeout, at, code);
      assert EndsWith(timeout, run, Exited(code, at));
      if timeout <= at + DRAIN_MS {
        assert After(timeout, run).outcome.value.code.None?;
      }
    }
    forall run | EndsWith(timeout, run, Exited(code, at))
      ensures at <= timeout + KILL_GRACE_MS
      ensures at + DRAIN_MS < timeout ==> After(timeout, run).outcome.value.code == Some(code)
    {
      RunStaysInTime(timeout, run);
      if at + DRAIN_MS < timeout {
        EarlyExitIsReported(timeout, run);
      }
    }
  }

  /** A schedule on which the child exits just then, timed out if the deadline allows it. */
  lemma SomeEnd(timeout: nat, at: nat, code: int) returns (run: Run)
    requires at <= timeout + KILL_GRACE_MS
    ensures EndsWith(timeout, run, Exited(code, at))
    ensures timeout <= at + DRAIN_MS ==> After(timeout, run).outcome.value.code.None?
  {
    hide After, Legal, Concat;
    if timeout <= at {
      run := TimedOutBeforeExit(timeout, at, code);
    } else if timeout <= at + DRAIN_MS {
      run := TimedOutAfterExit(timeout, at, code);
    } else {
      run := Begin(timeout);
      WaitFor(timeout, run, at);
      run := run + Passes(at);
      Then(timeout, run, Exits(code));
      run := run + [Exits(code)];
      run := EarlyEnd(timeout, run);
    }
  }
}
