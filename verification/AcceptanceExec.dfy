/** `execBounded` (`src/harvest/acceptance.ts`): one child, two pipes and one timer. The timer kills the
    child and nothing else, and the call waits for the exit and for both pipes without a bound. */
module AcceptanceExec {
  import opened Optional

  /** What one execution returns, with the time it took. */
  datatype Exec = Exec(exit: Option<int>, timedOut: bool, duration: nat)

  datatype Child = Running | Exited(code: int)

  datatype State = State(
    now: nat, child: Child, outOpen: bool, errOpen: bool, timedOut: bool, timer: Option<nat>, settled: bool)

  /** `setTimeout(…, Math.max(1, timeoutMs))` */
  function Limit(timeout: nat): (limit: nat)
    ensures limit >= 1 && limit >= timeout
  {
    if timeout < 1 then 1 else timeout
  }

  function Spawned(timeout: nat): State { State(0, Running, true, true, false, Some(Limit(timeout)), false) }

  /** A killed child exits when it exits, and whoever else holds a pipe ends it when they end it. */
  datatype Event = Pass | Exits(code: int) | OutEnds | ErrEnds | TimerFires | Settles

  predicate IsDue(s: State) { s.timer.Some? && s.timer.value <= s.now }

  predicate CanSettle(s: State) { s.child.Exited? && !s.outOpen && !s.errOpen }

  predicate Enabled(s: State, e: Event) {
    !s.settled
    && match e
       case Pass => !IsDue(s) && !CanSettle(s)
       case Exits(_) => s.child.Running?
       case OutEnds => s.outOpen
       case ErrEnds => s.errOpen
       case TimerFires => IsDue(s)
       case Settles => CanSettle(s)
  }

  function Step(s: State, e: Event): State {
    match e
    case Pass => s.(now := s.now + 1)
    case Exits(code) => s.(child := Exited(code))
    case OutEnds => s.(outOpen := false)
    case ErrEnds => s.(errOpen := false)
    case TimerFires => s.(timedOut := true, timer := None)
    case Settles => s.(settled := true, timer := None)
  }

  type Run = seq<Event>

  function After(timeout: nat, run: Run): State {
    if run == [] then Spawned(timeout) else Step(After(timeout, run[..|run| - 1]), run[|run| - 1])
  }

  predicate Legal(timeout: nat, run: Run) {
    run == []
    || (Legal(timeout, run[..|run| - 1]) && Enabled(After(timeout, run[..|run| - 1]), run[|run| - 1]))
  }

  /** The spawn throws, or the child runs on some schedule. */
  datatype Execution = SpawnThrows(duration: nat) | Runs(run: Run)

  function ExecOf(s: State): Exec {
    Exec(if s.timedOut || s.child.Running? then None else Some(s.child.code), s.timedOut, s.now)
  }

  function ReturnOf(timeout: nat, x: Execution): Exec {
    match x
    case SpawnThrows(duration) => Exec(None, false, duration)
    case Runs(run) => ExecOf(After(timeout, run))
  }

  /** The call returns at all. */
  predicate Returns(timeout: nat, x: Execution) {
    x.Runs? ==> Legal(timeout, x.run) && After(timeout, x.run).settled
  }

  /** The variables of one call and the callbacks that set them. */
  class Call {
    var timedOut: bool
    var timer: Option<nat>

    constructor (timeout: nat)
      ensures timedOut == Spawned(timeout).timedOut && timer == Spawned(timeout).timer
    {
      timedOut, timer := false, Some(Limit(timeout));
    }

    method OnTimer(ghost s: State)
      requires s.timedOut == timedOut && s.timer == timer
      modifies this
      ensures timedOut == Step(s, TimerFires).timedOut && timer == Step(s, TimerFires).timer
    {
      timedOut, timer := true, None;
    }

    /** The exit and both texts have been awaited. */
    method Settle(ghost s: State, exit: int, elapsed: nat) returns (result: Exec)
      requires CanSettle(s) && s.timedOut == timedOut && s.child.code == exit && s.now == elapsed
      modifies this
      ensures result == ExecOf(Step(s, Settles)) && timer == Step(s, Settles).timer
      ensures timedOut == old(timedOut)
    {
      timer := None;
      result := Exec(if timedOut then None else Some(exit), timedOut, elapsed);
    }
  }

  // -------------------------------------------------------- what a run decides

  /** Where the clock can stand. */
  predicate InPhase(s: State, timeout: nat) {
    && (if s.timedOut then Limit(timeout) <= s.now else s.now <= Limit(timeout))
    && (!s.settled ==> s.timer == if s.timedOut then None else Some(Limit(timeout)))
    && (s.settled ==> CanSettle(s))
  }

  lemma {:induction false} RunStaysInPhase(timeout: nat, run: Run)
    requires Legal(timeout, run)
    ensures InPhase(After(timeout, run), timeout)
  {
    if run != [] {
      RunStaysInPhase(timeout, run[..|run| - 1]);
    }
  }

  lemma {:induction false} RunRemembers(timeout: nat, run: Run)
    requires Legal(timeout, run)
    ensures var s := After(timeout, run);
            && (s.timedOut <==> TimerFires in run)
            && (forall code :: s.child == Exited(code) <==> Exits(code) in run)
            && (s.outOpen <==> OutEnds !in run) && (s.errOpen <==> ErrEnds !in run)
  {
    if run != [] {
      var before, last := run[..|run| - 1], run[|run| - 1];
      RunRemembers(timeout, before);
      assert run == before + [last];
    }
  }

  /** How much time passes in a run. */
  function Elapsed(run: Run): nat {
    if run == [] then 0 else Elapsed(run[..|run| - 1]) + if run[|run| - 1].Pass? then 1 else 0
  }

  lemma {:induction false} RunLasts(timeout: nat, run: Run)
    ensures After(timeout, run).now == Elapsed(run)
  {
    if run != [] {
      RunLasts(timeout, run[..|run| - 1]);
    }
  }

  // ------------------------------------------------------------------ schedules

  lemma Then(timeout: nat, run: Run, e: Event)
    requires Legal(timeout, run) && Enabled(After(timeout, run), e)
    ensures Legal(timeout, run + [e]) && After(timeout, run + [e]) == Step(After(timeout, run), e)
  {
    assert (run + [e])[..|run|] == run;
  }

  function Passes(n: nat): Run { seq(n, _ => Pass) }

  lemma {:induction false} WaitFor(timeout: nat, run: Run, n: nat)
    requires var s := After(timeout, run);
             Legal(timeout, run) && !s.settled && !CanSettle(s) && (s.timer.Some? ==> s.now + n <= s.timer.value)
    ensures var s := After(timeout, run);
            Legal(timeout, run + Passes(n)) && After(timeout, run + Passes(n)) == s.(now := s.now + n)
    decreases n
  {
    hide After, Legal;
    if n == 0 {
      assert run + Passes(n) == run;
    } else {
      WaitFor(timeout, run, n - 1);
      Then(timeout, run + Passes(n - 1), Pass);
      assert run + Passes(n) == run + Passes(n - 1) + [Pass];
    }
  }

  lemma Begin(timeout: nat)
    ensures Legal(timeout, []) && After(timeout, []) == Spawned(timeout)
  {
  }

  /** Everything ends at this moment. */
  lemma Ended(timeout: nat, before: Run, code: int) returns (run: Run)
    requires Legal(timeout, before)
    requires var s := After(timeout, before); !s.settled && s.child.Running? && s.outOpen && s.errOpen
    ensures Returns(timeout, Runs(run))
    ensures var s := After(timeout, before); ReturnOf(timeout, Runs(run)) == ExecOf(s.(child := Exited(code)))
  {
    hide After, Legal;
    run := before;
    Then(timeout, run, Exits(code));
    run := run + [Exits(code)];
    Then(timeout, run, OutEnds);
    run := run + [OutEnds];
    Then(timeout, run, ErrEnds);
    run := run + [ErrEnds];
    Then(timeout, run, Settles);
    run := run + [Settles];
  }

  /** The child is killed in time and another process holds its output for as long as it likes. */
  lemma HeldOpen(timeout: nat, code: int, duration: nat) returns (run: Run)
    requires Limit(timeout) <= duration
    ensures Returns(timeout, Runs(run)) && ReturnOf(timeout, Runs(run)) == Exec(None, true, duration)
    ensures Passes(Limit(timeout)) + [TimerFires, Exits(code)] <= run
  {
    hide After, Legal;
    Begin(timeout);
    var limit := Limit(timeout);
    WaitFor(timeout, [], limit);
    run := [] + Passes(limit);
    Then(timeout, run, TimerFires);
    run := run + [TimerFires];
    Then(timeout, run, Exits(code));
    run := run + [Exits(code)];
    assert run == Passes(limit) + [TimerFires, Exits(code)];
    WaitFor(timeout, run, duration - limit);
    run := run + Passes(duration - limit);
    Then(timeout, run, OutEnds);
    run := run + [OutEnds];
    Then(timeout, run, ErrEnds);
    run := run + [ErrEnds];
    Then(timeout, run, Settles);
    run := run + [Settles];
  }

  lemma EndsInTime(timeout: nat, code: int, duration: nat) returns (run: Run)
    requires duration <= Limit(timeout)
    ensures Returns(timeout, Runs(run)) && ReturnOf(timeout, Runs(run)) == Exec(Some(code), false, duration)
  {
    hide After, Legal;
    Begin(timeout);
    WaitFor(timeout, [], duration);
    run := Ended(timeout, [] + Passes(duration), code);
  }

  // -------------------------------------------------------------- main results

  ghost predicate CanReturn(timeout: nat, e: Exec) {
    exists x :: Returns(timeout, x) && ReturnOf(timeout, x) == e
  }

  /** Exactly what an execution can return: nothing started, in any time; an exit code, no later than the
      limit; or a timeout, no earlier than the limit and with no bound at all. */
  lemma CanReturnIff(timeout: nat, e: Exec)
    ensures CanReturn(timeout, e)
            <==> if e.exit.Some? then !e.timedOut && e.duration <= Limit(timeout)
                 else e.timedOut ==> Limit(timeout) <= e.duration
  {
    hide After, Legal;
    forall x | Returns(timeout, x) && ReturnOf(timeout, x) == e
      ensures if e.exit.Some? then !e.timedOut && e.duration <= Limit(timeout)
              else e.timedOut ==> Limit(timeout) <= e.duration
    {
      if x.Runs? { RunStaysInPhase(timeout, x.run); }
    }
    if e.exit.Some? && !e.timedOut && e.duration <= Limit(timeout) {
      var run := EndsInTime(timeout, e.exit.value, e.duration);
      assert Returns(timeout, Runs(run));
    } else if e.exit.None? && e.timedOut && Limit(timeout) <= e.duration {
      var run := HeldOpen(timeout, 137, e.duration);
      assert Returns(timeout, Runs(run));
    } else if e.exit.None? && !e.timedOut {
      assert Returns(timeout, SpawnThrows(e.duration));
    }
  }

  /** What the schedule says of the result: no code exactly when the timer fired before everything had
      ended, and the child's own code otherwise, whatever ended last. */
  lemma ResultIsTrue(timeout: nat, run: Run)
    requires Returns(timeout, Runs(run))
    ensures var e := ReturnOf(timeout, Runs(run));
            && (e.timedOut <==> TimerFires in run)
            && (forall code :: e.exit == Some(code) <==> TimerFires !in run && Exits(code) in run)
            && OutEnds in run && ErrEnds in run && e.duration == Elapsed(run)
            && (e.duration < Limit(timeout) ==> !e.timedOut) && (Limit(timeout) < e.duration ==> e.timedOut)
  {
    hide After, Legal;
    RunStaysInPhase(timeout, run);
    RunRemembers(timeout, run);
    RunLasts(timeout, run);
  }
}
