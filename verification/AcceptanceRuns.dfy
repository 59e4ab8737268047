/** Running the acceptance commands under one shared budget (`src/harvest/acceptance.ts`). */
module AcceptanceRuns {
  import opened Optional
  import opened Tokenizer
  import opened AcceptanceExec

  const GIT_TIMEOUT_MS: nat := 120_000

  datatype Command = Command(cmd: string, source: string, resolvedFrom: string)

  datatype Outcome = Passed | Failed | TimedOut | NotRun

  datatype Graded = Graded(command: Command, outcome: Outcome, exitCode: Option<int>, duration: nat)

  /** What the machine does: how each execution goes, given the timeout it gets, the time between them,
      and whether the clone can be opened to the container's user and is seen by the container. */
  datatype Host = Host(
    clone: nat -> Execution, checkout: nat -> Execution, widens: bool, visible: bool, probing: nat,
    gap: nat -> nat, command: (nat, seq<string>, nat) -> Execution)

  function Min(a: nat, b: nat): nat { if a < b then a else b }

  /** `remainingMs` is never negative. */
  function Minus(a: nat, b: nat): nat { if a < b then 0 else a - b }

  // ------------------------------------------------------------- preparation

  function Cloned(host: Host, budget: nat): Exec {
    var timeout := Min(GIT_TIMEOUT_MS, budget); ReturnOf(timeout, host.clone(timeout))
  }

  function CheckedOut(host: Host, left: nat): Exec {
    var timeout := Min(GIT_TIMEOUT_MS, left); ReturnOf(timeout, host.checkout(timeout))
  }

  predicate Succeeded(e: Exec) { !e.timedOut && e.exit == Some(0) }

  /** What is left for the commands, when the fresh clone is ready for them. */
  function Prepared(host: Host, budget: nat, inContainer: bool): Option<nat> {
    if budget == 0 then None
    else
      var clone := Cloned(host, budget);
      if !Succeeded(clone) then None
      else
        var left := Minus(budget, clone.duration);
        var checkout := CheckedOut(host, left);
        if !Succeeded(checkout) then None
        else if inContainer && !(host.widens && host.visible) then None
        else Some(Minus(left, checkout.duration + if inContainer then host.probing else 0))
  }

  method Prepare(host: Host, budget: nat, inContainer: bool) returns (left: Option<nat>)
    ensures left == Prepared(host, budget, inContainer)
  {
    if budget <= 0 { return None; }
    var clone := Cloned(host, budget);
    if clone.timedOut || clone.exit != Some(0) { return None; }
    var remaining := Minus(budget, clone.duration);
    var checkout := CheckedOut(host, remaining);
    if checkout.timedOut || checkout.exit != Some(0) { return None; }
    remaining := Minus(remaining, checkout.duration);
    if inContainer {
      if !host.widens { return None; }
      if !host.visible { return None; }
      remaining := Minus(remaining, host.probing);
    }
    return Some(remaining);
  }

  // -------------------------------------------------------------- one command

  function NotRunFor(rc: Command): Graded { Graded(rc, NotRun, None, 0) }

  function OutcomeOf(e: Exec): Outcome {
    if e.timedOut then TimedOut else if e.exit == Some(0) then Passed else Failed
  }

  function RunOne(host: Host, rc: Command, index: nat, perCommand: nat, remaining: nat): Graded {
    var timeout := Min(perCommand, remaining);
    if timeout <= 0 then NotRunFor(rc)
    else
      match Tokenized(rc.cmd)
      case Tokens(argv) =>
        var e := ReturnOf(timeout, host.command(index, argv, timeout));
        Graded(rc, OutcomeOf(e), if e.timedOut then None else e.exit, e.duration)
      case _ => NotRunFor(rc)
  }

  /** What is left when command `i` is looked at, from what the preparation left. */
  function Left(host: Host, commands: seq<Command>, perCommand: nat, start: nat, i: nat): nat
    requires i < |commands|
  {
    if i == 0 then Minus(start, host.gap(0))
    else
      var before := Left(host, commands, perCommand, start, i - 1);
      Minus(before, RunOne(host, commands[i - 1], i - 1, perCommand, before).duration + host.gap(i))
  }

  function RunAt(host: Host, commands: seq<Command>, perCommand: nat, start: nat, i: nat): Graded
    requires i < |commands|
  {
    RunOne(host, commands[i], i, perCommand, Left(host, commands, perCommand, start, i))
  }

  method AllNotRun(commands: seq<Command>) returns (runs: seq<Graded>)
    ensures |runs| == |commands| && forall i :: 0 <= i < |runs| ==> runs[i] == NotRunFor(commands[i])
  {
    runs := seq(|commands|, i requires 0 <= i < |commands| => NotRunFor(commands[i]));
  }

  /** The records of a whole run of the exam. */
  function RunsOf(host: Host, commands: seq<Command>, perCommand: nat, budget: nat, inContainer: bool): seq<Graded> {
    var start := Prepared(host, budget, inContainer);
    seq(|commands|, i requires 0 <= i < |commands| =>
      if start.None? then NotRunFor(commands[i]) else RunAt(host, commands, perCommand, start.value, i))
  }

  method RunAcceptance(host: Host, commands: seq<Command>, perCommand: nat, budget: nat, inContainer: bool)
    returns (runs: seq<Graded>)
    ensures runs == RunsOf(host, commands, perCommand, budget, inContainer)
  {
    hide Prepared, RunAt;
    var start := Prepare(host, budget, inContainer);
    if start.None? {
      runs := AllNotRun(commands);
      return;
    }
    runs := RunAll(host, commands, perCommand, start.value);
  }

  method RunAll(host: Host, commands: seq<Command>, perCommand: nat, start: nat) returns (runs: seq<Graded>)
    ensures |runs| == |commands|
    ensures forall i :: 0 <= i < |runs| ==> runs[i] == RunAt(host, commands, perCommand, start, i)
  {
    hide RunOne;
    runs := [];
    var remaining := start;
    for i := 0 to |commands|
      invariant |runs| == i
      invariant forall j :: 0 <= j < i ==> runs[j] == RunAt(host, commands, perCommand, start, j)
      invariant i == 0 ==> remaining == start
      invariant i > 0 ==> remaining == Minus(Left(host, commands, perCommand, start, i - 1), runs[i - 1].duration)
    {
      remaining := Minus(remaining, host.gap(i));
      var run := RunOne(host, commands[i], i, perCommand, remaining);
      runs := runs + [run];
      remaining := Minus(remaining, run.duration);
    }
  }

  // ------------------------------------------------------------ what is graded

  /** Every execution comes back, which a harvest that ends implies. */
  ghost predicate AllReturn(host: Host) {
    && (forall i: nat, argv: seq<string>, timeout: nat :: Returns(timeout, host.command(i, argv, timeout)))
    && (forall timeout: nat :: Returns(timeout, host.clone(timeout)) && Returns(timeout, host.checkout(timeout)))
  }

  /** A command is not run exactly for want of budget or a readable text; otherwise its grade is what its
      schedule says: timed out exactly when the timer fired before the child and both pipes had ended,
      passed exactly when they ended first with exit code 0, and failed else, a spawn that throws too. */
  lemma OutcomesAreTrue(host: Host, commands: seq<Command>, perCommand: nat, start: nat, i: nat)
    requires AllReturn(host) && i < |commands| && perCommand > 0
    ensures var run, left := RunAt(host, commands, perCommand, start, i), Left(host, commands, perCommand, start, i);
            var read := Tokenized(commands[i].cmd);
            && run.command == commands[i]
            && (run.outcome == NotRun <==> left == 0 || !read.Tokens?)
            && (run.outcome == NotRun ==> run.duration == 0 && run.exitCode.None?)
            && (run.outcome != NotRun ==>
                  match host.command(i, read.argv, if perCommand < left then perCommand else left)
                  case SpawnThrows(took) => run.outcome == Failed && run.exitCode.None? && run.duration == took
                  case Runs(events) =>
                    && run.duration == Elapsed(events)
                    && (run.outcome == TimedOut <==> TimerFires in events)
                    && (run.outcome == Passed <==> TimerFires !in events && Exits(0) in events)
                    && (forall code :: run.exitCode == Some(code) <==> TimerFires !in events && Exits(code) in events))
  {
    hide Tokenized, Left, ReturnOf, Returns;
    var left, read := Left(host, commands, perCommand, start, i), Tokenized(commands[i].cmd);
    if left > 0 && read.Tokens? {
      var timeout := Min(perCommand, left);
      var x := host.command(i, read.argv, timeout);
      assert Returns(timeout, x);
      ThrownResult(timeout, x);
      if x.Runs? { ResultIsTrue(timeout, x.run); }
    }
  }

  lemma ThrownResult(timeout: nat, x: Execution)
    ensures x.SpawnThrows? ==> ReturnOf(timeout, x) == Exec(None, false, x.duration)
  {
  }

  // ---------------------------------------------------------- the preparation

  /** An execution that ended before its timer fired, with exit code 0. */
  predicate EndedWell(x: Execution) { x.Runs? && TimerFires !in x.run && Exits(0) in x.run }

  function TimeOf(x: Execution): nat { if x.Runs? then Elapsed(x.run) else x.duration }

  lemma GoodEnd(timeout: nat, x: Execution)
    requires Returns(timeout, x)
    ensures Succeeded(ReturnOf(timeout, x)) <==> EndedWell(x)
    ensures ReturnOf(timeout, x).duration == TimeOf(x)
  {
    hide After, Legal;
    if x.Runs? { ResultIsTrue(timeout, x.run); }
  }

  /** The two git executions, each under what is left of the budget by then and two minutes at most. */
  function CloneOf(host: Host, budget: nat): Execution { host.clone(if budget < 120_000 then budget else 120_000) }

  function CheckoutOf(host: Host, budget: nat): Execution {
    var took := TimeOf(CloneOf(host, budget));
    var left: nat := if took < budget then budget - took else 0;
    host.checkout(if left < 120_000 then left else 120_000)
  }

  /** There is a budget, clone and checkout ended well, and a container can write and see the clone. */
  predicate Ready(host: Host, budget: nat, inContainer: bool) {
    && budget > 0 && EndedWell(CloneOf(host, budget)) && EndedWell(CheckoutOf(host, budget))
    && (inContainer ==> host.widens && host.visible)
  }

  /** The time that preparing takes. */
  function PreparingTakes(host: Host, budget: nat, inContainer: bool): nat {
    TimeOf(CloneOf(host, budget)) + TimeOf(CheckoutOf(host, budget)) + if inContainer then host.probing else 0
  }

  lemma PreparedIff(host: Host, budget: nat, inContainer: bool)
    requires AllReturn(host)
    ensures Prepared(host, budget, inContainer).Some? <==> Ready(host, budget, inContainer)
    ensures Ready(host, budget, inContainer) ==>
              Prepared(host, budget, inContainer).value == Minus(budget, PreparingTakes(host, budget, inContainer))
  {
    hide ReturnOf, Returns, EndedWell, TimeOf, Succeeded;
    var timeout := Min(GIT_TIMEOUT_MS, budget);
    assert Returns(timeout, host.clone(timeout));
    GoodEnd(timeout, host.clone(timeout));
    var left := Minus(budget, TimeOf(host.clone(timeout)));
    var second := Min(GIT_TIMEOUT_MS, left);
    assert Returns(second, host.checkout(second));
    GoodEnd(second, host.checkout(second));
  }

  /** Nothing is graded on a clone that was not made, or does not hold the commit: every command is not run
      unless clone and checkout both ended well and, in a container, the clone can be written and seen. */
  lemma GradedOnlyIfReady(host: Host, commands: seq<Command>, perCommand: nat, budget: nat, inContainer: bool, i: nat)
    requires AllReturn(host) && i < |commands|
    requires RunsOf(host, commands, perCommand, budget, inContainer)[i].outcome != NotRun
    ensures Ready(host, budget, inContainer)
  {
    hide Prepared, Ready, RunAt;
    PreparedIff(host, budget, inContainer);
  }

  /** And when it is ready, the first command runs if it can be read and time is left for it. */
  lemma ReadyRunsTheFirst(host: Host, commands: seq<Command>, perCommand: nat, budget: nat, inContainer: bool)
    requires AllReturn(host) && Ready(host, budget, inContainer) && perCommand > 0
    requires commands != [] && Tokenized(commands[0].cmd).Tokens?
    requires PreparingTakes(host, budget, inContainer) + host.gap(0) < budget
    ensures RunsOf(host, commands, perCommand, budget, inContainer)[0].outcome != NotRun
  {
    hide Prepared, Ready, PreparingTakes, Tokenized, ReturnOf;
    PreparedIff(host, budget, inContainer);
  }

  /** Preparing and running share the one budget: as long as something is left, preparation, commands and
      the time between them add up to what is gone of it. */
  lemma PreparingIsPaidFor(host: Host, commands: seq<Command>, perCommand: nat, budget: nat, inContainer: bool,
                           start: nat, i: nat)
    requires AllReturn(host) && Prepared(host, budget, inContainer) == Some(start) && i < |commands|
    requires Left(host, commands, perCommand, start, i) > 0
    ensures PreparingTakes(host, budget, inContainer) + Total(host, commands, perCommand, start, i) + Gaps(host, i + 1)
            + Left(host, commands, perCommand, start, i) == budget
  {
    hide Prepared, Ready, PreparingTakes, Left, Total;
    PreparedIff(host, budget, inContainer);
    NothingIsLost(host, commands, perCommand, start, i);
    SomethingWasLeft(host, commands, perCommand, start, i);
  }

  lemma {:induction false} SomethingWasLeft(host: Host, commands: seq<Command>, perCommand: nat, start: nat, i: nat)
    requires i < |commands| && Left(host, commands, perCommand, start, i) > 0
    ensures start > 0
  {
    if i > 0 {
      SomethingWasLeft(host, commands, perCommand, start, i - 1);
    }
  }

  // --------------------------------------------------------------- the budget

  /** Once the budget is gone it stays gone: no later command runs. */
  lemma {:induction false} SpentStaysSpent(host: Host, commands: seq<Command>, perCommand: nat, start: nat,
                                           i: nat, j: nat)
    requires i <= j < |commands| && Left(host, commands, perCommand, start, i) == 0
    ensures Left(host, commands, perCommand, start, j) == 0
    ensures RunAt(host, commands, perCommand, start, j) == NotRunFor(commands[j])
    decreases j
  {
    hide Tokenized, ReturnOf;
    if i < j {
      SpentStaysSpent(host, commands, perCommand, start, i, j - 1);
    }
  }

  /** The time of the first `n` commands. */
  function Total(host: Host, commands: seq<Command>, perCommand: nat, start: nat, n: nat): nat
    requires n <= |commands|
  {
    if n == 0 then 0
    else Total(host, commands, perCommand, start, n - 1) + RunAt(host, commands, perCommand, start, n - 1).duration
  }

  /** The time in front of the first `n` commands. */
  function Gaps(host: Host, n: nat): nat { if n == 0 then 0 else Gaps(host, n - 1) + host.gap(n - 1) }

  /** As long as something is left, all of the budget is accounted for, however the machine behaves. */
  lemma {:induction false} NothingIsLost(host: Host, commands: seq<Command>, perCommand: nat, start: nat, i: nat)
    requires i < |commands| && Left(host, commands, perCommand, start, i) > 0
    ensures Total(host, commands, perCommand, start, i) + Gaps(host, i + 1) + Left(host, commands, perCommand, start, i)
            == start
  {
    hide RunOne;
    if i > 0 {
      NothingIsLost(host, commands, perCommand, start, i - 1);
    }
  }

  /** A command behind which something is left stayed within what was left for it: only the last command
      that was looked at with budget in hand can overrun. */
  lemma OnlyTheLastOverruns(host: Host, commands: seq<Command>, perCommand: nat, start: nat, i: nat, k: nat)
    requires i < k < |commands| && Left(host, commands, perCommand, start, k) > 0
    ensures RunAt(host, commands, perCommand, start, i).duration < Left(host, commands, perCommand, start, i)
    decreases k
  {
    hide RunOne;
    if i + 1 < k {
      if Left(host, commands, perCommand, start, i + 1) == 0 {
        SpentStaysSpent(host, commands, perCommand, start, i + 1, k);
      }
    }
  }

  /** The last command that was looked at with budget in hand. */
  predicate IsLast(host: Host, commands: seq<Command>, perCommand: nat, start: nat, k: nat) {
    && k < |commands| && Left(host, commands, perCommand, start, k) > 0
    && (k + 1 < |commands| ==> Left(host, commands, perCommand, start, k + 1) == 0)
  }

  lemma {:induction false} NothingAfterLast(host: Host, commands: seq<Command>, perCommand: nat, start: nat,
                                            k: nat, n: nat)
    requires IsLast(host, commands, perCommand, start, k) && k < n <= |commands|
    ensures Total(host, commands, perCommand, start, n) == Total(host, commands, perCommand, start, k + 1)
    decreases n
  {
    hide RunOne;
    if n > k + 1 {
      NothingAfterLast(host, commands, perCommand, start, k, n - 1);
      SpentStaysSpent(host, commands, perCommand, start, k + 1, n - 1);
    }
  }

  /** The commands together keep to the budget exactly when that last one keeps to what is left for it:
      counting the time up to its end, and counting the commands' own time. */
  lemma BudgetIsKeptIff(host: Host, commands: seq<Command>, perCommand: nat, start: nat, k: nat)
    requires IsLast(host, commands, perCommand, start, k)
    ensures var total, own := Total(host, commands, perCommand, start, |commands|),
                              RunAt(host, commands, perCommand, start, k).duration;
            var left := Left(host, commands, perCommand, start, k);
            && (total + Gaps(host, k + 1) <= start <==> own <= left)
            && (total <= start <==> own <= left + Gaps(host, k + 1))
  {
    hide RunOne, Left;
    NothingIsLost(host, commands, perCommand, start, k);
    NothingAfterLast(host, commands, perCommand, start, k, |commands|);
  }

  lemma {:induction false} FindLast(host: Host, commands: seq<Command>, perCommand: nat, start: nat, n: nat)
    returns (k: nat)
    requires 0 < n <= |commands| && Left(host, commands, perCommand, start, 0) > 0
    requires n < |commands| ==> Left(host, commands, perCommand, start, n) == 0
    ensures k < n && IsLast(host, commands, perCommand, start, k)
    decreases n
  {
    hide Left;
    if Left(host, commands, perCommand, start, n - 1) > 0 {
      k := n - 1;
    } else {
      k := FindLast(host, commands, perCommand, start, n - 1);
    }
  }

  lemma {:induction false} NothingRuns(host: Host, commands: seq<Command>, perCommand: nat, start: nat, n: nat)
    requires n <= |commands| && (commands != [] ==> Left(host, commands, perCommand, start, 0) == 0)
    ensures Total(host, commands, perCommand, start, n) == 0
  {
    hide RunOne;
    if n > 0 {
      NothingRuns(host, commands, perCommand, start, n - 1);
      SpentStaysSpent(host, commands, perCommand, start, 0, n - 1);
    }
  }

  /** Either no command takes any time, or one of them is the last. */
  lemma SomeoneIsLast(host: Host, commands: seq<Command>, perCommand: nat, start: nat)
    ensures Total(host, commands, perCommand, start, |commands|) == 0
            || exists k :: IsLast(host, commands, perCommand, start, k)
  {
    if commands == [] || Left(host, commands, perCommand, start, 0) == 0 {
      NothingRuns(host, commands, perCommand, start, |commands|);
    } else {
      var k := FindLast(host, commands, perCommand, start, |commands|);
    }
  }

  /** Only a command that timed out, or never started, can take more than was left for it. */
  lemma OverrunIsGraded(host: Host, commands: seq<Command>, perCommand: nat, start: nat, i: nat)
    requires AllReturn(host) && i < |commands|
    requires RunAt(host, commands, perCommand, start, i).duration > Left(host, commands, perCommand, start, i)
    ensures var run := RunAt(host, commands, perCommand, start, i);
            run.outcome == TimedOut || (run.outcome == Failed && run.exitCode.None?)
  {
    hide Tokenized, Left, ReturnOf, Returns;
    var left, read := Left(host, commands, perCommand, start, i), Tokenized(commands[i].cmd);
    if Min(perCommand, left) > 0 && read.Tokens? {
      var timeout := Min(perCommand, left);
      var x := host.command(i, read.argv, timeout);
      assert Returns(timeout, x) && CanReturn(timeout, ReturnOf(timeout, x));
      CanReturnIff(timeout, ReturnOf(timeout, x));
    }
  }

  /** And it can, by any amount: a command killed at its limit whose output another process still holds. */
  lemma BudgetCanBeOverrun(perCommand: nat, start: nat, extra: nat) returns (host: Host, commands: seq<Command>)
    requires 0 < start <= perCommand
    ensures |commands| == 1 && Total(host, commands, perCommand, start, 1) == start + extra
    ensures AllReturn(host) && RunAt(host, commands, perCommand, start, 0).outcome == TimedOut
  {
    var held := HeldOpen(start, 137, start + extra);
    var text := CommandText(Quote(["x"]));
    EveryArgvCanBeQuoted(["x"]);
    commands := [Command(text, "tree", "")];
    host := HoldingHost(start, held);
    hide Tokenized, ReturnOf, Returns, CommandText, AllReturn;
    HoldingReturns(start, held);
    assert Left(host, commands, perCommand, start, 0) == start;
    assert Total(host, commands, perCommand, start, 0) == 0;
  }

  /** A machine on which nothing starts but, under this timeout, the run that is held open. */
  function HoldingHost(start: nat, held: Run): Host {
    Host(_ => SpawnThrows(0), _ => SpawnThrows(0), true, true, 0, _ => 0,
         (i, argv, timeout) => if timeout == start then Runs(held) else SpawnThrows(0))
  }

  lemma HoldingReturns(start: nat, held: Run)
    requires Returns(start, Runs(held))
    ensures AllReturn(HoldingHost(start, held))
  {
    hide After, Legal;
  }
}
