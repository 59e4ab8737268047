# pifleet: verified model of its protocols, printers and readers

pifleet runs containerised agents and believes only what the host derives. What decides whether that
works is a handful of small protocols (a report delivered through a shared directory, a file rewritten
under a polling reader, a child process with a deadline, a pane handed to a person) and of printers
paired with readers that must agree (a replay key, a launch argv, a model string, an image tag). This
project models those parts in Dafny and proves what each is for, over every input, every interleaving
and every run.

| Dafny file | part of the system |
|---|---|
| `Json.dfy`, `CanonicalJson.dfy` | JSON texts as UTF-16 code units, the printer `JSON.stringify`, a reader that undoes it; the stable-key encoder of the replay key |
| `StagedDrop.dfy`, `DispatchTrigger.dfy` | the task drop the host rewrites in place, and the extension that polls it |
| `Paths.dfy`, `TaskPolicy.dfy` | lexical paths and containment; `/policy/task`, written by the host and read by the worker |
| `ReportDelivery.dfy`, `DeliveryPlaces.dfy`, `DeliveryProperties.dfy`, `DeliveryMoments.dfy` | `submit_report` as steps on a file system, any of which may fail or be the last before a crash |
| `EpochTracker.dfy`, `EpochRuns.dfy` | the one-slot tracker, the nag and the `no_submit` records, over whole sessions |
| `DocumentTree.dfy`, `CredentialShapes.dfy`, `TicketRecord.dfy`, `TicketOps.dfy` | the ticket-ops artifact: what it holds as a document, measurements, claims, verdicts and the search for secrets |
| `BoundedExec.dfy` | `realExec`: a child, two pipes and three timers |
| `Tokenizer.dfy`, `AcceptanceExec.dfy`, `AcceptanceRuns.dfy` | the shell-free tokenizer, one execution on any schedule, and the acceptance commands under one budget |
| `LaunchArgv.dfy`, `ArgvReaders.dfy`, `LaunchAgreement.dfy`, `LaunchRoundTrip.dfy`, `LaunchMarks.dfy`, `LaunchStrays.dfy`, `LaunchMounts.dfy`, `LaunchContents.dfy`, `LaunchOptions.dfy`, `LaunchPlaces.dfy` | the argv compiler, the three readers of what it wrote, what operator strings do to each, what the argv tells Docker and Pi, and what it mounts and leaves writable |
| `FleetConfig.dfy`, `ModelString.dfy`, `ConfigResolution.dfy`, `ConfigPrecedence.dfy` | model strings, the allowlist gate, the config validator against the resolver, and which level decides |
| `Attended.dfy` | the attended record and the pane, step by step |
| `ImageGate.dfy` | image tags, the requirements collapsed onto them, the launch gate |
| `Optional.dfy`, `StringOps.dfy` | shared vocabulary |

Code that changes things step by step is a class or a method with loops, proved against a function of
its inputs or old state; the theorems are about those functions. Where an outside party acts (the host
rewriting a file, a child exiting, a crash) it is a step that may happen at any point of a run, or a
parameter: a read that fails, a number of calls that succeed, what a timer or a container answers.

Where the source's comments and its code differ, the model follows the code. A spawn that fails has no
exit code and is graded `failed` (`src/harvest/acceptance.ts:910`), although the comment at line 951 of
that file says `not_run`. A temporary file is named by what stands behind its text, not by a leading dot as
the comment at `docker/pi-extensions/report-tools.ts:1083` says. The timer of `realExec` stays armed while the pipes drain
(`src/container/run.ts:175-184`), so `timedOut` says that the timer fired before the call settled, not
that the child overran; `BoundedExec.CodeIsReportedIff` says exactly for which exits the two are the same
on every schedule.

Nine properties one might expect hold only under a condition, which is stated with a case outside it:
a report file survives the call that delivers it exactly when no later file of the call goes through a
temporary file of its name (`DeliveryProperties.ReportIsDeliveredIff`, `ReportCanBeClobbered`); the
one-slot tracker agrees with a full table exactly when nothing about the pair was noted before another
pair (`EpochTracker.SlotIsTableEntryIff`, `EpochRuns.ReturningEpochIsForgotten`); a delivered epoch is left
alone exactly when some delivery of it has no other pair noted behind it (`EpochRuns.RecordedIff`,
`DeliveredEpochIsAccused`); an accepted config
gives every worker an endpoint exactly when its provider is not named like a method every object
inherits (`ConfigResolution.EndpointsAreDeclared`, `InheritedNameHasNoEndpoint`); and adding another
provider's entry to an allowlist changes nothing unless the list was empty, when it closes the gate
(`ModelString.ForeignEntryAdmitsNothing`); the acceptance commands keep to their one budget exactly when
the last that ran keeps to what was left for it, and a command killed at its limit whose output another
process holds does not (`AcceptanceRuns.BudgetIsKeptIff`, `BudgetCanBeOverrun`); the pane mode of a launch
is recovered exactly when no operator string hides it (`LaunchMarks.PaneModeIsRecoveredIff`,
`DashedModelHidesMode`), and its mounts exactly when none adds one (`LaunchMounts.MountsAreRecoveredIff`,
`DashedModelAddsMount`); and a poll starts a turn on part of a drop exactly when a stalled write is read
twice behind its separator (`DispatchTrigger.FiresTornIff`, `TornDropFires`).

## Model

| member | source | states |
|---|---|---|
| Json.ReadNumberUndoes | src/contracts.ts:1662 | every layout `Number::toString` picks for a finite double is read back as that double before any delimiter |
| Json.ReadBodyUndoes | src/contracts.ts:1662 | a quoted string body, surrogates and escapes included, is read back unit by unit |
| Json.ReadValueUndoes | src/contracts.ts:1661-1670 | the reader takes exactly the printed value off the front of a text and leaves exactly the tail |
| Json.ReadValuePrintable | src/contracts.ts:1661-1670 | whatever the reader accepts is a value the printer can print |
| Json.ParseUndoes | src/contracts.ts:1661-1670 | parsing a printed value gives it back |
| CanonicalJson.SortKeeps | src/contracts.ts:1665-1666 | sorting an object's entries loses, adds and changes none |
| CanonicalJson.SortAscends | src/contracts.ts:1665-1666 | sorted entries ascend strictly by code unit when the keys are distinct |
| CanonicalJson.CanonicalIsStringify | src/contracts.ts:1661-1670 | the canonical text is the ordinary text of the value with its keys sorted |
| CanonicalJson.CanonicalJsonReads | src/contracts.ts:1661-1670 | reading a canonical text before any delimiter gives the canonical value: the encoding is uniquely decodable |
| CanonicalJson.CanonDecidesSameness | src/contracts.ts:1661-1670 | two values have one canonical form exactly when they are deeply equal up to the order of properties |
| CanonicalJson.SameTextIffSameValue | src/contracts.ts:1661-1670 | the replay key is injective up to key order: same text if and only if same value |
| StagedDrop.StringifyIsOneLine | src/run/dispatch-policy.ts:265-282 | no printed value holds a newline, so the header is the drop's first line |
| StagedDrop.HeaderProperties | docker/pi-extensions/dispatch-trigger.ts:173-175 | the header the host renders is read as its own task and epoch, and the idle one as none |
| StagedDrop.EveryPrefixReadsOwnHeader | docker/pi-extensions/dispatch-trigger.ts:159-176 | torn reads are harmless: each prefix of a drop shows the drop's own header, from the end of the separator on, or none; an idle drop shows none |
| StagedDrop.FireKeyIsInjective | docker/pi-extensions/dispatch-trigger.ts:207 | `task@epoch` is the same text only for the same task and epoch, whatever characters the task id holds |
| DispatchTrigger.Trigger.Tick | docker/pi-extensions/dispatch-trigger.ts:183-229 | one tick: reset on a failed read, two identical reads, the header, the key, then the mark before the turn |
| DispatchTrigger.Trigger.SessionStart | docker/pi-extensions/dispatch-trigger.ts:237-244 | arms a timer only when none is armed |
| DispatchTrigger.Trigger.SessionShutdown | docker/pi-extensions/dispatch-trigger.ts:245-249 | clears the armed timer and keeps what was fired |
| DispatchTrigger.PollReadsOwnKey | docker/pi-extensions/dispatch-trigger.ts:159-176 | whatever a poll reads shows the key of the drop being written or none, and the whole of a staged drop shows it |
| DispatchTrigger.RunKeepsInvariant | docker/pi-extensions/dispatch-trigger.ts:178-249 | what every run of host writes, polls and sessions keeps: timers, fires and their targets in order |
| DispatchTrigger.AtMostOneTimer | docker/pi-extensions/dispatch-trigger.ts:237-249 | at most one interval is live after any run |
| DispatchTrigger.EveryFireIsStaged | docker/pi-extensions/dispatch-trigger.ts:183-229 | no turn starts for a key the host never staged, and no two turns running have one key |
| DispatchTrigger.FiresAtMostOnce | docker/pi-extensions/dispatch-trigger.ts:207-218 | when keys never return once superseded, each allocation starts one turn at most, across shutdown and restart |
| DispatchTrigger.FiresOnRepeatedRead | docker/pi-extensions/dispatch-trigger.ts:202-204 | a turn starts only at a poll whose read repeats the read of the poll before it |
| DispatchTrigger.FiresOnCompleteDrops | docker/pi-extensions/dispatch-trigger.ts:183-229 | if no partial write is read twice running, every turn starts on a completely written drop |
| DispatchTrigger.FiresTornIff | docker/pi-extensions/dispatch-trigger.ts:183-229 | a poll starts a turn on part of a drop exactly when it repeats the read before it, header and separator have landed and the whole has not, and the key was not fired last |
| DispatchTrigger.TornDropFires | docker/pi-extensions/dispatch-trigger.ts:183-229 | any drop with a prompt, stalled behind its separator for two polls, fires so |
| DispatchTrigger.FiresByTheSecondPoll | docker/pi-extensions/dispatch-trigger.ts:183-229 | a staged drop two consecutive polls read whole has started its turn by the second |
| DispatchTrigger.WholeDropFires | docker/pi-extensions/dispatch-trigger.ts:183-244 | such runs exist: any valid drop written whole and polled twice starts exactly its own turn |
| Paths.SplitUndoesJoin | docker/pi-extensions/report-tools.ts:951 | splitting a joined path gives back its segments |
| Paths.SegmentsBelow | docker/pi-extensions/report-tools.ts:989-994 | resolving below a base walks on from where the base ends |
| Paths.SegmentsAreNormal | docker/pi-extensions/report-tools.ts:889 | resolved paths hold no empty, `.` or `..` segment |
| Paths.WithinIsPrefix | docker/pi-extensions/report-tools.ts:947-952 | the containment check holds if and only if the root's segments are a prefix of the child's |
| TaskPolicy.ParseTaskPolicy | docker/pi-extensions/report-tools.ts:757-767 | a live task read has a bare name, is not `<none>`, and an epoch a double counts exactly |
| TaskPolicy.BareNameIsOneSegment | docker/pi-extensions/report-tools.ts:777-785 | a bare name spent as a path segment goes exactly one level down |
| TaskPolicy.TaskPolicyRoundTrip | src/run/task-policy.ts:74-79 | the worker reads the task and epoch the host wrote for exactly the bare names of at most 200 UTF-16 units and the whole epochs a double counts |
| TaskPolicy.IdleHasNoTask | src/run/task-policy.ts:74-79 | an idle policy is read as no live task |
| ReportDelivery.CheckFilenames | docker/pi-extensions/report-tools.ts:1163-1184 | accepts exactly the lists of bare, unmarked and distinct file names |
| ReportDelivery.CheckArtifacts | docker/pi-extensions/report-tools.ts:1186-1195 | accepts exactly the claims inside the task directory or the workdir that exist or are about to be written |
| ReportDelivery.ReportTools.WriteFile | docker/pi-extensions/report-tools.ts:1089-1099 | a write goes through a fresh temporary name and a rename; a failure at either leaves only the cleaned-up state |
| ReportDelivery.ReportTools.WriteReports | docker/pi-extensions/report-tools.ts:1198-1217 | writes the report files in order, for any number of calls that succeed |
| ReportDelivery.ReportTools.SubmitReport | docker/pi-extensions/report-tools.ts:1151-1236 | a refusal leaves file system and counter as they were; otherwise the call is its list of operations, cut at the first failure; the counter rises by the writes begun, and the outcome is what was delivered |
| DeliveryPlaces.CallIsPlaced | docker/pi-extensions/report-tools.ts:1163-1225 | with checked file names the texts a call joins, temporary ones among them, name a segment directly below the task directory or its `files` |
| DeliveryPlaces.WritesStayUnderTaskDir | docker/pi-extensions/report-tools.ts:984-995 | every operation of a call with checked file names stays under the one directory of the policy's task |
| DeliveryPlaces.UncheckedNameReachesEnvelope | docker/pi-extensions/report-tools.ts:1163-1166 | without the check a report file is renamed onto the envelope |
| DeliveryPlaces.TempNameIsInjective | docker/pi-extensions/report-tools.ts:1089-1091 | a temporary name tells the text, the process and the write it was made for |
| DeliveryPlaces.CallReusesNoTemp | docker/pi-extensions/report-tools.ts:1083-1091 | no two writes of one call go through one temporary file |
| DeliveryPlaces.CallsShareNoTemp | docker/pi-extensions/report-tools.ts:1083-1091 | nor do two calls of one process, however early the first was cut short, or of two processes |
| DeliveryProperties.EnvelopeIsAllOrNothing | docker/pi-extensions/report-tools.ts:1197-1225 | after a crash or failure at any operation `result.json` is what it was; after the last it is the complete envelope |
| DeliveryProperties.DeliveredEnvelopeSays | docker/pi-extensions/report-tools.ts:1052-1074 | after a delivery `result.json` holds the call's own status, summary, notes, blockers, acceptance and commands under the policy's task and epoch, an argument left out stays left out, and the claims are those given and one for each report file |
| DeliveryProperties.OutcomeTellsEnvelope | docker/pi-extensions/report-tools.ts:1227-1236 | what the call returns is what the envelope on disk says, and its paths are the envelope's and the report files' places |
| DeliveryProperties.AcceptedCallIsPlain | docker/pi-extensions/report-tools.ts:1151-1195 | an accepted call stays within the caps and its names and paths hold no separator, mark or control character where they may not |
| DeliveryProperties.ClaimIsAcceptedIff | docker/pi-extensions/report-tools.ts:881-951 | which artifact claims are accepted, by where their segments lead |
| DeliveryProperties.ReportIsDeliveredIff | docker/pi-extensions/report-tools.ts:1200-1217 | once the envelope has landed a claimed report file has its full content exactly when no later file went through a temporary file of its name |
| DeliveryProperties.ReportCanBeClobbered | docker/pi-extensions/report-tools.ts:1089-1099 | a call whose envelope claims a file that is gone |
| DeliveryMoments.PlacedCutShort | docker/pi-extensions/report-tools.ts:1089-1099 | what each place but the envelope's holds after a crash or failure at any operation: torn, whole, gone or as the files in place leave it |
| DeliveryMoments.CutShortReplaces | docker/pi-extensions/report-tools.ts:1197-1217 | at each moment a place that is no temporary name holds the new content if it is a report file already in place, and else its old content |
| DeliveryMoments.EarlierEnvelopeStaysTrue | docker/pi-extensions/report-tools.ts:1197-1225 | while a later call of the task is cut short anywhere, the earlier envelope and every file it claims stay, but for temporary names |
| DeliveryMoments.EarlierFileSurvivesIff | docker/pi-extensions/report-tools.ts:1089-1099 | an earlier file survives a failing call exactly when no report file begun by then goes through a temporary file of its name |
| DeliveryProperties.ExistsAfterDelivery | docker/pi-extensions/report-tools.ts:932-944 | what existed or was to be written exists when the call returns, but for temporary names |
| DeliveryProperties.ClaimResolves | docker/pi-extensions/report-tools.ts:1208 | the relative claim the tool composes names the file it wrote |
| DeliveryProperties.DeliveredEnvelopeIsTrue | docker/pi-extensions/report-tools.ts:1151-1236 | the envelope carries the policy's task and epoch, and each artifact it claims exists inside the task directory or workdir |
| EpochTracker.Tracker.SlotFor | docker/pi-extensions/report-tools.ts:1412-1415 | the slot is replaced exactly when it is about another pair |
| EpochTracker.Tracker.Record | docker/pi-extensions/report-tools.ts:1416-1419 | noting a call, a delivery or a nag changes that one thing in the pair's slot |
| EpochTracker.TableCounts | docker/pi-extensions/report-tools.ts:1410-1425 | the unbounded table holds for each pair its tool calls counted and whether it was delivered and nagged |
| EpochTracker.SlotHoldsKept | docker/pi-extensions/report-tools.ts:1410-1425 | the slot holds the notes since another pair was last noted, and nothing older |
| EpochTracker.SlotIsTableEntryIff | docker/pi-extensions/report-tools.ts:2180-2183 | slot and table agree on a pair exactly when no tool call and no flag not set again was lost to another pair |
| EpochTracker.SlotRefinesTable | docker/pi-extensions/report-tools.ts:2180-2183 | for a pair that no other pair superseded, the slot is the table's entry, exact counts included |
| EpochTracker.Extension.OnToolCall | docker/pi-extensions/report-tools.ts:2356-2372 | counts a call for the live pair, if there is one |
| EpochTracker.Extension.OnDelivered | docker/pi-extensions/report-tools.ts:2193-2212 | marks the outcome's own pair delivered, whatever the policy says by then |
| EpochTracker.SubmitTakesEffectAtItsRead | docker/pi-extensions/report-tools.ts:1109-1120 | a policy rewritten between a submit's read and its note is the same as one rewritten after it |
| EpochTracker.Extension.OnAgentEnd | docker/pi-extensions/report-tools.ts:2422-2482 | silence without a task or after delivery; else the nag when due, noted only if sent, and then the record |
| EpochRuns.TallyIsTrue | docker/pi-extensions/report-tools.ts:2180-2183 | on contiguous runs the tally the handlers see is what the events add up to |
| EpochRuns.NaggedExactlyWhenDue | docker/pi-extensions/report-tools.ts:1556-1561 | a turn's end nags exactly when sending works, a tool call was made, nothing was delivered, no envelope is on disk and no nag went before |
| EpochRuns.RecordIsTrue | docker/pi-extensions/report-tools.ts:2471-2478 | a record is left exactly when appending works and nothing was delivered, with the tool calls so far and whether the epoch was nagged |
| EpochRuns.NaggedAtMostOnce | docker/pi-extensions/report-tools.ts:1556-1561 | no epoch is nagged twice in a contiguous run |
| EpochRuns.SilentAfterDelivery | docker/pi-extensions/report-tools.ts:2193-2212 | when no epoch returns, no later turn's end nags or accuses an epoch after its successful submit |
| EpochRuns.OutputsAreAboutLive | docker/pi-extensions/report-tools.ts:2422-2482 | every nag and record is about the task live at that turn's end |
| EpochRuns.ReturningEpochIsForgotten | docker/pi-extensions/report-tools.ts:1410-1425 | a run in which an epoch returns after another, is nagged again and has a record with too low a count |
| EpochRuns.RecordedIff | docker/pi-extensions/report-tools.ts:2422-2482 | on every run, epochs that return among them, a turn's end records an epoch as not submitted exactly when appending works and each of its deliveries had another pair noted behind it |
| EpochRuns.NaggedIff | docker/pi-extensions/report-tools.ts:2193-2212 | on every run, a nag is sent exactly when sending works, a tool call of the epoch still stands in the slot, no delivery and no nag does, and no envelope is on disk |
| EpochRuns.DeliveredEpochIsAccused | docker/pi-extensions/report-tools.ts:1410-1425 | a run in which an epoch that delivered and returns is recorded as never submitted |
| DocumentTree.WalkStrings | src/contracts.ts:2304-2318 | pushes exactly the strings of the tree, in order, each with its path |
| DocumentTree.WalkFindsLeaves | src/contracts.ts:2304-2318 | a string is listed under a path if and only if it is a leaf spelled by that path |
| DocumentTree.FindCredentialLeaks | src/contracts.ts:2430-2443 | the paths returned are exactly those of leaves holding a secret that is not blank, each once; none means no leaf does |
| CredentialShapes.HasAuthHeaderIff | src/contracts.ts:2300 | the matcher sees exactly the texts with a populated authorization header, in any letter case and spacing |
| CredentialShapes.WrittenHeaderIsSeen | src/contracts.ts:2300 | a written authorization header whose value was not elided is seen wherever it stands |
| CredentialShapes.WrittenQueryIsSeen | src/contracts.ts:2301 | a credential written as a query parameter is seen wherever it stands |
| StringOps.ContainsIff | src/contracts.ts:2430-2443 | a text is found exactly where it stands |
| TicketRecord.DocumentHolds | src/contracts.ts:2303-2361 | the leaves of the document are exactly the texts of the artifact's own fields, each under its own path |
| TicketOps.RefineField | src/contracts.ts:2172-2222 | no issue if and only if the claim is the one the two values support and says what differed |
| TicketOps.ClaimIsMeasurement | src/contracts.ts:2229-2234 | a claim that passes puts the same floor under the verdict as the measurement |
| TicketOps.RefineUpdate | src/contracts.ts:2243-2270 | the floor loop accepts exactly the verdicts no better than any field's match |
| TicketOps.RefineArtifact | src/contracts.ts:2331-2413 | accepts exactly the artifacts whose updates are accounted for, whose verdict is no better than any ticket's, and of whose texts none records a credential |
| TicketOps.ParseTicketOpsArtifact | src/contracts.ts:2452-2464 | returns the artifact exactly when every rule holds and no text of it holds a secret; a sound one that leaks is refused with the paths of all its leaks |
| TicketOps.VerdictIsBoundedByMeasurement | src/contracts.ts:2243-2270 | measured match, ticket verdict and artifact verdict never improve on the way up |
| TicketOps.SuccessMeansReadBack | src/contracts.ts:2384-2394 | `success` forces what was sent to have been read back on every field; an unread field forces `failed`; a field that did not come back as sent is explained |
| TicketOps.HonestVerdicts | src/contracts.ts:2243-2270 | for honest claims exactly the verdicts no better than the worst measurement are taken |
| TicketOps.ParsedHoldsNoSecret | src/contracts.ts:2452-2464 | in a parsed artifact no head text, command, note, query or write holds a secret or records a credential |
| BoundedExec.Assemble | src/container/run.ts:76-85 | the offset loop fills the buffer exactly with the chunks in order |
| BoundedExec.Call.OnTimer | src/container/run.ts:166-171 | the timer's callback sets `timedOut` and arms the kill |
| BoundedExec.Call.OnExit | src/container/run.ts:175-177 | the exit arms the drain and leaves the timer armed |
| BoundedExec.Call.Settle | src/container/run.ts:178-186 | the result from the collected chunks, with every timer cleared |
| BoundedExec.RunStaysInTime | src/container/run.ts:157-186 | what every schedule keeps: where the clock can stand in each phase |
| BoundedExec.SettlesInTime | src/container/run.ts:157-186 | on every schedule the clock stops at timeout + grace + drain, all but a bounded number of steps read a chunk, and an unsettled call can always move |
| BoundedExec.OutcomeIsTrue | src/container/run.ts:174-181 | no code exactly when timed out, timed out exactly when the timer fired, the child's code otherwise, and both outputs whole and in order |
| BoundedExec.CodeIsReportedIff | src/container/run.ts:174-181 | a child can exit at exactly the moments up to the end of the grace, and every schedule reports its own code if and only if its whole drain ends before the deadline |
| BoundedExec.EarlyExitIsReported | src/container/run.ts:175-181 | on every schedule a child that exits a full drain before the deadline is reported with its own code |
| BoundedExec.BoundIsReached | src/container/run.ts:157-186 | a schedule that takes exactly the bound |
| BoundedExec.TimedOutAfterExit | src/container/run.ts:175-184 | for any exit moment and code whose drain holds the deadline, a schedule that reports a timeout |
| BoundedExec.TimedOutBeforeExit | src/container/run.ts:166-184 | for any exit within the grace of the kill, a schedule that reports a timeout |
| Tokenizer.Tokenize | src/harvest/acceptance.ts:427-466 | the loop computes the left-to-right scan |
| Tokenizer.SpellingIsRead | src/harvest/acceptance.ts:427-466 | every spelling of words by plain and quoted pieces and gaps is read as the words it spells |
| Tokenizer.EveryArgvCanBeQuoted | src/harvest/acceptance.ts:415-425 | every non-empty argv of arbitrary strings, empty ones included, is recovered from its quoted form |
| Tokenizer.TokensConserve | src/harvest/acceptance.ts:427-466 | the tokens are the command without delimiting quotes and bare blanks; each refusal names its one cause |
| Tokenizer.SplitsAtBlank | src/harvest/acceptance.ts:448-455 | a bare blank ends a token and both sides are read as if alone |
| AcceptanceExec.Call.OnTimer | src/harvest/acceptance.ts:976-984 | the timer's callback sets `timedOut` and ends nothing else |
| AcceptanceExec.Call.Settle | src/harvest/acceptance.ts:986-1000 | the result once the exit and both pipes have ended |
| AcceptanceExec.CanReturnIff | src/harvest/acceptance.ts:955-1001 | exactly what an execution can return: no start in any time, an exit code no later than the limit, or a timeout from the limit on without bound |
| AcceptanceExec.ResultIsTrue | src/harvest/acceptance.ts:955-1001 | timed out exactly when the timer fired before child and pipes had all ended, the child's own code otherwise |
| AcceptanceExec.HeldOpen | src/harvest/acceptance.ts:986-990 | a child killed at the limit whose output is held for any time at all |
| AcceptanceRuns.Prepare | src/harvest/acceptance.ts:708-816 | clone, checkout, widening and probe in order, each under what is left; nothing is ready after the first that fails |
| AcceptanceRuns.RunAcceptance | src/harvest/acceptance.ts:661-824 | one graded run for each command, in order; all `not_run` without budget or preparation |
| AcceptanceRuns.GradedOnlyIfReady | src/harvest/acceptance.ts:708-816 | a command is graded only if clone and checkout each ended before their timer with exit code 0 and, in a container, the clone can be written and seen |
| AcceptanceRuns.ReadyRunsTheFirst | src/harvest/acceptance.ts:818-839 | then the first command runs if it can be read and budget is left behind the preparation |
| AcceptanceRuns.PreparingIsPaidFor | src/harvest/acceptance.ts:732-816 | both git executions and the probe are taken off the budget the commands share |
| AcceptanceRuns.OutcomesAreTrue | src/harvest/acceptance.ts:826-915 | each grade, code and duration from the schedule's events: not run, timed out, passed or failed exactly when; a spawn that throws is `failed` |
| AcceptanceRuns.SpentStaysSpent | src/harvest/acceptance.ts:834-839 | once the budget is gone no later command runs |
| AcceptanceRuns.NothingIsLost | src/harvest/acceptance.ts:834-839 | while anything is left, command times, gaps and rest add up to the budget, on any machine |
| AcceptanceRuns.OnlyTheLastOverruns | src/harvest/acceptance.ts:834-839 | a command behind which something is left took less than was left for it |
| AcceptanceRuns.BudgetIsKeptIff | src/harvest/acceptance.ts:834-839 | the commands together keep to the budget exactly when the last with budget in hand keeps to what is left for it |
| AcceptanceRuns.SomeoneIsLast | src/harvest/acceptance.ts:834-839 | either no command takes time or one of them is that last |
| AcceptanceRuns.OverrunIsGraded | src/harvest/acceptance.ts:897-910 | only a command that timed out or never started takes more than was left |
| AcceptanceRuns.BudgetCanBeOverrun | src/harvest/acceptance.ts:986-990 | a run that overruns its budget by any given amount |
| LaunchArgv.BuildPiArgv | src/config/render.ts:228-338 | the pushes build the Pi argv |
| LaunchArgv.BuildDockerArgv | src/config/render.ts:349-724 | the pushes build the docker argv around it; refused for a clone source without a name |
| ArgvReaders.BindMountSources | src/container/docker-argv.ts:68-101 | the index scan collects what each element mounts behind the one before it |
| ArgvReaders.ReadElement | src/container/docker-argv.ts:70-99 | the six spellings of a mount, tried in order |
| ArgvReaders.ReadMountSource | src/container/docker-argv.ts:116-124 | the first field named `source` or `src` |
| ArgvReaders.NetworkFromLaunchArgv | src/harvest/acceptance-container.ts:122-127 | the element behind the first network flag that has one |
| LaunchStrays.NetworkIsExactly | src/harvest/acceptance-container.ts:122-127 | the network read back from any worker's launch: the attached one, unless the memory or CPU limit is spelled like the flag |
| LaunchStrays.SourcesAreCounted | src/container/docker-argv.ts:68-101 | how many mounts are read from any pushes: the mounts themselves, and what each operand adds alone or by the element behind it |
| LaunchMounts.MountsAreRecoveredIff | src/container/docker-argv.ts:68-101 | the mount table is read back if and only if no operator string adds a mount; else more is read |
| LaunchMounts.NoMountIsMissed | src/container/docker-argv.ts:68-101 | no host path of a launch is missed, whatever the operator's strings are |
| LaunchMounts.DashedModelAddsMount | src/container/docker-argv.ts:68-101 | a model string that adds a mount |
| LaunchRoundTrip.EverySpellingIsRead | src/container/docker-argv.ts:68-131 | each of Docker's spellings of a bind mount shows its host path |
| LaunchMarks.FrontCarries | src/config/render.ts:371-721 | which elements in front of the Pi flags can be a mark: the flag itself and four operator strings |
| LaunchMarks.PiCarries | src/config/render.ts:228-338 | which Pi flags can be a mark: the flag itself and the worker's own strings |
| LaunchMarks.ModePast | src/container/interrupt.ts:191-192 | an operator's `--mode` hides every mark behind it, as nothing emitted after one is `rpc` |
| LaunchMarks.PaneModeIsExactly | src/container/interrupt.ts:185-199 | what is read back from any worker's launch for operator strings of any spelling, recorded in either mode |
| LaunchMarks.PaneModeIsRecoveredIff | src/container/interrupt.ts:185-199 | a recorded mode is recovered if and only if it is `tui` or no string is `-t` and none in front of the Pi flags is `--mode` |
| LaunchMarks.InterruptIsExactly | src/container/interrupt.ts:185-259 | a launched worker is interrupted by a signal to its own container in `tui` mode, over its control socket in `rpc` mode, and not at all when a string hides that mode |
| LaunchMarks.DashedModelHidesMode | src/container/interrupt.ts:185-199 | a model string that hides the pane mode |
| LaunchContents.OptionsAreRead | src/config/render.ts:228-338 | an argv read from the left, one option at a time, gives back its options whatever their values are |
| LaunchContents.PiArgvIsRead | src/config/render.ts:228-338 | read from the left, option by option, a Pi argv gives back its pushes for operator strings of any spelling |
| LaunchContents.PiIsTold | src/config/render.ts:228-338 | which values Pi reads for each option: the worker's session, mode, provider, model, level, tools, briefing and skills; and nothing is discovered |
| LaunchContents.LaunchDeterminesSettings | src/config/render.ts:228-338 | two equal Pi argvs come from the same session, pane mode, trigger, model, thinking level, tools, briefing and skills |
| LaunchOptions.RunIsRead | src/config/render.ts:371-724 | Docker reads the options that were pushed, and then the image and the untouched Pi argv |
| LaunchOptions.DockerIsTold | src/config/render.ts:371-526 | which values Docker reads: name, user, no privileges, no capabilities, limits, the provider's network, the worker's environment |
| LaunchOptions.FlagsAreTold | src/config/render.ts:371-411 | a terminal exactly for `tui`, a read-only root exactly when the fleet says so |
| LaunchPlaces.MemoryIsExactly | src/config/render.ts:414-492 | the memory file systems read back, with every option |
| LaunchPlaces.MountsAreExactly | src/config/render.ts:468-719 | the host path or volume behind each place of the container, and its mode, read back from the argv |
| LaunchPlaces.WritableHostsAreOwn | src/config/render.ts:528-719 | every host path a worker can write lies below the run's own directory |
| LaunchPlaces.RepoIsNeverWritable | src/config/render.ts:528-542 | the repository and the clone source are mounted read-only wherever they are mounted |
| LaunchPlaces.WorkersShareOnlySessions | src/config/render.ts:528-719 | two workers of one run share nothing that both can write but the sessions directory |
| LaunchPlaces.WritableIsExactly | src/config/render.ts:411-719 | what the rendered argv leaves writable: the root unless the fleet makes it read-only, four memory file systems, the outbox, the sessions, the Pi state, a worker's own worktree, and nothing else |
| ModelString.DecomposeModel | src/config/load.ts:242-270 | the reassignments compute the decomposition |
| ModelString.StepsCommute | src/config/load.ts:232-240 | splitting the prefix first equals stripping the level first, for every string |
| ModelString.StepsCommuteIff | src/config/load.ts:242-270 | with tag-style providers the orders agree exactly when the provider is not one or its model ends in no level |
| ModelString.PrintedSpecIsRead | src/config/load.ts:242-270 | `p/m:level` decomposes to its three parts for any model text |
| ModelString.PrefixedModelIsKept | src/config/load.ts:242-270 | `p/m` keeps `m` whole exactly for tag-style providers and models that end in no level |
| ModelString.UnprefixedIsInherited | src/config/load.ts:242-270 | a model without a prefix goes to the fleet's own provider |
| ModelString.OwnEntryIsAllowed | src/config/load.ts:863-958 | the gate is reflexive on a worker's own model string |
| ModelString.AllowedIff | src/config/load.ts:946-957 | admitted exactly when the list is empty or an entry that is not another provider's names the model |
| ModelString.ForeignEntryAdmitsNothing | src/config/load.ts:947-955 | another declared provider's entry never contributes an admission |
| ConfigResolution.RefineConfig | src/config/schema.ts:1719-1936 | the loops accept exactly the documents that meet every rule |
| ConfigResolution.CheckWorkers | src/config/schema.ts:1720-1742 | known roles, distinct ids and each worker's own rules, with a `seen` set |
| ConfigResolution.ReadOnlyHoldsNoWriter | src/config/load.ts:682-815 | a resolved read-only worker has a tool list of its own and no tool on it can write |
| ConfigResolution.RoleStandsAlone | src/config/schema.ts:1719-1936 | an accepted role passes as it is for a worker that adds nothing to it |
| ConfigResolution.DeclaredProviderCanBeNamed | src/config/schema.ts:1315-1330 | every declared provider can be named by a prefix |
| ConfigResolution.TuiHasPane | src/config/load.ts:682-815 | a resolved `tui` worker is persistent and no headless backend is configured |
| ConfigResolution.SkillsAreSegments | src/config/load.ts:694-698 | the contract skill is present and every skill is one segment under any base |
| ConfigResolution.EndpointsAreDeclared | src/config/load.ts:445-459 | a resolved worker has a model, its endpoint and key never throw, and they are set exactly when the provider is no inherited name |
| ConfigResolution.AcceptedResolves | src/config/load.ts:682-815 | accepted workers resolve but for an empty model or an undeclared prefix |
| ConfigResolution.InheritedNameHasNoEndpoint | src/config/load.ts:766 | an accepted document whose worker resolves to neither endpoint nor key |
| ConfigPrecedence.SettingsAreDecided | src/config/load.ts:651-663 | tools, skills, pane mode, kind and read-only are the most specific level's own, and what no level says |
| ConfigPrecedence.EmptySkillsAreKept | src/config/load.ts:694-698 | a worker's empty skill list leaves the contract skill alone |
| ConfigPrecedence.ModelIsDecided | src/config/load.ts:700-704 | provider, model and level are the decomposition of the most specific level's model string |
| ConfigPrecedence.SpelledModelIsUsed | src/config/load.ts:700-704 | a worker's `p/m:level` resolves to just that, whatever any other level says |
| ConfigPrecedence.TaggedModelIsKept | src/config/load.ts:288-292 | for a tag-style provider the whole text behind the prefix is the model |
| ConfigPrecedence.OwnWordDecides | src/config/load.ts:651-663 | what a worker says for itself no role, default or fleet value changes |
| ConfigPrecedence.EndpointIsTheBlocks | src/config/load.ts:513-528 | a declared provider's endpoint and key change exactly with its own block |
| ConfigPrecedence.FlatEndpoint | src/config/load.ts:513-517 | without a map the flat endpoint and key are every provider's |
| ConfigPrecedence.PlainListAdmitsItsNames | src/config/load.ts:309-313 | a list of plain names that is not empty admits exactly those names, with a map and without |
| ConfigPrecedence.PrefixedEntryAdmits | src/config/load.ts:946-957 | an entry prefixed with the worker's own provider, or one nobody declared, admits its model |
| ConfigPrecedence.OthersEntryAdmitsNothing | src/config/load.ts:946-957 | a list of other declared providers' entries alone admits nothing |
| Attended.Presentation.EnterTui | src/attended/mode.ts:421-439 | record first, pane second, cut after any step |
| Attended.Presentation.LeaveTui | src/attended/mode.ts:445-486 | refused without a handed pane; pane first, record second, cut after any step |
| Attended.RecordNeverUnderclaims | src/attended/mode.ts:421-486 | over every run of entering, leaving and steering, a person at the pane is on record, the record stays and its entry never changes |
| Attended.TouchedStaysTouched | src/attended/mode.ts:421-486 | a run that once handed its pane to a person has a record at its end, with the same entry |
| Attended.LeaveUndoesEnter | src/attended/mode.ts:421-486 | completed, the pane is back and one record tells of the visit |
| Attended.OtherOrderUnderclaims | src/attended/mode.ts:10-25 | in the other order each operation has a crash that leaves a person unrecorded |
| Attended.OverlapUnderclaims | src/attended/mode.ts:445-486 | an enter inside a leave ends with a person at a pane recorded as handed back |
| ImageGate.PrintedTagIsRead | src/container/image.ts:545-551 | every printed tag gives back version, toolchain and hash, whatever colons and dashes it holds |
| ImageGate.ReadTagIsPrinted | src/container/image.ts:545-551 | a tag that is read is the printed form of what was read |
| ImageGate.LabelsAnswerToOwnTag | src/container/image.ts:598-637 | an image with the labels of one build drifts under every tag but that build's |
| ImageGate.PartialLabelsDrift | src/container/image.ts:598-637 | unreadable and missing labels drift, partial ones exactly when the tag's own build does not complete them |
| ImageGate.RequiredImages | src/container/image.ts:710-722 | the map of records ends as one record for each distinct tag, first seen first |
| ImageGate.NobodyIsLost | src/container/image.ts:710-722 | every role and worker is on its tag's record, once, and nobody else is |
| ImageGate.MergedShareToolchain | src/container/image.ts:710-722 | requirements merged under printed tags share the recorded toolchain |
| ImageGate.AssertImagesReady | src/container/image.ts:800-871 | refuses at the first failing tag with its reason; the tags before it, or all, passed |
| ImageGate.GateDecidesForEveryWorker | src/container/image.ts:800-871 | the per-tag gate passes exactly when each worker's own image does, and names the image of the first that fails |

## Left out

- Json.ReadValueUndoes: the reader takes compact texts, without whitespace between tokens, and keeps every digit where `JSON.parse` rounds to a double; printed doubles are shortest decimals, on which the two agree.
- CanonicalJson.SameTextIffSameValue: values are what JSON can hold; `undefined`, functions and symbols print as `null` and are covered as `Unprintable` in the encoder only; `toJSON`, BigInt, NaN and infinities are not modelled; and the ordinary printer prints properties in the order given, without moving integer keys to the front.
- TaskPolicy.TaskPolicyRoundTrip: texts are characters, so a task id holding half a surrogate pair is not modelled.
- StagedDrop.EveryPrefixReadsOwnHeader: reads are prefixes in code units; a read that cuts a UTF-8 sequence shows replacement characters in the prompt, which the header never holds.
- DispatchTrigger.FiresOnCompleteDrops: holds under the condition that no partial write is read twice running, which the source's poll interval makes likely but does not guarantee; `DispatchTrigger.FiresTornIff` says exactly what happens without it.
- ReportDelivery.ReportTools.SubmitReport: a file system error is a call that fails, without its cause; the envelope is kept as a value, so its pretty-printed bytes and their count are not modelled; modes, symbolic links and other processes in the outbox are not either.
- DeliveryProperties.DeliveredEnvelopeIsTrue: assumes that no claim names a temporary file of the same call.
- EpochTracker.Extension.OnAgentEnd: the policy and the disk are read at one moment; the text of the nag, the worker id and the timestamp of a record are not modelled.
- TicketOps.ParseTicketOpsArtifact: starts from a typed document, so string lengths, list lengths, the worker id pattern and the datetime format, which the schema checks before, are not modelled.
- CredentialShapes.HasAuthHeaderIff: letter case is folded for ASCII letters, as the pattern's flag does without its Unicode mode.
- BoundedExec.OutcomeIsTrue: a spawn that throws never reaches the timed machine; it is reported as code 127, not timed out (`src/container/run.ts:103-133`).
- BoundedExec.SettlesInTime: a timer fires at the moment it is due, SIGKILL takes effect at once and cancelling a read ends it; decoding bytes to text is not modelled, so outputs are bytes.
- AcceptanceExec.CanReturnIff: a timer fires at the moment it is due, and times are whole milliseconds; output texts and the excerpt are not modelled.
- AcceptanceRuns.RunAcceptance: the checks of the spec that throw before anything runs, the environment, the container argv and the reaping of a timed-out container are not modelled; the time between commands is a parameter.
- LaunchMounts.MountsAreRecoveredIff: host paths are absolute and hold no colon; the refusals of `assertNoHostGcloudMount`, `assertNoRunDirMount` and `assertNoAtPaths`, which return the argv unchanged or throw, are not modelled.
- LaunchContents.OptionsAreRead: an option takes the next element as its value and the first element without a dash ends the options; Docker's and Pi's own parsers are not part of this model.
- LaunchPlaces.MountsAreExactly: host paths are absolute and hold no colon, and the image does not start with a dash; reads the spellings the renderer emits; ownership and modes inside the container are not modelled.
- LaunchArgv.BuildDockerArgv: a provider's network name is composed without the checks that make `providerNetworkName` throw; paths under the run directory are joined texts.
- ConfigResolution.RefineConfig: models the refinements that resolution relies on; field shapes, the check against writing a provider's keys twice, secrets, egress and the message texts are left out.
- FleetConfig records are plain objects: a name that every object inherits is found in them and holds none of the fields looked for.
- Attended.RecordNeverUnderclaims: for workers launched in `rpc` mode; a worker launched in `tui` mode has its pane from the start and refuses to leave. A damaged or foreign record file is not modelled: entering and leaving refuse over either, while a steer refuses over a foreign one and writes a fresh record over a damaged one, with a new moment of entry (`src/cli/commands/steer.ts:119-132`).
- ImageGate.AssertImagesReady: what Docker answers about a tag is a function of the tag, so that asking twice gives one answer.
- ImageGate.PrintedTagIsRead: the hash is any 12 hexadecimal characters; SHA-256 and the build inputs are not modelled.
- `dispatch_request`, `get_replies` and the replies policy: further writers and readers of the same shapes as `submit_report` and the task policy.
- `output-token-cap.ts` and `truncation-recovery.ts`: rewrites of one payload by one branch.
- Adopting a terminal, worker preflight, the command line, the backends and the supervisor: wiring and process control.
- The tables of voided guarantees, the themes and the ticket CLI settings: constants.
- Mount preparation and mount preflight: file and container probing.
- Adjudication, the ledger, the relay and the scheduler.
