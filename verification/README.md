# Crewmeld: verified models of its protocols

Dafny models of the parts of Crewmeld whose correctness depends on what happens over whole runs, each
with proofs about every run.

- **The tool-calling loop** of the OpenAI-compatible provider. `Chat` holds the values that travel,
  `ToolBatch` the concurrent batch of tool calls, `ToolChoice` the pinned tools, `ToolLoop` one request
  as a function of everything the outside answers, `ProviderRun` the same on mutable state, and
  `LoopProperties`, `LoopLedgers` and `Requests` what holds of every run; `Places` and `Reports` say entry
  by entry what is handed back and sent. The model, the tools and the clock are a
  script of arbitrary answers; a reply, a failure or a reading can be anything at any step.
- **The SOP run**: its status column and guarded updates (`SopStatus`), suspension on asynchronous tools
  (`AsyncTools`, and in `AsyncToolsLoss` what is lost when a part of it fails), human approval
  (`HumanPause`), and the delivery of the result (`Delivery`). All but the first are
  interleavings of atomic steps; every step that reads or writes a row in one statement is one step.
- **Smaller cores**: completing the secrets file (`Secrets`), message interpolation (`Interpolation`, and in
  `InterpolationLimits` exactly where it stops being a substitution),
  the deployment-version migration (`Migration`), usage recording (`Pipeline`) and the UUID fallback
  (`Uuid`). `Text` has the string functions of the host language, `Prelude` shared helpers.

`dafny verify dfyconfig.toml` checks everything.

## Where the code differs from its own description

- The column comment of `pushByEngine` promises exactly-once delivery. `NeverBoth` holds, but a result
  can be pushed twice or never: the watch that the conversation leaves behind does not look at the flag,
  a cancelled suspension has no notifier, and an erroring tool resume has none either. The plain race of
  the waiting conversation and the first driver does deliver once (`TwoPartiesDeliverOnce`), and
  `DeliversOnceIff` says of every run whether it does.
- The journal comment says that a node resumes only once none of its calls is pending. Resume attempts
  are not re-checked, so an older attempt can resume a later suspension; `WaitsForAllIff` gives the
  exact condition.
- Human suspensions have no re-check: an approval that arrives between the insertion of the pause row
  and the suspension is lost until cold recovery (`StuckIff`). Recovery then looks for any decided pause
  of the execution: it carries that decision out, be it one of an earlier pass, can count a rejection
  again, and fails the run only if no pause was ever decided (`RecoverStuck`, `CountedTwiceIff`).
- Cold recovery starts a second driver on a stale running row. Suspensions and resumptions still
  alternate, but two drivers in one task can lose its wake-up (`TwoDriversLoseAWakeUp`,
  `LeavingLosesWakeUpIff`).
- Cold recovery retries a row in error without moving it to running, so everything that its driver then
  reports is refused and the row stays in error (`RetryStaysInError`).
- The transition table has no step from running to timed_out, so the time limit does not end a running
  execution; the engine then returns and leaves the row in running.
- The status enumeration says eight states and lists nine; the model has nine.
- `dispatchToolBatch` catches everything but the reading of a missing function part, which rejects the
  slot; the assistant turn then throws on the same call.
- A reply without a choices list is a completed call whose iteration and tokens are never reported: the
  loop swallows the exception that reading it raises.
- Trimming code fences once is not trimming them twice, a dollar sequence in a variable is expanded, and
  nested placeholders are filled one inside the other; the exact conditions are `TrimFencesIdempotentIff`,
  `LiteralIff`, `SafeValueIff` and `NoNestingIff`.
- A migration batch whose update fails after its insert is counted as an error and is never completed
  by a later run. An exception of its state loader ends the whole run.

## Assumptions

- A loop pass that is not reached has readings and answers in the script that nobody looks at.
  Time laws assume a clock that never steps back; everything else holds for any readings.
- Parsing the arguments of a call is a function of the text; a tool output that JSON.stringify rejects
  is a value without a JSON text.
- The content of a loop state is kept as the text it derives from and whether it went through the fence
  trimmer; it is rendered when a plain result is built.
- Workflow ids are a primary key; variables of a message are an object's entries, so their keys are
  distinct.

## Model

| member | source | states |
|---|---|---|
| ProviderRun.ExecuteRequest | apps/crewmeld/providers/_openai-compat-factory.ts:391-623 | one request, run on the mutable loop state, client and accumulator, has exactly the result and sends exactly the bodies that the function of request and outside answers prescribes, and both obey the law of EveryRequest |
| Reports.EveryRequest | apps/crewmeld/providers/_openai-compat-factory.ts:391-623 | from the outside answers alone: which kind of result a request gets, and for the plain and the streamed one every entry, output, segment, time and token that is reported and every message and choice that is sent, each placed by the call it belongs to |
| Places.PlacesAre | apps/crewmeld/providers/_openai-compat-factory.ts:298-342 | those places are, in order, exactly the calls with a function part whose arguments do not parse or whose tool is offered |
| Reports.FoldsOnlyUpTo | apps/crewmeld/providers/_openai-compat-factory.ts:345-378 | how many calls of the last reply are reported is determined: all, or those up to the first whose answer cannot be serialised |
| Places.TraceUpToLaw | apps/crewmeld/providers/_openai-compat-factory.ts:446-532 | call k of the trace stands behind the tools of the replies before it, a tool of reply k behind k + 1 calls, each with its own name and readings |
| Places.HistoryLawUpTo | apps/crewmeld/providers/_openai-compat-factory.ts:171-177 | the conversation is the system prompt, the context and the messages, then for each reply its turn and, for each answerable call, the JSON that its own run returned or its error |
| Reports.ExitChoices | apps/crewmeld/providers/_openai-compat-factory.ts:266-275 | over the bodies really sent: a choice pins the first forced tool that no reply has used, or is auto when all are used, if the latest reply that tells of a pin used it, and is the base choice otherwise |
| ProviderRun.RunToolLoop | apps/crewmeld/providers/_openai-compat-factory.ts:484-550 | the while loop, swallowed exceptions included, is the bounded iteration of its pass |
| ProviderRun.RunRound | apps/crewmeld/providers/_openai-compat-factory.ts:485-547 | one pass: what it changes, whether it leaves the loop, and why |
| ProviderRun.LoopState.FoldInvocations | apps/crewmeld/providers/_openai-compat-factory.ts:345-378 | folding changes the four ledgers by the records up to the first payload that cannot be serialised; that record reaches all of them but the history |
| ProviderRun.LoopState.TrackPins | apps/crewmeld/providers/utils/execution.ts:202-262 | after an answer with calls to a pinned body the pin joins the spent list and the flag is up exactly when some call, at any position, has its name, or no name and its id; else the flag is down; other answers change nothing |
| ToolChoice.TracksByTheLaw | apps/crewmeld/providers/utils/execution.ts:202-262 | the same of the function of one tracked answer |
| ToolBatch.DispatchToolBatch | apps/crewmeld/providers/_openai-compat-factory.ts:298-342 | in whatever order the calls complete, each slot holds what its own call comes to: a rejection without a function part, null for a tool that is not offered, else its readings and the parse error, the thrown message, or exactly the params and the outcome that its run returned |
| ToolBatch.RecordsAreTheAnswerableCalls | apps/crewmeld/providers/_openai-compat-factory.ts:303-350 | the records that survive a batch belong, in declared order, to exactly the calls that do not settle to null, whatever tools and clock do |
| ToolBatch.RecordsHoldTheirRuns | apps/crewmeld/providers/_openai-compat-factory.ts:303-350 | the j-th surviving record holds call, readings, params and outcome of the run of the j-th answerable call |
| ToolBatch.PositionsAre | apps/crewmeld/providers/_openai-compat-factory.ts:303-342 | the answerable calls, in declared order, are those with a function part whose arguments do not parse or whose tool is offered |
| ToolLoop.ExitIsFromAHead | apps/crewmeld/providers/_openai-compat-factory.ts:446-550 | every run passes through loop heads 0 to n, each given in closed form by the outside answers alone, and leaves head n, with n at most 20 |
| LoopProperties.EveryExitIs | apps/crewmeld/providers/_openai-compat-factory.ts:485-550 | the run leaves at the first head that has a reason to (nothing pending, the cap, or one of four exceptions), and what every field then holds |
| LoopProperties.HistoryShape | apps/crewmeld/providers/_openai-compat-factory.ts:453-502 | initial messages untouched, whole rounds of a declaring turn and its answers in declared order, then at most one cut round; the cut is empty, partial or whole exactly by the kind of exit |
| LoopProperties.AssistantTurnsCounted | apps/crewmeld/providers/_openai-compat-factory.ts:485-550 | declaring turns number the loop index, one more exactly when a round was aborted after its turn was pushed |
| LoopProperties.BodiesSent | apps/crewmeld/providers/_openai-compat-factory.ts:446-515 | plain call i was handed the initial messages and i whole rounds under the prescribed tool choice; at most 21 plain calls |
| LoopProperties.ContentProvenance | apps/crewmeld/providers/_openai-compat-factory.ts:452-490 | the final content is the raw text of the latest reply with text, trimmed of fences exactly when that reply hit the cap |
| LoopLedgers.LedgersAgree | apps/crewmeld/providers/_openai-compat-factory.ts:349-377 | tool segments, gathered entries, outputs and tool turns agree one for one over all rounds; only a turn that could not be serialised is missing |
| LoopLedgers.TimesFit | apps/crewmeld/providers/_openai-compat-factory.ts:113-126 | with a clock that never steps back, model and tool wall time fit into the duration, the model time is the sum of the model segments, and nothing overlaps a model segment, also after a swallowed exception |
| LoopLedgers.ToolSegmentsInTheirBatches | apps/crewmeld/providers/_openai-compat-factory.ts:492-500 | each tool segment lies within the clock readings of the batch of its own round, told by its place in the trace |
| Requests.EveryRun | apps/crewmeld/providers/_openai-compat-factory.ts:391-550 | all laws of the loop together, for every request and everything the outside may answer |
| Requests.EveryReport | apps/crewmeld/providers/_openai-compat-factory.ts:396-596 | iterations and tokens reported are those of the readable replies, and those of all completed calls exactly when each has a choices list; at most 21 plain calls and one last streaming call with choice auto |
| Requests.EveryResult | apps/crewmeld/providers/_openai-compat-factory.ts:553-596 | the reported ledgers and times of a plain or streamed result agree with each other |
| Requests.EveryReportAddsUp | apps/crewmeld/providers/_openai-compat-factory.ts:131-151 | if total = prompt + completion in the usage of every reply and of the stream, so it is in the reported tokens |
| ToolChoice.PreparedChoice | apps/crewmeld/providers/utils/execution.ts:84-146 | no choice exactly when every tool is suppressed, else a pin on the first forced tool or auto without one; the pinned list is each forced tool in its place and no other |
| ToolChoice.SpentOnlyGrows | apps/crewmeld/providers/utils/execution.ts:227-257 | the spent list of a later answer extends that of an earlier one |
| ToolChoice.OverridePinsFirstUnspent | apps/crewmeld/providers/_openai-compat-factory.ts:272-274 | an active override is auto exactly when nothing is unspent, else it pins the first unspent tool and never a spent one |
| ToolChoice.SpentToolPinnedAgainIff | apps/crewmeld/providers/_openai-compat-factory.ts:503-509 | a body pins a spent tool again exactly when the last pin was ignored and the first pinned tool is spent |
| ToolChoice.FallbackExample | apps/crewmeld/providers/_openai-compat-factory.ts:503-531 | a run in which that happens |
| ToolChoice.AutoIsFinal | apps/crewmeld/providers/_openai-compat-factory.ts:503-531 | once everything is spent with the flag up, all later bodies say auto |
| ToolChoice.ObedientRunSpendsEveryPin | apps/crewmeld/providers/_openai-compat-factory.ts:470-531 | if every reply calls its pinned tool, each reply spends one more, and auto comes after as many replies as there are distinct pins |
| Text.TrimFencesLeavesAFence | apps/crewmeld/providers/_openai-compat-factory.ts:156 | a text whose trimmed form still is a fence |
| Text.TrimFencesIdempotentIff | apps/crewmeld/providers/_openai-compat-factory.ts:156 | a second fence trim changes nothing exactly when one pass over the raw text keeps no three backquotes in a row |
| Text.TrimIs | apps/crewmeld/providers/_openai-compat-factory.ts:156 | trimming cuts off blanks at both ends, and all of them |
| Text.BlanksAre | apps/crewmeld/providers/_openai-compat-factory.ts:156 | which characters those are |
| Text.TrimFencesUnwraps | apps/crewmeld/providers/_openai-compat-factory.ts:156 | a text without backquotes is only trimmed, and comes out again of a JSON or a plain fence |
| SopStatus.ExecutionRow.TransitionStatus | apps/crewmeld/lib/sop/engine.ts:68-96 | a transition takes effect exactly when the table admits it and the row still has the expected status |
| SopStatus.ExecutionRow.HandOver | apps/crewmeld/lib/conversation/sop-bridge.ts:359-371 | the push flag flips to true exactly when it was false and the run has not ended |
| SopStatus.ExecutionRow.Cancel | apps/crewmeld/lib/sop/engine.ts:1146-1162 | cancelling works exactly on a run that has not ended |
| SopStatus.ExecutionRow.TimeOut | apps/crewmeld/lib/sop/workers/timeout-worker.ts:114-132 | the SOP time limit ends a run exactly in the two paused statuses, because the table has no step from running to timed_out |
| SopStatus.EnteredFrom | apps/crewmeld/lib/sop/engine.ts:50-64 | from which statuses each status can be entered |
| SopStatus.TerminalIff | packages/db/schema/sop-executions.ts:25-31 | the terminal statuses are those that nothing leaves, and error |
| SopStatus.TerminalIsFinalUnlessError | packages/db/schema/sop-executions.ts:25-31 | of the terminal statuses only error can ever be left, by any sequence of guarded updates |
| SopStatus.LeftOnlyByItsOwnUpdates | packages/db/schema/sop-executions.ts:11-15 | a status is only ever left by an update that expects it |
| AsyncTools.Journal.ApplyTerminal | apps/crewmeld/lib/sop/async-tool-log.ts:90-137 | a call is settled exactly when its row is pending, and the count is of what its task then has pending |
| AsyncTools.NothingPendingIff | apps/crewmeld/lib/sop/async-tool-log.ts:169-178 | a count of zero means that no row of that node task is pending |
| AsyncTools.NoRunLosesAWakeUp | apps/crewmeld/types/sop.ts:196-207 | in every interleaving, also with drivers that cold recovery starts beside others, a run suspended on a tool has a pending call, somebody about to count or resume, or a driver still in its task, as long as nothing under way is lost and no driver leaves a suspended task |
| AsyncTools.NoRestartNoLostWakeUp | apps/crewmeld/types/sop.ts:196-207 | unless cold recovery finds the row stale or something under way is lost, a run suspended on a tool has no driver, and a pending call or somebody about to count or resume |
| AsyncTools.EverySuspensionCanWake | apps/crewmeld/lib/sop/engine.ts:890-929 | from every such state watchdogs, one re-check or count and one resume lead back to running, within a number of steps given by the journal; only an unguarded call needs its callback |
| AsyncTools.ResumedAtMostOnce | apps/crewmeld/lib/sop/engine.ts:927-929 | suspensions and resumptions alternate in every run, whatever is lost or restarted |
| AsyncTools.ResumeFindsSettled | apps/crewmeld/lib/sop/async-tool-log.ts:117-137 | in every run a resume finds each call of its task settled that was dispatched before its count |
| AsyncTools.SettledOnce | apps/crewmeld/lib/sop/async-tool-log.ts:85-131 | a journal row is settled once: its settler never changes and no row is dropped |
| AsyncToolsLoss.DropLosesWakeUpIff | apps/crewmeld/lib/sop/tool-callback-handler.ts:45-58 | a count, re-check or resume that throws loses the wake-up exactly when it was the only one for the task, no call of it is pending and no driver is in it |
| AsyncToolsLoss.LeavingLosesWakeUpIff | apps/crewmeld/lib/sop/engine.ts:962-965 | a driver that ends in a task, which another driver has suspended the run in, loses the wake-up exactly when it is the last one there and nothing of the task is pending or watched |
| AsyncToolsLoss.TwoDriversLoseAWakeUp | apps/crewmeld/lib/sop/engine.ts:1316-1320 | a run in which that happens: cold recovery starts a second driver, nothing is lost on the way, and the run is stranded |
| AsyncToolsLoss.CrashStrandsIff | apps/crewmeld/lib/sop/engine.ts:1210-1222 | after a crash a run suspended on a tool can ever run again if and only if some call is pending, of whatever task |
| AsyncToolsLoss.RetryStaysInError | apps/crewmeld/lib/sop/engine.ts:1346-1353 | cold recovery starts a driver on a row in error, and whatever it does the row stays in error |
| AsyncToolsLoss.UnguardedCallNeedsItsCallback | apps/crewmeld/lib/sop/async-tool-dispatch.ts:366-397 | a suspension that waits for a call without a watchdog waits for ever if its callback never comes |
| AsyncTools.WaitsForAllIff | apps/crewmeld/lib/sop/async-tool-log.ts:2-9 | a suspension waits for all its calls, however the run goes on, if and only if no older attempt, no driver, no restart and nothing of another task is under way when it is reached |
| AsyncTools.EarlyResumeExample | apps/crewmeld/lib/sop/async-tool-log.ts:2-9 | a run that is resumed with a call still pending, against the journal comment |
| AsyncToolsLoss.StrandedForGood | apps/crewmeld/lib/sop/engine.ts:1210-1222 | such a run stays paused_for_tool; cold recovery does not select that status |
| HumanPause.PauseRow.TryDecide | apps/crewmeld/app/api/employee/sops/pause/[pauseId]/decide/route.ts:53-67 | a decision wins exactly on a waiting row and then writes the status, the decision and the decider |
| HumanPause.PauseRow.TryExpire | apps/crewmeld/lib/sop/workers/timeout-worker.ts:62-75 | the timer wins exactly on a waiting row and then writes the status and no answer, by nobody |
| HumanPause.FirstWins | packages/db/schema/sop-executions.ts:195-203 | of any deciders and timers in any order exactly the first wins: the row records its decision and decider, or the expiry without an answer, for good |
| HumanPause.StuckIff | apps/crewmeld/lib/sop/engine.ts:532-545 | in a run through any number of human nodes a suspension can get stuck exactly when its pause was answered before it and no attempt is left that could end it; nobody re-checks |
| HumanPause.StuckForGood | apps/crewmeld/lib/sop/engine.ts:800-802 | a stuck run stays as it is without cold recovery or an outside end |
| HumanPause.RecoverStuck | apps/crewmeld/lib/sop/engine.ts:1234-1275 | cold recovery fails a stuck run exactly when none of its pauses was ever decided; otherwise it carries out the decision of a decided row, possibly one of an earlier pass that was carried out before |
| HumanPause.RejectionsBounded | apps/crewmeld/lib/sop/engine.ts:776-797 | without cold recovery each rejected pause is counted at most once, over all passes |
| HumanPause.CountedTwiceIff | apps/crewmeld/lib/sop/engine.ts:1247-1270 | recovering a stuck run can count more rejections than there are exactly when all of them have been counted and there is one, of whatever pass |
| HumanPause.TimeoutLost | apps/crewmeld/lib/sop/workers/timeout-worker.ts:92-113 | a timer that has looked the status up before the suspension is lost |
| HumanPause.RejectionCountedTwice | apps/crewmeld/lib/sop/engine.ts:784-800 | a run in which that happens to the rejection that it is stuck on |
| HumanPause.OldRejectionCountedAgain | apps/crewmeld/lib/sop/engine.ts:1247-1270 | a run that is stuck on an approval, and recovery counts the rejection of the pass before it again |
| HumanPause.OldApprovalCarriedOutAgain | apps/crewmeld/lib/sop/engine.ts:1247-1270 | a run that is stuck on an expired pause, and recovery carries out the approval of the pass before it instead of failing the run |
| HumanPause.LosingAnAttempt | apps/crewmeld/app/api/employee/sops/pause/[pauseId]/decide/route.ts:83-89 | an answered suspension is stuck once its only attempt is lost, whether it had counted its rejection or not, and after any crash |
| Delivery.WhoMovesWhat | apps/crewmeld/lib/conversation/sop-bridge.ts:355-376 | the status is moved by the driver of a running run, a resume of the matching pause and from outside only; the conversation answers what has ended and gives up on what has not |
| Delivery.NeverBoth | packages/db/schema/sop-executions.ts:107-117 | a result is never both answered in-turn and pushed, and answered at most once |
| Delivery.KeptByTheConversation | apps/crewmeld/lib/conversation/sop-bridge.ts:355-376 | with the flag down at the end nothing is ever pushed |
| Delivery.PushesConserved | apps/crewmeld/lib/sop/engine.ts:1011-1037 | after the end, pushes done plus pushes owed stay the same |
| Delivery.ExactlyOnceIff | packages/db/schema/sop-executions.ts:107-117 | exactly-once delivery holds, whatever the order of the rest, if and only if the conversation holds the result or one push is done or owed and no resume is in flight |
| Delivery.DeliversOnceIff | packages/db/schema/sop-executions.ts:107-117 | of all runs from the start, those that deliver exactly once, in whatever order the rest happens, read off before the step that ends them |
| Delivery.TwoPartiesDeliverOnce | apps/crewmeld/lib/conversation/sop-bridge.ts:355-470 | the waiting conversation against the first driver, without suspension or end from outside: exactly one delivery in every interleaving |
| Delivery.NeverDelivered | packages/db/schema/sop-executions.ts:107-117 | a run whose result nobody delivers, against the column comment |
| Delivery.DeliveredTwice | apps/crewmeld/lib/conversation/sop-bridge.ts:428-470 | a run whose result is pushed twice, by the ungated watch and by a notifier |
| Secrets.EnsureSecrets | scripts/ensure-secrets.ts:14-51 | the new file, and which keys are generated: in the order of the table, those that no line of the file as it was read gives a value, or whose first such line gives blanks |
| Secrets.LookUp | scripts/ensure-secrets.ts:18-24 | the value of the first line that is the key, an equals sign and a text without line terminators, or nothing if there is none |
| Secrets.TableIsWellFormed | scripts/ensure-secrets.ts:7-12 | the table of keys and whatever its generators hand out meet the requirement of the run |
| Secrets.FreshFile | scripts/ensure-secrets.ts:14-51 | a run on no file or an empty one writes one line for each key in the order of the table, with an empty line between any two |
| Secrets.EveryKeyHasAValue | scripts/ensure-secrets.ts:18-46 | afterwards every key has a value that is not blank: its old one, or the generated one |
| Secrets.SecondRunDoesNothing | scripts/ensure-secrets.ts:14-51 | reading the written file and running again generates nothing and leaves the file alone |
| Secrets.ReadBack | scripts/ensure-secrets.ts:15-50 | the written file splits into exactly the lines that were joined |
| Secrets.EveryLineAfter | scripts/ensure-secrets.ts:31-44 | every line keeps its place, and its text unless it is the first line of a generated key |
| Secrets.AppendedLine | scripts/ensure-secrets.ts:39-43 | only spacers and generated lines are appended |
| Secrets.ValueLostIff | scripts/ensure-secrets.ts:18-37 | a value in the file is lost exactly when it stands on its key's first line and the lookup finds none, as with a carriage return |
| Secrets.CleanFileKeepsValues | scripts/ensure-secrets.ts:18-37 | without carriage returns no value is lost |
| Text.SplitJoin | scripts/ensure-secrets.ts:16-50 | split undoes join on lines without the separator |
| Text.JoinSplit | scripts/ensure-secrets.ts:16-50 | join undoes split |
| Interpolation.Translate | apps/crewmeld/hooks/use-translation.ts:54-62 | the loop over the variables replaces them one after the other |
| Interpolation.TextIsFound | apps/crewmeld/hooks/use-translation.ts:23-31 | a text nested under dot-free keys, however many and whatever stands beside them, is found under their joined path |
| Interpolation.ElseThePath | apps/crewmeld/hooks/use-translation.ts:23-31 | a path with a missing key, through a value that is no object or to one that is no text answers itself |
| Interpolation.EveryPathIsOne | apps/crewmeld/hooks/use-translation.ts:23-31 | every path is of one of these two kinds |
| Interpolation.SequenceStandsFor | apps/crewmeld/hooks/use-translation.ts:57-59 | in a template with one placeholder a dollar sequence of the value becomes a dollar, the match, or the text before or after it |
| Interpolation.LoopIsSubstitution | apps/crewmeld/hooks/use-translation.ts:56-60 | for templates without nested placeholders and values without braces or special dollars the loop is one simultaneous substitution |
| Interpolation.OrderDoesNotMatter | apps/crewmeld/hooks/use-translation.ts:56-60 | the result does not depend on the order of the variables |
| Interpolation.PlaceholderBecomes | apps/crewmeld/hooks/use-translation.ts:57-59 | a bound placeholder becomes its value, an unbound one stays verbatim |
| InterpolationLimits.LiteralIff | apps/crewmeld/hooks/use-translation.ts:57-59 | a value goes into every template and under every key unchanged exactly when no dollar in it starts a special sequence |
| InterpolationLimits.SafeValueIff | apps/crewmeld/hooks/use-translation.ts:57-59 | a value is safe in every template, under every key and beside every plain variable exactly when it has no braces and no dollar sequence |
| InterpolationLimits.NoNestingIff | apps/crewmeld/hooks/use-translation.ts:57-59 | the loop is a substitution for all plain variables exactly in the templates without nested placeholders |
| InterpolationLimits.DollarsInAValue | apps/crewmeld/hooks/use-translation.ts:57-59 | a value whose dollar sequence is expanded |
| InterpolationLimits.BracesInAValue | apps/crewmeld/hooks/use-translation.ts:57-59 | two variables whose order matters |
| InterpolationLimits.NestedBraces | apps/crewmeld/hooks/use-translation.ts:57-59 | a template on which loop and substitution differ |
| Migration.MigrateWorkflows | packages/db/scripts/migrate-deployment-versions.ts:214-338 | the batched loops do to every workflow what a pass workflow by workflow does, under any faults, up to the batch in which the loader throws, and count it |
| Migration.DoneIs | packages/db/scripts/migrate-deployment-versions.ts:243-290 | a run gets through all workflows, or the whole batches of fifty before the first workflow at which the loader throws |
| Migration.CountsAre | packages/db/scripts/migrate-deployment-versions.ts:243-335 | success counts what could be planned and stored, or planned in a dry run, errors what could be planned and not stored, skipped the rest |
| Migration.CountsAddUp | packages/db/scripts/migrate-deployment-versions.ts:243-335 | success, skipped and errors add up to the workflows and none is negative |
| Migration.DryRunChangesNothing | packages/db/scripts/migrate-deployment-versions.ts:308-311 | a dry run leaves both tables alone |
| Migration.WorkflowAfter | packages/db/scripts/migrate-deployment-versions.ts:263-335 | what one run does to one workflow: the versions it gains and whether it is marked |
| Migration.FaultFreeRun | packages/db/scripts/migrate-deployment-versions.ts:263-329 | an unversioned workflow with a state gains exactly one active version 1 and is deployed, every other one is unchanged |
| Migration.NeverASecondVersion | packages/db/scripts/migrate-deployment-versions.ts:236-268 | over any runs with any faults no workflow ever gets a second version and existing ones stay |
| Migration.SecondRunDoesNothing | packages/db/scripts/migrate-deployment-versions.ts:236-268 | after a fault-free run any further run changes nothing |
| Migration.CleanRerunCompletes | packages/db/scripts/migrate-deployment-versions.ts:236-335 | one fault-free run after any failed ones leaves exactly one version |
| Migration.HalfMigratedIff | packages/db/scripts/migrate-deployment-versions.ts:312-335 | a version without the mark arises exactly when the update fails after the insert |
| Migration.HalfMigratedForGood | packages/db/scripts/migrate-deployment-versions.ts:264-268 | and no later run ever marks that workflow |
| Pipeline.ExecuteProviderRequest | apps/crewmeld/providers/executor.ts:860-905 | the outcome of one request is its first failing guard or what the adapter made of it, billed from its own token counts exactly when the platform pays, and exactly that is recorded |
| Pipeline.RecordsAreConserved | apps/crewmeld/providers/executor.ts:833-905 | over any requests, records number those that reached the adapter less those lost in billing; error records are the faults with a message |
| Pipeline.ChargesAreConserved | apps/crewmeld/providers/executor.ts:798-833 | over any requests, priced records number the responses under the platform key for billed models less those lost in billing; without such a response nothing is priced |
| Pipeline.ExecuteAll | apps/crewmeld/providers/executor.ts:860-905 | requests one after the other grow the shared log by exactly their records |
| Uuid.SafeRandomUuid | apps/crewmeld/lib/uuid.ts:17-27 | the buffer that is filled and masked in place is formatted as the masked bytes |
| Uuid.ParseUuid | apps/crewmeld/lib/uuid.ts:23-27 | the text reads back as the masked bytes |
| Uuid.Layout | apps/crewmeld/lib/uuid.ts:23-27 | 36 characters, four hyphens, version digit 4 and variant digit 8 to b, as sections 4.1.3 and 4.1.1 of RFC 4122 ask |
| Uuid.CollideIff | apps/crewmeld/lib/uuid.ts:24-27 | two inputs give the same text exactly when they agree on the free bits |
| Uuid.FreeBitsAre | apps/crewmeld/lib/uuid.ts:24-25 | of which there are 122 |

## Left out

- ProviderRun.ExecuteRequest: does not model classification and text of errors, cost, ISO timestamps, sampling parameters, the tool definitions in the body, the duration and the text of a stream, and the shape of a reply beyond a missing choices list, choice or message.
- Interpolation.LoopIsSubstitution: keys are taken as literal text; a key with characters special to regular expressions is not modelled.
- Pipeline.ExecuteProviderRequest: parameter pruning and the text of the injected schema are left out; whether calculating the cost or injecting the schema throws is part of the call.
- Migration.MigrateWorkflows: row ids, creation dates and authors are left out, and the state loaded from the normalised tables is one value per workflow.
- Secrets.EnsureSecrets: a value is drawn for every key of the table although the script only draws those it needs.
- Migration.CountsAddUp: the two queries before the loop are left out; a run that the loader ends reports no counts.
- ToolChoice.ObedientRunSpendsEveryPin: pinned tools with an empty id are excluded, because the tracker never counts them as used.
- AsyncTools.NoRunLosesAWakeUp: the round limit, what a tool returns and the order of pod clean-up are left out; tasks of one execution share the journal, and any driver in a task can fail its calls.
- HumanPause.StuckIff: the approval gate before a human node, notifications, and the second driver that cold recovery starts on a row in running or error are left out; a resume is one step unless it throws.
- Delivery.ExactlyOnceIff: cold recovery, which can start a driver on a run in error or running, and a driver, watch or notifier whose database or channel call throws, are left out.
- The overwriting of the whole state snapshot by concurrent drivers, node retries and the routing between nodes.
- The merging of tool arguments and execution parameters, and the Google and Anthropic forms of the tool choice.
- The declarative tables of the provider pipeline that drive nothing (retry policy, concurrency gate, quota, caching, hooks).
- React components, locale texts, table schemas without a protocol, and the network, queue and database clients.
