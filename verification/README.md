# ForgeIQ: verified models of its workflows, limiters, router and signals

This Dafny 4.11 project models the parts of ForgeIQ that carry state machines, loops or arithmetic, and
proves what they guarantee over every run and every input. `dafny verify dfyconfig.toml` checks all of it.

| file | what it models |
|---|---|
| `RunbookMemory.dfy`, `RunbookMemoryLog.dfy` | the event-sourced `RunbookMemory`: six buckets, versions, delta log |
| `RunbookWorkflow.dfy`, `RunbookSafety.dfy`, `RunbookApprovals.dfy`, `RunbookResult.dfy`, `RunbookLog.dfy` | `RunbookAutomationWorkflow`: gated diagnostics, actions that wait for approval signals |
| `AgenticLoop.dfy`, `AgenticHistory.dfy`, `AgenticEnding.dfy`, `AgenticStop.dfy` | `AgenticLoop`: execute, merge evidence, refine, ask for feedback |
| `PlanContracts.dfy`, `PlanExecutors.dfy`, `PlanExecutorProperties.dfy`, `PlanExecutorEndings.dfy`, `PlanExecutorAgreement.dfy` | `IncidentWorkflow`, `IncidentWorkflowIterative`, `Orchestrator.Run` and the policy gate in `CallTool` |
| `AgentRouter.dfy`, `AgentRouterProperties.dfy`, `AgentRouterLaws.dfy` | `AgentRouter.Route`: scoring, ranking, ties, softmax sampling |
| `RateLimiter.dfy` | the sliding-window rate limiter |
| `Observability.dfy` | matrix summing, series statistics, least-squares slope |
| `RunbookIds.dfy` | duplicate check, `NormalizeIDs`, idempotency keys |
| `TaskIds.dfy` | tenant sanitiser, task-ID printer and parser |
| `ExecAgent.dfy` | the TTL idempotency cache of the stub exec agent |
| `GoStrings.dfy`, `Wrappers.dfy` | string operations of Go's library; `Option` and `Result` |

## How the code is modelled

Loops and mutable objects of the source are imperative here: `RunbookMemory`, `RateLimiter` and
`StubExecAgent` are classes, and each workflow is a method. Each method is proved equal to a specification
function, and the results are lemmas about that function for all inputs.

Everything outside the code is an arbitrary input: the answers of agents, tools and activities (an
activity counts as one call with one outcome), the streams of signals, the clock, the seeded random
draws, `math.Exp`, the order in which a map is ranged over. A receive on an exhausted signal stream is a
"blocked" ending. Floating-point numbers are reals, already parsed; a JSON value of type `any` is a
datatype with one constructor per type the code asserts. Bucket, action and patch-key strings are
datatypes with one constructor per constant and one for every other string.

## Where the code differs from what its documentation says

- The documentation lists `/stop` and the `stop` signal as stopping the agentic loop. The code only notes
  the signal; `AgenticStop.StopSignalsStopNothing` proves that, for the same answers from everyone else,
  the note is the only difference it makes.
- The documentation says the loop stops when its goal is achieved. No code writes the keys the goal check
  reads, so no run ends that way (`AgenticHistory.GoalIsNeverAchieved`). A run ended by the feedback
  `stop` is reported as having reached the maximum of iterations.
- The rate limiter is documented as a token bucket. The code keeps a sliding-window log, which is what is
  modelled.
- `NormalizeIDs` prefixes step IDs to avoid collisions across runbooks and versions. It does so where no
  ID or version holds a colon (`RunbookIds.NamespacesKeepApart`); `RunbookIds.NamespacesMeetIff` says when
  steps of two namespaces get one ID. Within a runbook it makes two IDs one when they are outside the
  namespace and differ only in surrounding white space, or when one is the other already spelled out in
  the namespace (`RunbookIds.CollideIffClash`). Validation compares raw IDs and accepts all such pairs
  (`RunbookIds.ClashesAreAccepted`). `RunbookIds.KeysAreDistinctIff` says for which accepted runbooks the
  idempotency keys are distinct, `RunbookIds.KeysAreSharedIff` when two workflows share one.
- A diagnostic is marked completed before its gate is evaluated, so a run stopped by a gate lists the
  failing diagnostic, if it has an ID, among its completed steps
  (`WorkflowApprovals.FailedDiagnosticIsCompleted`).
- `Orchestrator.Run` and `IncidentWorkflow` execute the same plans, but the former ends at a step that
  needs an approval, a tag or a scope it lacks, takes a budget of zero literally, fails on overrunning
  it, and watches the time; the latter asks for approvals, notes a refused call as an error, takes a
  budget of zero as none and, on overrunning another, continues as new: Temporal starts it over for the
  same task with nothing counted. `PlanExecutorAgreement.ExecutorsAgreeIff` says exactly when that makes
  no difference; a plan longer than the budget is a difference.
- A run of `IncidentWorkflow` here is one round, from its start or restart on: its bounds on calls and
  approvals hold per round. `PlanExecutorProperties.StartsOverIff` says exactly when a round ends in a
  restart, and that a round whose plan is longer than a positive budget never completes.

## Model

| member | source | states |
|---|---|---|
| Memory.RunbookMemory.constructor | internal/controlplane/temporal/runbook_memory.go:98-126 | a new memory holds the intent, empty buckets, version 1 for the intent and 0 for the others, and an empty log |
| Memory.RunbookMemory.BucketVer | internal/controlplane/temporal/runbook_memory.go:139-144 | reads a bucket's version; an absent one is 0 |
| Memory.RunbookMemory.Bump | internal/controlplane/temporal/runbook_memory.go:146-151 | raises one bucket's version by one and no other |
| Memory.RunbookMemory.Mutate | internal/controlplane/temporal/runbook_memory.go:164-294 | the bucket/action switch, in place: one bucket's new contents or an error that leaves all of them alone |
| Memory.RunbookMemory.Apply | internal/controlplane/temporal/runbook_memory.go:153-309 | all-or-nothing: an accepted delta updates its bucket, version and the log; a rejected one returns which error and changes nothing |
| Memory.ReplayRebuilds | internal/controlplane/temporal/runbook_memory.go:92-95 | replaying the log of any run of successful and failed calls succeeds and rebuilds all buckets, all versions and the log itself |
| Memory.VersionsCountEntries | internal/controlplane/temporal/runbook_memory.go:296-307 | in every run each version is its initial value plus its number of entries, and the entries' prev/next versions chain without a gap |
| Memory.AcceptedTouchesOneBucket | internal/controlplane/temporal/runbook_memory.go:164-308 | an accepted delta changes only its own bucket's contents and version and appends one entry |
| Memory.ExpectedVersionIsSpentOnce | internal/controlplane/temporal/runbook_memory.go:160-162 | over any run, of all deltas with the same positive expected version of a bucket at most one is accepted |
| Memory.BucketsAreIndependent | internal/controlplane/temporal/runbook_memory.go:164-294 | replaying only a bucket's own entries succeeds and gives the same contents and version of that bucket as replaying the whole log |
| MemoryLog.LogTellsTheMemory | internal/controlplane/temporal/runbook_memory.go:164-308 | in every run every field of the memory is read off the log: maps hold the last writes, lists and reasons are the log's in order, runbook, cursor, goal, selected runbook and failure reason are the last well-typed ones, the flags are the log's |
| MemoryLog.AcceptedExactlyWhen | internal/controlplane/temporal/runbook_memory.go:153-294 | a delta is accepted exactly when its bucket knows its action, the expected version, if any, is the bucket's, and the patch has what the action cannot do without; otherwise the error is the first of these it lacks |
| MemoryLog.LogRecordsTheCalls | internal/controlplane/temporal/runbook_memory.go:296-307 | the log is exactly the accepted calls of the run, in order, with time, bucket, action, patch, actor, rationale and references |
| MemoryLog.FreshVersions | internal/controlplane/temporal/runbook_memory.go:114-123 | from a fresh memory a bucket's version is the number of its entries, plus one for the intent |
| Workflow.GateFailsClosed | internal/controlplane/temporal/runbook_workflow.go:324-363 | a gate passes exactly when it is unset or a healthy result has the named signal and it satisfies the comparison |
| Workflow.GateReason | internal/controlplane/temporal/runbook_workflow.go:324-363 | a refusing gate names what it lacks first: threshold, healthy evidence, signals, the signal, a fitting value |
| Workflow.CompareMeaning | internal/controlplane/temporal/runbook_workflow.go:399-417 | the comparison is the named order relation, and an unknown operator never holds |
| Workflow.AwaitDecision | internal/controlplane/temporal/runbook_workflow.go:245-272 | consumes signals up to and including the first one for the step, or all of them when there is none |
| Workflow.RunDiagnostic | internal/controlplane/temporal/runbook_workflow.go:171-221 | one diagnostic: cursor, evidence, completion, gate, and failure mark in that order |
| Workflow.RunAction | internal/controlplane/temporal/runbook_workflow.go:227-309 | one action: cursor, wait if gated, approval log, execution, evidence and completion |
| Workflow.RunDiagnostics | internal/controlplane/temporal/runbook_workflow.go:170-222 | the diagnostic loop, ended by the first failing gate |
| Workflow.RunActions | internal/controlplane/temporal/runbook_workflow.go:224-309 | the action loop, ended by a receive that never returns |
| Workflow.RunbookAutomationWorkflow | internal/controlplane/temporal/runbook_workflow.go:55-322 | the whole workflow: memory, signals consumed, steps taken, how it ends and what it returns |
| WorkflowSafety.MemoryIsTheHistory | internal/controlplane/temporal/runbook_workflow.go:171-309 | completed steps are exactly, in order, the steps whose activity returned without error; approvals and evidence are exactly the decisions and outcomes of the run |
| WorkflowSafety.RunCanBeReplayed | internal/controlplane/temporal/runbook_workflow.go:75-82 | whatever the run, its delta log alone rebuilds the memory it left |
| WorkflowLog.LogFollowsTheProtocol | internal/controlplane/temporal/runbook_workflow.go:116-309 | in every run each log entry follows its predecessor lawfully, by the right actor with the right references: evidence on the cursor's step, an action's after its approval if gated, completion right after evidence, failure last; each at the workflow's time |
| WorkflowApprovals.DiagnosticsStopAtFirstFailure | internal/controlplane/temporal/runbook_workflow.go:171-222 | diagnostics run in order up to and including the first failing gate; an errored one does not stop them |
| WorkflowApprovals.ExecSafety | internal/controlplane/temporal/runbook_workflow.go:225-309 | steps run in runbook order, at most once each; a gated action only directly after an approving signal for it; nothing is decided or executed unless every diagnostic errored or passed; a completed run settled every action |
| WorkflowApprovals.GreedyIsLeast | internal/controlplane/temporal/runbook_workflow.go:246-252 | consuming and dropping signals greedily is complete and takes the earliest positions any embedding can |
| WorkflowApprovals.CompletesIffApprovalsEmbed | internal/controlplane/temporal/runbook_workflow.go:242-276 | a run completes exactly when diagnostics pass and the gated action IDs embed in order into the stream's step IDs; otherwise it blocks or its gate failed |
| WorkflowApprovals.ApprovalsAreTheEarliest | internal/controlplane/temporal/runbook_workflow.go:246-272 | in every run the approvals log is a subsequence of the stream, one entry per gated action the run got past, at the earliest positions possible; with the action a run blocks on, the IDs do not embed |
| WorkflowApprovals.FailedDiagnosticIsCompleted | internal/controlplane/temporal/runbook_workflow.go:196-220 | a run stopped by a gate lists that diagnostic, if it has an ID, among the completed steps |
| WorkflowApprovals.RejectedIsNotExecuted | internal/controlplane/temporal/runbook_workflow.go:264-276 | an action whose decision was a rejection never runs |
| WorkflowApprovals.RejectedLeavesNoTrace | internal/controlplane/temporal/runbook_workflow.go:264-309 | with unique step IDs a rejected step is in neither the completed steps nor the action evidence |
| WorkflowResult.ApprovalIsAskedWhenRequired | internal/controlplane/temporal/runbook_workflow.go:241-276 | decisions are taken exactly for actions that require approval themselves or by the rule agent's word, and such an action runs only right after an approving one |
| WorkflowResult.MemoryShowsTheRest | internal/controlplane/temporal/runbook_workflow.go:75-309 | the rest of the memory of every run: the cursor names the step last taken up, the reasons are the rule agent's and the deciding signals' comments, severity, selected runbook and intent are as answered, failure is marked exactly for a failed gate |
| WorkflowResult.IntentNamesTheWorkflow | internal/controlplane/temporal/runbook_workflow.go:58-84 | the metadata is the request's, with the execution's ID where it names no workflow |
| WorkflowResult.FailureIsTheFirst | internal/controlplane/temporal/runbook_workflow.go:105-222 | a run fails exactly when an agent erred or a diagnostic does not pass, and the reason names the agent or is the first such gate's |
| WorkflowResult.ResultTellsTheRun | internal/controlplane/temporal/runbook_workflow.go:86-322 | there is no result exactly when the diagnostics pass and the gated IDs do not embed; otherwise it tells request, rule, runbook, failure and reason as the inputs determine them, the end time if the agents answered, and on completion all observations and outcomes |
| RateLimit.RateLimiter.constructor | internal/middleware/ratelimit.go:21-28 | a limiter with no stored requests |
| RateLimit.RateLimiter.Recent | internal/middleware/ratelimit.go:39-45 | the clean-up loop keeps exactly the stored times after the cutoff |
| RateLimit.RateLimiter.Allow | internal/middleware/ratelimit.go:31-57 | the answer is the one the full history of the identifier gives, although only a pruned list is kept; no stored list outgrows the limit |
| RateLimit.EveryWindowIsBounded | internal/middleware/ratelimit.go:38-56 | in every run, every half-open interval of one window's length holds at most max(0, limit) allowed requests of an identifier |
| RateLimit.RefusedOnlyWhenFull | internal/middleware/ratelimit.go:47-56 | a request is refused exactly when the window ending with it already holds the limit; other identifiers are unaffected |
| Observability.AddSamples | cmd/data-observability-agent/main.go:423-434 | accumulates values by timestamp, skipping what does not parse |
| Observability.SortFloats | cmd/data-observability-agent/main.go:443 | the keys in strictly increasing order |
| Observability.ExtractMatrixAsSummedSeries | cmd/data-observability-agent/main.go:404-452 | strictly increasing timestamps, each with the sum of its values, adding up to the total of all parsed values |
| Observability.GroupingConserves | cmd/data-observability-agent/main.go:414-451 | grouping by timestamp neither loses nor invents value |
| Observability.EverySeriesCounts | cmd/data-observability-agent/main.go:414-434 | each series contributes exactly its samples wherever it stands, one without values nothing |
| Observability.SeriesStats | cmd/data-observability-agent/main.go:454-483 | min and max are attained and bound all values, avg is the mean and lies between them, last and count are right |
| Observability.LinearRegressionSlope | cmd/data-observability-agent/main.go:485-511 | the covariance-over-variance slope, 0 for short, mismatched or constant input |
| Observability.SpreadIsZeroIffEqual | cmd/data-observability-agent/main.go:507-509 | the zero-variance branch is taken exactly when all timestamps are equal |
| Observability.NoSpreadNoSlope | cmd/data-observability-agent/main.go:485-509 | fewer than two points, unequal lengths or equal timestamps give 0 |
| Observability.SlopeIsLeastSquares | cmd/data-observability-agent/main.go:485-511 | unless all timestamps are equal, the line with this slope through the means has the least sum of squared residuals, and no other line attains it |
| Observability.ExactLineIsRecovered | cmd/data-observability-agent/main.go:485-511 | points on a line give back its slope and intercept |
| Agentic.ExecutePlanIteration | internal/controlplane/temporal/agentic_loop.go:279-302 | one pass over a plan, ended by a forbidden write or a failing step marked to stop |
| Agentic.IterationKeyIsInjective | internal/controlplane/temporal/agentic_loop.go:196 | the printed key determines the iteration and the inner key |
| Agentic.IterationKeyIsNotFixed | internal/controlplane/temporal/agentic_loop.go:196 | the printed key is none of the fixed keys nor one the goal check reads |
| Agentic.ContainsString | internal/controlplane/temporal/agentic_loop.go:335-342 | finds a substring exactly when there is one |
| Agentic.Turn | internal/controlplane/temporal/agentic_loop.go:90-261 | one turn of the loop with all its branches |
| Agentic.AgenticLoop | internal/controlplane/temporal/agentic_loop.go:59-276 | the whole run from the first GetPlan to its ending; every turn uses up one of the allowed iterations |
| AgenticHistory.RefinementsFormAChain | internal/controlplane/temporal/agentic_loop.go:120-127 | the refinement log is a chain from the initial plan to the current one in iteration order; feedback is first-come, at most one per iteration; iterations stay within the maximum |
| AgenticHistory.EvidenceIsFaithful | internal/controlplane/temporal/agentic_loop.go:194-197 | for every iteration n that took place, the final evidence under its prefix is exactly what executing the plan the log gives for n returned, nothing if that pass stopped on an error; nothing else carries such a prefix |
| AgenticHistory.GoalIsNeverAchieved | internal/controlplane/temporal/agentic_loop.go:324-333 | no run ends with its goal achieved; a run reported as exhausted is, or was told to stop |
| AgenticEnding.WhoEndsTheRun | internal/controlplane/temporal/agentic_loop.go:90-276 | how every run ends: blocked exactly when a failing, unrefined pass finds the feedback used up; failed, with its error, exactly when the last allowed pass fails and no answer is "stop", "continue" or "modify"; exhausted exactly when the answer is "stop" or the turns are used up; "stop" is only ever the last answer |
| AgenticEnding.EveryTurnIsDecided | internal/controlplane/temporal/agentic_loop.go:90-261 | for every turn: when feedback is taken, which plans are asked for and why, and that log and plan are exactly what the answers grant, an empty plan only to a user |
| AgenticEnding.NotesTellTheRun | internal/controlplane/temporal/agentic_loop.go:95-151 | the fixed evidence keys after every turn: first plan, stop note exactly if signalled, error of the last failed pass, prompt of the last one put to the user |
| AgenticEnding.NoPlanNoRun | internal/controlplane/temporal/agentic_loop.go:77-88 | without a first plan there is no run, only its error |
| AgenticEnding.RefinesOnTrouble | internal/controlplane/temporal/agentic_loop.go:313-321 | evidence asks for a new plan exactly when a key has "error" or "unexpected" inside |
| AgenticHistory.PassFailsWithTheFirst | internal/controlplane/temporal/agentic_loop.go:282-293 | a failed pass fails with the error of the first step that stops it |
| AgenticHistory.PassSucceedsIff | internal/controlplane/temporal/agentic_loop.go:282-298 | a pass succeeds exactly when no step writes without permission and no failing step is marked to stop |
| AgenticHistory.PassRecordsEveryStep | internal/controlplane/temporal/agentic_loop.go:294-298 | with unique step IDs a successful pass returns one entry per step, under the key its outcome calls for |
| AgenticStop.StopSignalsStopNothing | internal/controlplane/temporal/agentic_loop.go:93-108 | changing the stop signals, with all other answers the same, changes nothing but the note in the evidence |
| PlanExecutors.CallTool | internal/controlplane/temporal/activies.go:183-225 | calls the server only past the gate, and reports which check failed otherwise |
| PlanExecutors.GateIsExact | internal/controlplane/temporal/activies.go:193-212 | a call reaches the server exactly when the catalog, tags and scopes permit it and writes, if any, are allowed |
| PlanExecutorEndings.GateNamesTheFirstCheck | internal/controlplane/temporal/activies.go:188-212 | the gate's error names the first failing check: catalog, write permission, first bad tag, first missing scope |
| PlanExecutors.RunStep | internal/controlplane/temporal/workflow.go:201-272 | one step: budget or continue-as-new, approval, call and evidence |
| PlanExecutors.IncidentWorkflow | internal/controlplane/temporal/workflow.go:130-288 | one round of the workflow, from policy to result or continue-as-new |
| PlanExecutors.IncidentWorkflowIterative | internal/controlplane/temporal/workflow_agentic.go:88-236 | up to three plans, until one passes without a failed step |
| PlanExecutors.Orchestrate | internal/controlplane/orchestrator/orchestrator.go:25-117 | the synchronous executor with its own checks |
| PlanExecutorProperties.IncidentIsSafe | internal/controlplane/temporal/workflow.go:130-272 | in every round, and only if the policy allows the task, a step reaches the server only as the original policy's scopes and tags permit, and writes only if it allowed them or an approval was taken before; permitted calls are never held back; steps come in plan order, each at most once; at most one approval is consumed, for a step that writes; a positive budget bounds the calls |
| PlanExecutorEndings.IncidentEnds | internal/controlplane/temporal/workflow.go:130-288 | how every round ends and what it leaves, from the answers: denied or planless rounds call nothing; otherwise the steps are called in order up to the first obstacle, which is the ending, and it completes exactly when there is none; the evidence is the outcomes under the keys they call for |
| PlanExecutorProperties.StartsOverIff | internal/controlplane/temporal/workflow.go:207-212 | a round continues as new exactly when a positive budget is smaller than the plan and that many steps went through, after exactly that many calls; a plan longer than the budget never completes |
| PlanExecutorProperties.IterativeIsSafe | internal/controlplane/temporal/workflow_agentic.go:134-221 | the same across iterations, which come in order: one approval serves them all; there is no budget |
| PlanExecutorEndings.IterativeEnds | internal/controlplane/temporal/workflow_agentic.go:88-236 | how every iterative run ends: denied at once with nothing fetched or called; otherwise by the first of three iterations with no plan, an obstacle, or a pass all of whose steps succeeded, which completes it; with retries when all three passed with a failed step; evidence and calls are those of the iterations up to it |
| PlanExecutorEndings.IterativeKeysDiffer | internal/controlplane/temporal/workflow_agentic.go:170-184 | evidence keys of different iterations, steps or outcomes differ |
| PlanExecutorEndings.OrchestratorEnds | internal/controlplane/orchestrator/orchestrator.go:25-117 | how every run of Orchestrator.Run ends: at the first step beyond the budget, late, in need of approval, a tag or a scope, or failing and marked to stop; it completes exactly when there is none; evidence and requests are those of the steps passed |
| PlanExecutorAgreement.ExecutorsAgreeIff | internal/controlplane/orchestrator/orchestrator.go:62-106 | for every input, both executors serve the same steps in order, end alike at the same step and leave the same evidence exactly when every step taken up is within the budget and in time, needs no approval and passes catalog, tags and scopes |
| PlanExecutorAgreement.ExecutorsAlwaysAgreeIff | internal/controlplane/temporal/workflow.go:201-272 | they agree whatever the tool server answers exactly when that holds of every step of the plan, which can be checked before the run |
| AgentRouting.ScoreAgent | internal/transport/a2a/router.go:301-327 | 50 for the task type, 10 per matching tag, the weight, 0.1 for a name |
| AgentRouting.ScoreAgentWithOptions | internal/transport/a2a/router.go:329-364 | adds the learned weight clamped to the cap |
| AgentRouting.Route | internal/transport/a2a/router.go:182-289 | the errors, and otherwise the chosen one of the ranked candidates |
| AgentRouting.ChooseTied | internal/transport/a2a/router.go:224-248 | the early-breaking tie scan and the pick among the tied |
| AgentRouting.ChooseSoftmax | internal/transport/a2a/router.go:251-284 | cumulative selection among the top N |
| AgentRouting.SortRanks | internal/transport/a2a/router.go:209-215 | the sort yields a permutation ordered by score, then ID |
| AgentRoutingProperties.RankingIgnoresOrder | internal/transport/a2a/router.go:195-215 | with distinct IDs every order of the agent list gives the same ranking, so the same choice in every mode |
| AgentRoutingProperties.DeterministicChoiceIsCanonical | internal/transport/a2a/router.go:209-248 | with distinct IDs the choice is the one candidate of maximal score and least ID, for every order of the agent list |
| AgentRoutingProperties.TieScanCollectsExactly | internal/transport/a2a/router.go:225-234 | for a non-negative epsilon the scan collects exactly the candidates within epsilon of the best |
| AgentRoutingProperties.LearnedInfluenceIsBounded | internal/transport/a2a/router.go:351-361 | for every weight table the chosen agent's static score is within twice the cap, plus epsilon under the random tie-break, of the best |
| AgentRoutingLaws.AheadIff | internal/transport/a2a/router.go:209-215 | of two agents of the type one is ranked ahead exactly when it leads by 50 for the task type, 10 a requested tag, the weights, 0.1 for a name and the limited table entries, or they are even and its ID is less |
| AgentRoutingLaws.LargerEntryIsAhead | internal/transport/a2a/router.go:351-361 | of two agents alike but for the ID, the one with the larger limited table entry is ranked ahead |
| AgentRoutingLaws.NoEntryNoInfluence | internal/transport/a2a/router.go:331-350 | with the weights off, or without an entry for any agent, the table changes nothing |
| AgentRoutingLaws.SoftmaxIsScaleFree | internal/transport/a2a/router.go:262-272 | the weights depend only on score differences in units of the temperature |
| AgentRoutingLaws.DefaultOptions | internal/transport/a2a/router.go:252-261 | options that are not positive stand for 5 candidates and temperature 1; the top is cut to the candidates there are |
| AgentRoutingProperties.SoftmaxPartitionsTheUnitInterval | internal/transport/a2a/router.go:273-283 | each draw falls in exactly one cumulative interval and the loop returns its index |
| AgentRoutingProperties.SoftmaxFavoursTheRanking | internal/transport/a2a/router.go:251-284 | the pick is within the top N, intervals are positive and never longer for a worse rank |
| RunbookIds.ValidateRunbook | internal/runbooks/validate.go:13-104 | accepts exactly the runbooks with ID, version, name and steps whose step IDs are non-blank and distinct; otherwise the error names the first blank field or the first offending step and its offence |
| RunbookIds.NormalizeIDs | internal/runbooks/normalize.go:13-30 | namespaces every step ID unless the runbook has no ID or version |
| RunbookIds.NormalizeIsIdempotent | internal/runbooks/normalize.go:12-43 | normalising twice is normalising once, for every runbook |
| RunbookIds.NormalizeChangesIdsOnly | internal/runbooks/normalize.go:13-43 | nothing but step IDs changes, places and other fields stay; a non-blank ID outside the namespace gets it in front of its trimmed text, any other stays |
| RunbookIds.NamespacesMeetIff | internal/runbooks/normalize.go:32-43 | two steps outside their namespaces get one ID exactly when one namespace extends the other and the step of the shorter one begins with what it lacks |
| RunbookIds.NamespacesKeepApart | internal/runbooks/normalize.go:9-30 | without colons in IDs and versions, two steps outside their namespaces get one ID exactly when runbook ID, version and step ID are the same |
| RunbookIds.ColonsMixNamespaces | internal/runbooks/normalize.go:18-22 | with a colon, different runbooks can share a namespace and then all step IDs |
| RunbookIds.CollideIffClash | internal/runbooks/normalize.go:32-43 | two different IDs, whatever they are, collide exactly when they are outside the namespace and differ only in white space around them, or one is the namespace followed by the other, which is outside it |
| RunbookIds.ClashesAreAccepted | internal/runbooks/validate.go:27-35 | every pair of IDs that collide occurs in a runbook validation accepts |
| RunbookIds.SpelledOutIdCollides | internal/runbooks/normalize.go:38-41 | a step outside the namespace and its spelled-out twin are such a pair |
| RunbookIds.PaddedIdsCollide | internal/runbooks/validate.go:32-35 | a step outside the namespace and the same step with a blank after its ID are such a pair |
| RunbookIds.KeysAreSharedIff | internal/controlplane/temporal/runbook_activities.go:197-204 | two workflow and step IDs share a key exactly when they are the same, or one workflow ID extends the other by a colon and what the step ID has before a colon; so never without colons |
| RunbookIds.ColonsConfuseWorkflows | internal/controlplane/temporal/runbook_activities.go:201-204 | with a colon in a workflow ID two workflows can share a key |
| RunbookIds.KeysAreDistinctIff | internal/controlplane/temporal/runbook_activities.go:197-204 | for every accepted runbook the keys of the normalised steps are pairwise distinct exactly when there is one step, or the workflow has an ID and no two step IDs collide |
| TaskIds.SanitizedShape | cmd/control-orchestrator/main.go:755-766 | at most 64 characters of `[a-zA-Z0-9_-]` with no leading dash, cut at exactly 64 if at all |
| TaskIds.SanitizeTwiceIff | cmd/control-orchestrator/main.go:755-766 | sanitising again changes nothing exactly when nothing had to be cut or the cut does not fall right after a dash |
| TaskIds.CutCanLeaveADash | cmd/control-orchestrator/main.go:762-764 | cutting to length can leave such a dash |
| TaskIds.OthersBecomeOneDash | cmd/control-orchestrator/main.go:755-762 | a run of other characters between kept ones becomes exactly one dash |
| TaskIds.TimesTellTasksApart | cmd/control-orchestrator/main.go:768-775 | task IDs of one tenant at different times differ |
| TaskIds.TaskIdRoundTrip | internal/middleware/tenancy.go:110-125 | the tenant comes back from its task ID exactly when its sanitised form is non-empty, does not contain `-task-` and does not end in `-task` |
| ExecAgent.StubExecAgent.GetCached | cmd/data-exec-agent/main_stub.go:90-100 | returns a live entry, drops an expired one |
| ExecAgent.StubExecAgent.PutCached | cmd/data-exec-agent/main_stub.go:102-106 | stores one entry with its expiry |
| ExecAgent.StubExecAgent.HandleTask | cmd/data-exec-agent/main_stub.go:72-87 | answers from the cache or executes and stores |
| ExecAgent.ExecutesOncePerTtl | cmd/data-exec-agent/main_stub.go:72-106 | in every sequential history a keyed request executes exactly when no execution under its key is less than 24 hours old; otherwise it gets the most recent execution's output |
| ExecAgent.ExecutedAnswersForItself | cmd/data-exec-agent/main_stub.go:72-87 | a request that executes answers with its own output, and one without a key always executes |
| ExecAgent.ExecutionsAreTtlApart | cmd/data-exec-agent/main_stub.go:72-106 | two executions under one key are at least 24 hours apart, and the first one's output is served in between |

## Left out

- Temporal's retries, timeouts, timers and replay: an activity has one outcome, and a poll for signals delivers an arbitrary list of them.
- Integer width: versions, counters and times are unbounded; 2^63 deltas are out of reach.
- Floating-point rounding, NaN and infinity; `fmt.Sprint` and `ParseFloat` coercions.
- The seed digest and random generator behind the router's draws: the draws are inputs.
- Aliasing: maps and slices that Go shares between memory, results and evidence are values here; reserved bucket fields that no delta touches are not modelled.
- Timestamps in refinement entries, evidence and `WorkflowStatus`, and the status fields that only mirror the ending for clients.
- Handoff packets, `CompleteEval`, `RecordApproval`, HTTP handlers, JSON and YAML decoding, catalog schemas, JWT, storage, RAG and the LLM router: foreign calls, or members with nothing hard to state.
- `ValidateRunbook` checks other than names and IDs are one arbitrary verdict per step.
- `IncidentWorkflowIterative` enforces no tool-call budget in the source, so none is stated for it.
- Concurrency between the exec agent's lookup and store: only sequential histories are covered. `RateLimiter.Allow` holds its lock throughout, so its calls are sequential.
