# Verification of the approval system

The system runs tools on behalf of users. A high-risk tool is not called before a human has approved the call: the run
stops, its progress is stored in an approval record (in graph mode also in a checkpoint row), somebody decides, and a
resumer continues. This project models that protocol twice, and proves what it promises:

- as **atomic API operations** (`Machine`): one request handler is one step. `Safety`, `Reachability` and `Runs` prove an
  invariant of every reachable state and derive from it that a task has at most one live approval, that no high-risk
  call is made without its approved approval, that stored plan snapshots describe the call log, and which task statuses
  are final. `Stores`, `ToolGateway`, `PlanExecution` and `Services` hold the classes whose methods do these steps in
  place; each method is proved equal to the function it implements, up to `Services.ApprovalSystem.Serve`, which is
  `Machine.Handle`.
- as **single SQL statements** (`GraphProtocol`, `TaskRaces`): any number of submitters, deciders, resumers and expiry
  jobs, interleaved in any way, each of which may stop for good between two statements.

The theorems are about functions: `Machine`, `MultiTool`, `Stores` and, for the MCP client, `McpClient` say what each
handler, executor and statement does. The classes repeat them in place, as the system has them, and are tied to them by
their contracts; a reader who looks for what is proved can pass them over. `StoreLaws` says what the statements of each
store keep over any sequence of them.

`MultiTool` holds both copies of the plan executor, `PlanProgress` what a run adds to the log, and `Transparency` the law
that pausing and resuming make the same calls as one run that never pauses - exactly if what the steps read from the
first pause on is remembered by the payload. `EndToEnd` carries the law to the API: a plan that is submitted, and whose
approvals are all granted, makes those calls. `FailedPlans` says where a plan fails and what becomes of its task.

Laws that compare an operation with itself leave open what it does. `Resolution` says what each call of a plan is called
with: every reference in the step's arguments is replaced by the value at the end of a chain of dict entries and
attributes, and nothing else changes. `GuardLaws` says what keeps a resume from calling anything, and `Outcomes` what each
request leaves in the stores, read off the log. `Histories` lifts that to whole runs: in every reachable state each
approval, the status of its task and the task's calls tell the same story. `SqlAnswers`, `SecretKeys` and `Secrets` do the
same for the SQL guard and the report sanitiser, in terms of characters.

The other modules are the smaller cores: `RateLimits`, `SqlGuard`, `StreamAssembly`, `PiiRedaction`, `Sanitizer`,
`McpClient`, `Budget`, `Percentile`; `Texts` and `Sorting` hold what they share.

Tools are deterministic: a tool's reply is a function of all attempts made before, its name and its arguments. Ids are
numbers from a counter, times are parameters, and whatever else comes from outside (the planner's answer, the injection
guard's verdict, the servers' behaviour) is a parameter too.

## Where the code does not do what it promises

Each of these is proved about the model, with an input and the exact condition.

- A step that reads a *null* result runs when the plan is not interrupted, and is refused as unresolved after an
  approval: the copy of the resolver in the resume service rejects null. The interrupted plan makes the calls of the
  uninterrupted one exactly if what its steps read from the first pause on is remembered (`Transparency.TransparentIff`);
  if no names clash, that is exactly if no called step reads a null from the first pause on
  (`Transparency.TransparentIffNoNull`, `Transparency.NullResultIsNotTransparent`).
- A rejecter that found the approval pending, and loses the race against an approver, still cancels the task and the
  checkpoint of the approved approval (`TaskRaces.RejecterCancelsRegardless`, `TaskRaces.LosingRejecterCancels`).
- A resumer that settles its task before the submitter has saved it loses the status: the task waits for an approval that
  is already consumed (`TaskRaces.SettledIffSavedFirst`, `TaskRaces.LateSaveWaits`).
- Graph mode looks only at the risk level: a tool that the whitelist refuses in keyword mode is called
  (`Runs.GraphIgnoresTheWhitelist`).
- A client that comes back after exactly the announced Retry-After can be denied again; one second more is always enough
  (`RateLimits.QuietAcceptedIff`, `RateLimits.RetryAfterIsTooShort`, `RateLimits.RetryAfterIsEnough`).
- Below a sensitive key the sanitiser keeps what stands under ordinary keys, a database URL with its password included;
  a sanitised report holds such a password exactly if the payload has it there (`Secrets.PasswordShowsIff`,
  `Secrets.InnerPasswordShows`).
- A keyword task whose low-risk call fails is `completed` all the same; in graph mode it is `failed`
  (`Outcomes.KeywordSubmitted`, `Outcomes.GraphSubmitted`).
- Sanitising takes the brackets off an IPv6 host; the second pass over such a report raises
  (`Sanitizer.SanitizeTwice`, `Sanitizer.SecondPassRaises`).
- A tool call that cannot be encoded, and an MCP server that answers with JSON that is no object, make the client raise an
  exception that nothing catches, and its process is kept (`McpClient.EscapesIff`, `McpClient.KeptIff`). Python's
  comparison lets the reply id `true` answer request 1 (`McpClient.AcceptsItsOwn`).
- A multi-tool plan that fails in its first run leaves its task `completed`, where the same stop after an approval makes
  it `failed` (`FailedPlans.FailedPlanIsCompleted`, `FailedPlans.UnregisteredPlanIsCompleted`,
  `FailedPlans.ResumedPlanIsFailed`).

## Model

| member | source | states |
|---|---|---|
| `ToolGateways.RetryBounds` | app/harness/gateway/tool_gateway.py:137-151 | one call makes between one and 1 + max_retries attempts; all but the last raised or returned an error, and if the last did, no retry was left |
| `ToolGateways.CallRecords` | app/harness/gateway/tool_gateway.py:165-260 | success, result, error and retries of the record, by what the last attempt raised or returned |
| `ToolGateways.ToolGateway.CallWithRetry` | app/harness/gateway/tool_gateway.py:195-209 | the retry loop makes exactly the attempts of the specification and reports how many retries it took |
| `ToolGateways.ToolGateway.Call` | app/harness/gateway/tool_gateway.py:97-122 | one call adds one record to the log: of a registered tool it says what the last attempt brought - an exception is a failure with its message, a returned dict with a truthy `error` one with that error, anything else a success - and counts the attempts before it; an unregistered tool is recorded as failed without an attempt |
| `Policies.Evaluate` | app/harness/policy/engine.py:13-52 | only a high risk asks for an approval, and the engine of the source never allows a high risk |
| `Outcomes.GateIs` | app/harness/policy/operation_whitelist.py:38-80 | an approval is asked for exactly for high-risk tools, and the whitelist refuses exactly the other tools with a write, admin or schema scope |
| `MultiTool.Advance` | app/services/multitool_pipeline.py:49-211 | one step of either executor only adds calls; a completed step, and only that, joins the completed ones; a stopped one leaves them and the variables alone, and calls nothing unless it is the call that failed |
| `FailedPlans.StopsByAGuard` | app/services/multitool_pipeline.py:49-200 | a first run does its steps in order and stops by one of the guards, checked in this order: dependencies, registry, policy, references, the call |
| `PlanProgress.PerformProgresses` | app/services/approval_resume.py:405-446 | a performed step moves the plan on by one, in the executor and in the log, exactly if its call succeeds |
| `PlanExecution.PlanExecutor.CheckStep` | app/services/multitool_pipeline.py:49-178 | dependencies come before the registry, and that before the policy |
| `PlanExecution.PlanExecutor.RunPlan` | app/services/multitool_pipeline.py:28-211 | the loop over the plan is the executor's function, whose calls are those of `Resolution.FirstRunCallsSteps`; a pause stores exactly one approval with the snapshot |
| `PlanExecution.PlanExecutor.ExecuteSubsequentSteps` | app/services/approval_resume.py:336-448 | the second copy of the loop skips the completed steps and otherwise is the same function, with the calls of `Resolution.RunCallsSteps` |
| `PlanExecution.PlanExecutor.RebuildSaved` | app/services/approval_resume.py:450-456 | the variables rebuilt from the stored calls |
| `PlanExecution.PlanExecutor.SaveAsOf` | app/services/approval_resume.py:494-498 | the first step with the id decides the variable |
| `PlanExecution.PlanExecutor.ResumeSnapshot` | app/services/approval_resume.py:194-334 | the approved step, then the rest of the plan from the stored snapshot, with the calls of `Resolution.ResumeCallsSteps` |
| `Resolution.WalkIs` | app/services/multitool_pipeline.py:266-278 | a path of parts leads from a value to the end of a chain: each next value is the dict's first entry under the next part, or the attribute of a value that is neither a dict nor null |
| `Resolution.LookupRefers` | app/services/multitool_pipeline.py:254-278 | what a reference resolves to is the end of such a chain from an attribute of the saved record |
| `Resolution.RefersLooksUp` | app/services/approval_resume.py:474-492 | and if there is such a chain, the reference resolves to its end |
| `Resolution.ResolveIs` | app/services/multitool_pipeline.py:241-252 | a value resolves to exactly its copy with every reference replaced by what it refers to - by either copy of the resolver, the second of which takes no null -, with all other values, keys and orders kept; it does not resolve exactly if there is none |
| `Resolution.SavedAfterIs` | app/services/multitool_pipeline.py:202-206 | a variable holds the record of the latest call that saves it |
| `Resolution.RebuildIs` | app/services/approval_resume.py:450-456 | after a pause exactly the variables of successful calls with a result are known, each with the latest such call |
| `Resolution.FirstRunCallsSteps` | app/services/multitool_pipeline.py:45-211 | each call in the log is that of a step, with its tool and its arguments resolved in the variables that the calls before it saved |
| `Resolution.ResumeCallsSteps` | app/services/approval_resume.py:226-448 | so are those of a resumed plan: the approved step first, from the rebuilt variables |
| `Resolution.RunRecords` | app/services/approval_resume.py:405-446 | what each copy of the loop writes to `tool_calls` about each call and about a step it does not call, and what a pause stores of it |
| `Transparency.PauseResumeIsTransparent` | app/services/approval_resume.py:194-448 | for any number of granted approvals: if what the steps read is remembered, the interrupted plan's calls, arguments and results are a prefix of those of the run that never pauses, and all of them with its verdict once it waits no more |
| `Transparency.TransparentIff` | app/services/approval_resume.py:194-448 | with all approvals granted, world and verdict are those of the uninterrupted run if and only if what the steps read from the first pause on is remembered with a value |
| `Transparency.TransparentIffNoNull` | app/services/approval_resume.py:461-492 | for a plan whose names do not clash: if and only if no called step reads a null from the first pause on |
| `Transparency.TransparentWithValues` | app/services/approval_resume.py:450-492 | the law as promised, with variables that may be saved again: every reference has a value |
| `Transparency.ResolvesIff` | app/services/approval_resume.py:461-492 | a value resolves exactly if each of its references does, by either copy of the resolver; what it resolves to is `Resolution.ResolveIs` |
| `Transparency.AgreesIff` | app/services/approval_resume.py:450-492 | strictly from the remembered variables the arguments resolve to what they leniently are in the live ones, exactly if every reference is remembered with a value - or some is lost, where the live ones do not resolve either |
| `Transparency.RunInStep` | app/services/multitool_pipeline.py:45-211 | interrupted and uninterrupted run stay in step from any common step on |
| `Transparency.NullResultIsNotTransparent` | app/services/approval_resume.py:461-472 | a null result that a high-risk step reads stops the interrupted plan only |
| `EndToEnd.GrantedPlanIsTransparent` | app/api/approvals.py:164-256 | in any reachable state, a plan that is submitted and granted every approval it asks for makes exactly the calls of the uninterrupted run under a policy that permits high-risk tools, if and only if what its steps read is remembered |
| `EndToEnd.GrantedPlanIffNoNull` | app/api/approvals.py:164-256 | the same in terms of nulls |
| `EndToEnd.GrantsExist` | app/services/approval_resume.py:272-293 | the approvals of a plan can all be granted: each pause is before a later step |
| `EndToEnd.GrantsAreInterrupted` | app/services/approval_resume.py:111-129 | submitting a plan and granting its approvals is the executor's run with as many resumes |
| `PlanProgress.SkipDone` | app/services/approval_resume.py:345-348 | after an approval the loop goes on where the plan was paused |
| `PlanProgress.RunProgresses` | app/services/multitool_pipeline.py:45-123 | a run keeps the log in plan order, and a pause stores what the log shows |
| `PlanProgress.ResumeProgresses` | app/services/approval_resume.py:226-334 | a failed attempt leaves the plan where it was, a successful one has done the approved step and describes the next pause |
| `PlanProgress.RunCallsNoHighRisk` | app/services/multitool_pipeline.py:87-178 | under the engine's policy a run calls no high-risk tool |
| `PlanProgress.ResumeCallsOnlyApproved` | app/services/approval_resume.py:226-421 | a resume attempt calls no high-risk tool but the approved step's |
| `Stores.SQLiteApprovalStore.DecideApproval` | app/storage/approval_store.py:126-152 | only a pending approval is decided, and the row after it is returned |
| `StoreLaws.RequestedIsFresh` | app/storage/approval_store.py:46-93 | over any sequence of statements a new approval's id was never used before |
| `StoreLaws.FirstDecisionWins` | app/storage/approval_store.py:126-152 | an approval's status is its first decision |
| `StoreLaws.UpdatesAreCounted` | app/storage/approval_store.py:166-181 | its payload counts the failed attempts, and is consumed exactly if some update consumed it |
| `StoreLaws.LastWriteWins` | app/storage/task_store.py:40-113 | a task's status is the last one written since it was saved; a status set before is lost |
| `StoreLaws.CreatedIsFresh` | app/storage/graph_checkpoint_store.py:58-123 | rows are stored under fresh ids and never deleted |
| `StoreLaws.OnlyMarkInterrupts` | app/storage/graph_checkpoint_store.py:144-166 | no other statement makes a stored row `interrupted` or writes its approval |
| `StoreLaws.ConsumedIsNeverClaimed` | app/storage/graph_checkpoint_store.py:168-234 | a row consumed by a resume, a rejection or the expiry stays consumed over every sequence of statements, and is never claimed again |
| `StoreLaws.ResultsStay` | app/storage/graph_checkpoint_store.py:189-205 | a row holds the result last recorded for it, and then is consumed |
| `StoreLaws.ClaimsAreCounted` | app/storage/graph_checkpoint_store.py:168-187 | a row's attempts count its successful claims, of which each uses up one interruption |
| `StoreLaws.ExpiresExactly` | app/storage/graph_checkpoint_store.py:219-234 | the expiry job expires and consumes exactly the unconsumed rows whose time has come |
| `Stores.SQLiteGraphCheckpointStore.ClaimForResume` | app/storage/graph_checkpoint_store.py:168-187 | the claim succeeds exactly on an unconsumed, interrupted, unexpired row of that approval |
| `Stores.SQLiteGraphCheckpointStore.ExpireOutdated` | app/storage/graph_checkpoint_store.py:219-234 | exactly the unconsumed rows past their expiry are expired |
| `Services.ApprovalSystem.SubmitKeywordTask` | app/agent/graph/kernel.py:578-632 | keyword mode: plan, gate, then call or ask |
| `Services.ApprovalSystem.SubmitPlanTask` | app/agent/graph/kernel.py:358-400 | multi-tool mode; only a pause leaves the task waiting |
| `Services.ApprovalSystem.SubmitGraphTask` | app/agent/graph/runtime_adapter.py:43-215 | graph mode with its checkpoints, and the task status that the kernel sets |
| `Services.ApprovalSystem.RunGraphTool` | app/agent/graph/runtime_adapter.py:101-177 | a high-risk tool gets checkpoint, approval and link in this order; any other is called |
| `Services.ApprovalSystem.ResumeKeywordCall` | app/services/approval_resume.py:139-171 | the approved call, and the task status it sets |
| `Services.ApprovalSystem.ResumeMultitool` | app/services/approval_resume.py:194-334 | what the attempt does to approvals and tasks in each outcome |
| `Services.ApprovalSystem.ResumeGraphCall` | app/agent/graph/resume_adapter.py:29-121 | claim, call, then task, checkpoint and payload |
| `Services.ApprovalSystem.ResumeApproval` | app/services/approval_resume.py:41-129 | the dispatch by status, mode and integrity, and the payload update that closes an attempt |
| `Services.ApprovalSystem.CheckIntegrity` | app/harness/policy/operation_whitelist.py:82-106 | the payload names the approval's tool, and its step is one of the plan |
| `Services.ApprovalSystem.GuardedResume` | app/api/approvals.py:97-142 | the injection guard in front of the resume, in every mode: with a blocked payload it changes nothing, which `GuardLaws.BlockedResumeDoesNothing` states of the state machine |
| `GuardLaws.BlockedResumeDoesNothing` | app/api/approvals.py:97-127 | in every state and mode, resuming a payload that the guard blocks does nothing |
| `GuardLaws.BlockedApprovalOnlyDecides` | app/api/approvals.py:164-256 | approving one leaves world, tasks and checkpoints alone and does at most the decision |
| `GuardLaws.TamperedResumeDoesNothing` | app/harness/policy/operation_whitelist.py:82-106 | so does resuming a payload that names another tool than its approval, or a step that its plan does not have |
| `GuardLaws.ResumeRequestCalls` | app/api/approvals.py:97-142 | an approve or resume request that calls anything does so for the task of a live approval whose payload is neither blocked nor tampered with |
| `GuardLaws.EveryCallPassedTheGuard` | app/api/approvals.py:97-142 | over whole runs, each call was added by one request, and if that one approves or resumes, the payload was neither blocked nor tampered with when it arrived |
| `Services.ApprovalSystem.ApproveApproval` | app/api/approvals.py:164-256 | approving, and resuming an approved approval |
| `Services.ApprovalSystem.RejectApproval` | app/api/approvals.py:258-314 | rejecting a pending approval cancels its task and checkpoint |
| `Services.ApprovalSystem.ManualResume` | app/api/approval_ui.py:185-203 | the third entry: an approval that is not approved, or is consumed, is answered before the guard is asked |
| `Services.ApprovalSystem.Serve` | app/api/approvals.py:164-314 | every request does to the stores what the state machine says |
| `Outcomes.KeywordSubmitted` | app/agent/graph/kernel.py:578-632 | a keyword task waits for an approval of this very call exactly if its tool is high-risk; otherwise it is completed, with one call unless the whitelist refuses it |
| `Outcomes.PlanSubmitted` | app/agent/graph/kernel.py:358-400 | a plan's task waits exactly if the run pauses, for an approval that holds its snapshot |
| `Outcomes.GraphSubmitted` | app/agent/graph/runtime_adapter.py:101-177 | a graph task waits exactly for a high-risk tool, behind an interrupted checkpoint linked with its approval; otherwise it is completed exactly if its call succeeds |
| `Outcomes.KeywordResumed` | app/services/approval_resume.py:111-192 | exactly the approved call is made; if it succeeds the approval is consumed with its result and the task completed, otherwise the failure is counted and stored and the task failed |
| `Outcomes.GraphResumesIff` | app/storage/graph_checkpoint_store.py:168-187 | a graph approval is resumed exactly while its checkpoint is interrupted for it, unconsumed and unexpired |
| `Outcomes.GraphResumed` | app/agent/graph/resume_adapter.py:62-121 | exactly the approved call is made, and approval and checkpoint are consumed with its result, whatever it is |
| `Outcomes.PlanResumed` | app/services/approval_resume.py:226-334 | what each verdict of a resumed plan does to the approval, the task, and the next approval |
| `Histories.EveryRunIsTold` | app/services/approval_resume.py:41-334 | in every reachable state: the calls of a keyword or graph task are its approval's attempts, all but the consuming one failed, the stored results say what the log says, and the task's status follows from them; a consumed plan step has finished the plan with all steps done, asked for a later step, or failed with steps left |
| `Safety.ChainingKeepsLive` | app/services/approval_resume.py:272-293 | consuming an approval and asking for the next keeps one live approval |
| `Safety.GatedExtends` | app/services/approval_resume.py:377-421 | grants survive, so the log stays gated if the added calls are |
| `Reachability.PlanKeepsInv` | app/agent/graph/kernel.py:358-400 | a submitted plan keeps the invariant |
| `Reachability.PlanResumeKeepsInv` | app/services/approval_resume.py:194-334 | so does a resumed one, in each of its outcomes |
| `Reachability.KeywordResumeKeepsInv` | app/services/approval_resume.py:111-192 | so does a resumed keyword call |
| `Reachability.GraphResumeKeepsInv` | app/agent/graph/resume_adapter.py:58-121 | so does a resumed graph call |
| `Reachability.RejectKeepsInv` | app/api/approvals.py:258-314 | so does a rejection |
| `Runs.EveryRunIsSafe` | app/api/approvals.py:164-314 | the invariant holds after every sequence of requests whose plans have distinct step ids |
| `Runs.OneLiveApproval` | app/agent/graph/kernel.py:578-621 | a task has at most one live approval: a waiting one exactly one, a completed or cancelled one none |
| `Runs.FinalStatuses` | app/storage/task_store.py:93-113 | completed and cancelled are never left, failed only by resuming a live approval of the task |
| `Runs.FinalForGood` | app/storage/task_store.py:93-113 | a task that once completed or was cancelled stays so over every longer run |
| `Runs.NoUngatedCall` | app/harness/policy/engine.py:13-52 | every high-risk call in the log is the approved step of a stored approval with that tool, task and step, and outside plans with those arguments |
| `Runs.GraphIgnoresTheWhitelist` | app/agent/graph/runtime_adapter.py:101-179 | graph mode calls a registered tool that the policy refuses exactly if the whitelist is on and the tool has a writing scope without being high-risk; otherwise it does in the world what keyword mode does |
| `FailedPlans.FailedPlanIsCompleted` | app/agent/graph/kernel.py:358-400 | a submitted plan's task is completed without the plan having finished exactly if it stops at a step that fails by one of its guards, and waits exactly if it stops at one that needs an approval |
| `FailedPlans.UnregisteredPlanIsCompleted` | app/agent/graph/kernel.py:358-400 | such a plan: nothing is called, and the task is completed |
| `FailedPlans.ResumedPlanIsFailed` | app/services/approval_resume.py:296-307 | the same stop after an approval makes the task failed |
| `Runs.ConsumedForGood` | app/storage/approval_store.py:166-181 | no request changes what an approval asks for, a decision, or the payload of a consumed approval |
| `Runs.ResumedAnswersItsResult` | app/services/approval_resume.py:52-58 | resuming a consumed approval again, ever, calls nothing and answers its first result |
| `Runs.SnapshotsDescribePlans` | app/services/multitool_pipeline.py:46-123 | every stored plan payload holds the ids and records of a prefix of the plan and the next step, whose dependencies lie in it; that of a live approval is up to date with the log |
| `Runs.EachStepOnceInOrder` | app/services/approval_resume.py:345-448 | over all retries and chained approvals a step succeeds at most once, and after its dependencies |
| `GraphProtocol.EveryRunKeepsInv` | app/storage/graph_checkpoint_store.py:144-234 | the invariant of the interleaved protocol holds after every sequence of statements |
| `GraphProtocol.AtMostOnce` | app/agent/graph/resume_adapter.py:58-103 | a checkpoint has at most one resumer past the claim and at most one call, and a call means an approved approval |
| `GraphProtocol.AlreadyResumedAgrees` | app/agent/graph/resume_adapter.py:50-60 | every answer `already_resumed`, read from the payload or from the checkpoint, is the result of the one call made |
| `GraphProtocol.NoUpdateIsLost` | app/agent/graph/resume_adapter.py:88-103 | the winner's payload update stays, on the payload as it was created |
| `GraphProtocol.LostClaimAnswers` | app/agent/graph/resume_adapter.py:123-149 | a resumer whose claim failed answers `already_resumed` exactly if its checkpoint is resumed, and then with the result of the one call; otherwise it fails only before a claim or while one is under way |
| `GraphProtocol.ClaimKeepsInv` | app/storage/graph_checkpoint_store.py:168-187 | the claim makes one winner and shuts out all others |
| `GraphProtocol.ResumerAlone` | app/agent/graph/resume_adapter.py:29-121 | a resume request that nobody interrupts does what the atomic operation does, with its answer |
| `GraphProtocol.RejecterAlone` | app/api/approvals.py:258-314 | so does a rejecter |
| `TaskRaces.TicksAreAlone` | app/agent/graph/resume_adapter.py:29-121 | in a run, too, a process that nobody interrupts does what it does alone |
| `TaskRaces.RejecterCancelsRegardless` | app/api/approvals.py:264-311 | in every reachable state: past its check a rejecter cancels checkpoint and task in any case; the approval is rejected exactly if nobody approved it before its UPDATE |
| `TaskRaces.LosingRejecterCancels` | app/storage/approval_store.py:126-152 | a run that ends with an approved approval whose task and checkpoint are cancelled and whose tool was not called |
| `TaskRaces.SettledIffSavedFirst` | app/agent/graph/resume_adapter.py:88-89 | over all runs of one submitter and one resumer that both finish, the approval is consumed, and the task ends settled exactly if it was saved before it was settled; otherwise it waits |
| `TaskRaces.LateSaveWaits` | app/storage/task_store.py:93-113 | a run in which it waits |
| `RateLimits.InMemoryRateLimiter.AllowRequest` | app/core/request_guards.py:46-58 | pruning, decision and new list of the key; other keys are left alone |
| `RateLimits.AcceptsByTheFullLog` | app/core/request_guards.py:46-58 | a request is accepted exactly if fewer than the capacity of all accepted ones lie in its window |
| `RateLimits.WindowBound` | app/core/request_guards.py:46-58 | no closed window holds more accepted requests than the capacity |
| `RateLimits.RetryAfterBounds` | app/core/request_guards.py:52-55 | the announced delay lies between 1 and max(1, window) |
| `RateLimits.QuietAcceptedIff` | app/core/request_guards.py:46-58 | a denied key that stays quiet is accepted exactly when its oldest hit has left the window |
| `RateLimits.RetryAfterIsEnough` | app/core/request_guards.py:52-55 | one second more than announced is always enough |
| `RateLimits.RetryAfterIsTooShort` | app/core/request_guards.py:52-55 | the announced delay itself need not be |
| `RateLimits.BurstIsAccepted` | app/core/request_guards.py:48-58 | of the requests of one window exactly the first max_requests + burst are accepted, and at least one; a negative burst counts for nothing |
| `RateLimits.RedisRateLimiter.AllowRequest` | app/core/request_guards.py:70-94 | increment, expiry at the first increment, decision; if the store fails at either, the in-memory limiter decides |
| `RateLimits.CountersAreExact` | app/core/request_guards.py:76-82 | a bucket's counter never expires within the bucket, so it counts all its requests |
| `RateLimits.AcceptsPerBucket` | app/core/request_guards.py:80-85 | min(requests, capacity) are accepted per bucket |
| `RateLimits.FixedWindowBound` | app/core/request_guards.py:70-88 | any closed window holds at most twice the capacity |
| `RateLimits.FixedRetryAfterIs` | app/core/request_guards.py:80-85 | the announced delay ends within the last second of the bucket or at its end, or is one second if less is left |
| `SqlGuard.ExtractCommentText` | app/agent/nl2sql/sql_guard.py:103-115 | the texts of line comments and block comments, joined by spaces |
| `SqlGuard.CommentCheckIsRedundant` | app/agent/nl2sql/sql_guard.py:87-101 | without the comment check the guard allows the same statements, with the same SQL |
| `SqlGuard.CommentKeywordIsKeyword` | app/agent/nl2sql/sql_guard.py:87-115 | a blocked keyword in the joined comments is one in the statement |
| `SqlGuard.CheckIsIdempotent` | app/agent/nl2sql/sql_guard.py:28-130 | an allowed statement is allowed again, unchanged; which those are is `SqlAnswers.AllowedIff` |
| `SqlAnswers.AllowedIff` | app/agent/nl2sql/sql_guard.py:28-75 | a text is allowed exactly if, without the whitespace around it, it is not empty, has only semicolons after a semicolon, has none of the eight words as a whole word in any case, and begins with SELECT, or with WITH and mentions SELECT |
| `SqlAnswers.DeniedBecause` | app/agent/nl2sql/sql_guard.py:37-72 | which of the checks denies any other text |
| `SqlAnswers.AllowedSql` | app/agent/nl2sql/sql_guard.py:126-130 | the allowed SQL is the stripped text if it has the word LIMIT, otherwise the text without its trailing semicolons and whitespace, with LIMIT 100 appended |
| `StreamAssembly.ToolCallAccumulator.MergeFragments` | app/agent/nl2sql/provider.py:184-210 | the slots after a list of fragments |
| `StreamAssembly.SlotsAre` | app/agent/nl2sql/provider.py:199-210 | a slot holds the first non-empty id and name and all arguments of its own index's fragments |
| `StreamAssembly.Confluent` | app/agent/nl2sql/provider.py:184-216 | every interleaving that keeps each index's order gives the same list |
| `StreamAssembly.Resplit` | app/agent/nl2sql/provider.py:184-216 | a part of the stream may be replaced by any fragments that say the same of each index |
| `StreamAssembly.CutInTwo` | app/agent/nl2sql/provider.py:209-210 | an arguments string may be cut anywhere |
| `StreamAssembly.MergeConcat` | app/agent/nl2sql/provider.py:184-210 | the cut of the stream into deltas does not matter |
| `StreamAssembly.FinishedList` | app/agent/nl2sql/provider.py:213-216 | one call for each index that occurs, by ascending index |
| `PiiRedaction.DedupOverlap` | app/harness/security/pii_guard.py:59-67 | the kept findings |
| `PiiRedaction.KeptIsDisjoint` | app/harness/security/pii_guard.py:59-67 | they are in range and pairwise disjoint |
| `PiiRedaction.KeptIsMaximal` | app/harness/security/pii_guard.py:59-67 | a finding that is not kept overlaps a kept one |
| `PiiRedaction.KeptKeepsOrder` | app/harness/security/pii_guard.py:59-67 | they are in the order of the findings |
| `PiiRedaction.Redact` | app/harness/security/pii_guard.py:40-57 | the output is woven from the kept findings and the text between them |
| `PiiRedaction.OutsideIsKept` | app/harness/security/pii_guard.py:48-57 | every character outside the kept spans is in the output |
| `PiiRedaction.OrderIsKept` | app/harness/security/pii_guard.py:48-57 | in its order |
| `PiiRedaction.SpanIsMasked` | app/harness/security/pii_guard.py:48-57 | each kept span is replaced by exactly its mask |
| `PiiRedaction.FindingShows` | app/harness/security/pii_guard.py:79-128 | of a kept finding that is no e-mail the output shows the few characters at its ends, each in its place, and a star for every other |
| `PiiRedaction.EmailShows` | app/harness/security/pii_guard.py:69-77 | of an e-mail it shows the first character and the domain |
| `PiiRedaction.WithoutEmail` | app/harness/security/pii_guard.py:79-128 | without an e-mail the output has the text's length and agrees with it outside the spans |
| `Sanitizer.SanitizeTwice` | app/harness/llm/pilot_report.py:264-289 | a sanitised payload is sanitised to itself exactly if no brackets of an IPv6 host were lost; otherwise the second pass raises |
| `Sanitizer.RedactTwice` | app/core/structured_logging.py:88-122 | the same below sensitive keys, with their own rules; what shows there is `Secrets.SanitizeIs` |
| `Sanitizer.ReportIsSanitizedOnce` | app/harness/llm/pilot_report.py:114-121 | sanitising the parts of a report, then the report, then what is read back, is one pass over the report |
| `Sanitizer.PartFirst` | app/harness/llm/pilot_report.py:114-121 | sanitising a part of a report before the report makes no difference |
| `Sanitizer.SecondPassRaises` | app/harness/llm/pilot_report.py:240-247 | an IPv6 database URL with a password |
| `Sanitizer.PromptsDoNotShow` | app/harness/llm/pilot_report.py:257-289 | payloads that differ only below prompt-like keys sanitise to the same tree |
| `SecretKeys.KeysAre` | app/harness/llm/pilot_report.py:250-261 | which keys are sensitive, prompt-like, and sensitive below a sensitive key: by the words they contain and the names that are spared, in any case |
| `Secrets.SanitizeIs` | app/harness/llm/pilot_report.py:223-289 | the whole output, key by key and character by character: of a text under a sensitive key only its first and last two characters, or none, of a database URL no password, of a prompt nothing; structure, keys and everything else stay; there is no output exactly if a URL to be rebuilt has no readable port |
| `Secrets.SecretsDoNotShow` | app/core/structured_logging.py:59-122 | payloads that differ in prompts, in the middle of secret texts, in short secret texts, in secret numbers and flags, and in database passwords sanitise to the same tree |
| `Secrets.PasswordShowsIff` | app/core/structured_logging.py:104-122 | a sanitised payload holds a database password in clear exactly if the payload has it under an ordinary key below a sensitive one |
| `Secrets.InnerPasswordShows` | app/core/structured_logging.py:104-122 | such a payload: it is kept as it is |
| `McpClient.StdioMCPClient.SendRequest` | app/tools/mcp/stdio_client.py:202-251 | one request, its line and its checks |
| `McpClient.StdioMCPClient.SendInitialize` | app/tools/mcp/stdio_client.py:267-289 | the handshake |
| `McpClient.StdioMCPClient.EnsureProcess` | app/tools/mcp/stdio_client.py:351-356 | a dead or missing process is replaced, an uninitialised one initialised |
| `McpClient.StdioMCPClient.RequestToolList` | app/tools/mcp/stdio_client.py:424-444 | two attempts at most |
| `McpClient.StdioMCPClient.RequestToolCall` | app/tools/mcp/stdio_client.py:465-487 | one attempt |
| `McpClient.EveryRunIsProper` | app/tools/mcp/stdio_client.py:163-356 | over every run, for any servers, each event is one that the protocol allows, and the fields agree with the log |
| `McpClient.ToolsAfterHandshake` | app/tools/mcp/stdio_client.py:267-289 | no tool request is written to a process before its accepted initialize response and its initialized notification (MCP 2024-11-05, Lifecycle) |
| `McpClient.AcceptsItsOwn` | app/tools/mcp/stdio_client.py:229-251 | an accepted response is for the last written request, on the same process, and its id equals the request's as Python compares them (section 5 of JSON-RPC 2.0) |
| `McpClient.IdsIncrease` | app/tools/mcp/stdio_client.py:212-214 | request ids strictly increase across restarts |
| `McpClient.OneCallPerOperation` | app/tools/mcp/stdio_client.py:465-487 | a tool call is written at most once |
| `McpClient.EscapesIff` | app/tools/mcp/stdio_client.py:202-289 | an exception escapes exactly if the process cannot be started, the reply to initialize is no object, or the request cannot be encoded or its reply is no object |
| `McpClient.KeptIff` | app/tools/mcp/stdio_client.py:424-487 | after `list_tools` or `call_tool` there is a process exactly if the last attempt succeeded, escaped with one at hand, or was misconfigured with one; every caught failure discards it |
| `McpClient.RequestDoneIff` | app/tools/mcp/stdio_client.py:202-251 | a request has a result exactly if it is answered with an object of version 2.0 that has the request's id, no error and this result |
| `McpClient.NegotiatedIs` | app/tools/mcp/stdio_client.py:267-287 | the reply to initialize is accepted exactly if it is a dict whose `protocolVersion` is one of the three supported ones |
| `McpClient.HandshakeDoneIff` | app/tools/mcp/stdio_client.py:267-289 | the handshake succeeds exactly if such a reply comes and the notification can be written |
| `Budget.LLMBudgetManager.CheckBudget` | app/harness/llm/budget.py:86-148 | the decision by the sum of the scope's events and the given or estimated cost; a disabled manager allows |
| `Budget.LLMBudgetManager.RecordUsage` | app/harness/llm/budget.py:150-173 | the stored costs stay those of the events; a disabled manager records nothing |
| `Budget.LLMBudgetManager.Summary` | app/harness/llm/budget.py:175-211 | by provider and by model, each name has its cost and both sum to the current cost |
| `Budget.DecideIs` | app/harness/llm/budget.py:116-148 | a call is refused exactly if its estimate reaches a positive hard limit, warned about exactly if it reaches a positive soft limit only, and allowed otherwise |
| `Budget.AnswersTighten` | app/harness/llm/budget.py:86-173 | within a scope answers only get stricter, over every longer run and for every larger estimate |
| `Budget.EstimatedCostIs` | app/harness/llm/budget.py:18-32 | the estimate per thousand tokens, with negative prices and counts taken as zero |
| `Budget.PromptTokensIs` | app/harness/llm/budget.py:11-15 | about four characters a token, and one at least for any text |
| `Budget.GroupedIs` | app/harness/llm/budget.py:192-202 | the same of the dict the loop builds |
| `Budget.OvershootIsBounded` | app/harness/llm/budget.py:86-173 | with at most n calls in flight of cost at most c, no scope's total reaches hard_limit + n * c, across rollovers |
| `Percentile.InSampleRange` | scripts/run_llm_pilot.py:293-302 | the percentile lies between the least and the greatest sample |
| `Percentile.PermutationInvariant` | scripts/run_llm_pilot.py:293-302 | it does not depend on the order of the samples |
| `Percentile.MonotoneInRatio` | scripts/run_llm_pilot.py:293-302 | it grows with the ratio, so p50 <= p95 |
| `Percentile.PercentileInterpolates` | scripts/run_llm_pilot.py:293-302 | with k + part for the rank, it lies at `part` of the way from the k-th to the next sample in ascending order |
| `Percentile.LeastIsP0` | scripts/run_llm_pilot.py:293-302 | p0 is the least sample |
| `Percentile.GreatestIsP100` | scripts/run_llm_pilot.py:293-302 | p100 is the greatest |

## Left out

- `auto`, `multi_agent` and `nl2sql` modes, the planners and the keyword tables: their results are parameters or finite case analysis.
- The Postgres stores: their decision reads before it writes, so they belong in neither model.
- Titles, reasons, timestamps, traces, audit records and metrics of approvals, tasks and calls: no decision depends on them.
- Exceptions raised by stores and hooks: store operations succeed, and a gateway call returns a record.
- GraphProtocol.Apply: other modes' approvals do not occur in the interleaved model, which is about graph mode alone; the rest of the system may change the world between any two statements.
- Graph runs without an approval store, and plans that the planner did not match.
- Runs.EveryRunIsSafe: the step ids of a submitted plan are distinct, as the planner's are; nothing in the executor checks it.
- Resolution.ResolveIs: what Python's attribute lookup finds on a value that is neither a dict nor null is a parameter; on null it finds nothing.
- Transparency.PauseResumeIsTransparent: asks for distinct step ids and for references of the form `$v.result...`; other attributes of a record differ between its two stored forms.
- SqlGuard.Check: letters, digits and whitespace are those of ASCII; Python's regular expressions and `upper` know more.
- RateLimits.AcceptsByTheFullLog: capacity and window of a key are fixed, and its clock does not run backwards.
- RateLimits.RedisRateLimiter.AllowRequest: the window is positive; the bounds on accepted requests are for a store that does not fail.
- GraphProtocol.Step: `update_task_status` reads the row before it updates it; as rows are never deleted, that is one statement here.
- PiiRedaction.Redact: findings are arbitrary non-empty spans in the order of `detect`; the patterns themselves are not modelled.
- Sanitizer.Sanitize: URLs are already split, without surrounding whitespace; letters and whitespace are those of ASCII, and keys are strings.
- McpClient.Request: threads, pipes, timeouts, the captured stderr and the mapping of results to tools; only lines written and replies read are kept.
- Budget.OvershootIsBounded: costs are reals, and the number of calls in flight is bounded by the callers.
- Trajectory scoring (`app/harness/eval/trajectory.py`): a finite case analysis that would only add easy members.
- JSON text, SQL text, database connections and datetime formats: stores are maps of records.
