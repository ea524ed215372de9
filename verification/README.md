# Verified models of the agent platform's protocols

This project models the parts of the platform in which several functions, and often several
processes, have to agree over a whole run, and proves in Dafny 4.11 what they guarantee.
Stores, queues and remote services appear as maps and counters whose single operations are
atomic; a remote call may fail, before or after taking effect. `dafny verify dfyconfig.toml` checks
the whole project. Automatic induction is switched off on every lemma (`{:induction false}`): each
inductive proof is written out.

| file | what it models |
|---|---|
| `ToolExecution.dfy` | the batch loop over tool calls under policy, and its re-run with one call exempt |
| `ToolApproval.dfy` | the shared review row: pausing, claiming, deciding, racing and retried resumes |
| `Orchestrator.dfy` | one conversation turn and its resume, with cost, token and memory records; the joint safety result |
| `AuditChain.dfy` | the tamper-evident event chain written in three steps |
| `RateLimits.dfy` | fixed-window request counters, with any number of requests between their Redis commands |
| `Budget.dfy` | the recorded monthly spend and the writes that can rewind it |
| `SoftBudget.dfy` | requests admitted on that record, and how far they overshoot the budget |
| `Deployment.dfy` | the staged deployment record, policy gate, pull request, live version and manual approval |
| `ApprovalRaces.dfy` | that deployment with every stage update and approval split into its read and its put, and any number of approvers |
| `PullRequests.dfy` | what becomes of that deployment's pull request, in every such run |
| `SecondApprovals.dfy` | what a second approver can still do once one approval has landed |
| `LiveVersion.dfy` | the live version on the agent's record, beside the record's other writers |
| `GitTrigger.dfy` | the git half of triggering a deployment, with overlapping and failing attempts and merges |
| `PlatformUpgrade.dfy` | registering, switching to, checking and rolling back a task definition |
| `UpgradeRaces.dfy` | any number of such upgrades at once, sharing the service |
| `Quarantine.dfy` | the document scan that moves bad objects to a quarantine prefix |
| `Guardrails.dfy` | the two-layer guardrail decision over an input or an output |
| `SecretCache.dfy` | the cached secret lookup and the two-key rule |
| `KeyRegistry.dfy` | provisioning, rotating and revoking keys beside every other whole-record write of the agent |
| `ChangeImpact.dfy` | the rules a configuration change matches, its level and its validations |
| `Common.dfy` | values shared by the others |

Each class method is proved equal to a specification function on its old state; the lemmas are
about those functions and about runs of small steps built from them. What such a function gives is
also stated without calling it, in the method's contract or in a lemma beside it. Where several processes
share a store, a small-step machine lets them interleave between any two of their calls to it,
and a process that dies simply stops taking steps; what is instead taken one process at a time
is listed under "Left out".

## What the code does that its prose does not say

- `_decide` reads a review and later overwrites the whole row. Claims are bounded by one plus the
  number of puts that erase a claim, and that bound is reached for every number
  (`ToolApproval.ClaimsBoundedByErasures`, `ToolApproval.ErasuresAllowReruns`). Once a review is
  claimed, a further resume can run the tools if and only if some decider holds a read from
  before the claim and a grant is there or can still come (`ToolApproval.RerunsIff`); with
  atomic decisions it never can (`ToolApproval.ToolsRunAtMostOnce`).
- A review answered with `info_requested` runs the tool like an approval
  (`ToolApproval.InfoRequestRunsTools`).
- A call without an id equals the default exemption `None` and skips the tool policy
  (`ToolExecution.PassShape`).
- The call stored as approved is found by tool name, so an earlier call of the same tool with
  malformed arguments is stored instead (`ToolExecution.MatchIsTheStop`).
- A failed terraform validate stage does not stop the pipeline (`Deployment.ValidateDoesNotGate`).
- A pull request merged between an attempt's check for the workflow file and its branch cut lets
  that attempt replace the file and drop others (`GitTrigger.ALateMergeRaces`); exactly when is
  `GitTrigger.LandingKeepsIff`.
- The quarantine of a prefix without a final slash lies under that prefix, and is scanned again
  (`Quarantine.QuarantineIsApartIff`, `Quarantine.SecondScanIsCleanIff`).
- The note that an unsure toxicity score had no second layer to go to is missing as soon as any
  other local check is on (`Guardrails.NotedIffAlone`); switching the toxicity check on can let a
  blocked input through (`Guardrails.ToxicityCheckCanAllow`).
- Rotation, revocation and every other update of an agent read its whole record and put it back
  whole. A revocation is undone if and only if a put lands whose read preceded it: a deployment
  that goes live meanwhile is enough. Until then no key works, however often the key is rotated,
  although the revocation endpoint names a rotation as the recovery
  (`KeyRegistry.RevocationUndoneIff`).
- Two approvers can both find a deployment unapproved, and then two finishing runs work on one
  record. What the gate promises survives any number of them, the order of the stages need not;
  exactly when it can break is `ApprovalRaces.OrderBreaksIff` before an approval has landed and
  `SecondApprovals.OrderBreaksAfterOneIff` once one has.
- The live version is rewound if and only if some other write of the agent's record lands after a
  deployment made its version live and had read the record before
  (`LiveVersion.RewoundIff`); the deployment then still reports ACTIVE.
- Nothing keeps a second platform upgrade from starting while the first is checked. If it reads
  the service's revision while that revision is being tried, the service can end up on a rejected
  one; short of a failure branch that raises, only then (`UpgradeRaces.ReadingIsSafeIff`,
  `UpgradeRaces.EndsRejectedIff`).
- The workflow path follows the tenant's provider setting at every attempt. After a change of
  provider the next attempt does not find its file and, omitting the base tree, replaces the whole
  default branch; an undisturbed attempt keeps the branch if and only if its own provider's
  workflow, or nothing but the auto-init commit, is on it (`GitTrigger.AttemptKeepsIff`).
- Two writers that read the same chain tail fork the event log for good; exactly which
  interleavings keep it one list is `AuditChain.OneListIff`.
- The recorded spend is a field of the agent record, so any whole-record write of the registry
  store forgets what was charged since its read (`Budget.StalePutForgets`); how much can be missing
  is `Budget.SpendTracksCharges`, and what is charged in total is bounded by the budget, the
  requests in flight and that loss (`SoftBudget.ChargesBounded`). A write that puts back a copy
  above the row can also lift the record past the bound that holds without it; when that can happen
  is `SoftBudget.ExceedsIff`.
- A document in quarantine is overwritten when a different file of the same name is rejected later
  (`Quarantine.QuarantinedSurvivesIff`).
- A review whose notification fails is stored, but the turn raises instead of answering that it
  awaits approval (`Orchestrator.AgentOrchestrator.Run`).
- `create_pull_request` names `main` as the base whatever the configured default branch is; the
  model takes them to be the same branch.

## Model

| member | source | states |
|---|---|---|
| `ToolExecution.ToolExecutor.Enforce` | services/agent-runtime/tool_policy.py:93-125 | what each policy decision gives, by the policy alone: HIGH and DESTRUCTIVE stop for approval, no policy or one not allowed is denied, an unrecognised risk level raises without an event; which audit event is written |
| `ToolExecution.ToolExecutor.ExecuteCall` | services/agent-runtime/tool_executor.py:115-169 | one call: unknown tool and bad arguments become results, policy is skipped for the exempt id, an invocation that raises escapes |
| `ToolExecution.CallRecords` | services/agent-runtime/tool_executor.py:115-169 | one call, outright: its entry in the results, its audit events and the invocation with the arguments sent |
| `ToolExecution.ToolExecutor.ExecuteBatch` | services/agent-runtime/tool_executor.py:101-171 | the loop stops at the first exception, with exactly the events and invocations made up to it |
| `ToolExecution.PassShape` | services/agent-runtime/tool_executor.py:107-171 | a pass halts at the first stopping call and no later, leaves one entry in order per call it goes beyond, and invokes exactly the known, parseable, cleared calls up to its stop, once each; a call that policy stops gets through if and only if its id is the exempt one, so with nothing pre-approved if it has none |
| `ToolExecution.PausedAt` | services/agent-runtime/tool_policy.py:62-125 | a pass that pauses stands at a known, parseable HIGH or DESTRUCTIVE call, the one the exception names |
| `ToolExecution.PolicyDecides` | services/agent-runtime/tool_policy.py:62-125 | over a whole pass, from the policy table alone: every invoked call that is not exempt has an allowed policy with risk LOW or MEDIUM, and what stops a pass follows from the policy of the call it stands at |
| `ToolExecution.MatchIsTheStop` | services/agent-runtime/orchestrator.py:265-279 | the name-matched call that is stored is the stopping call if and only if no earlier call of that tool has malformed arguments; otherwise it is a malformed one |
| `ToolExecution.RiskyAtMostOnce` | services/agent-runtime/orchestrator.py:379-382 | over the first pass and a resume, a risky call is invoked at most once, and only the one that paused the turn |
| `ToolExecution.ResumeGetsFurther` | services/agent-runtime/tool_executor.py:107-171 | when the arguments before the stop parse and the Lambdas answer, the resume gets strictly further |
| `ToolExecution.BeforeThePauseTwice` | services/agent-runtime/orchestrator.py:379-382 | known calls before the paused one are invoked exactly twice over both passes, the paused one once |
| `ToolExecution.ResumeCompletes` | services/agent-runtime/orchestrator.py:379-382 | if nothing later is denied or needs approval, the resume completes and each later known, parseable call is invoked exactly once |
| `ToolApproval.ReviewTable.RequestApproval` | services/agent-runtime/tool_approval.py:62-95 | if the put takes effect the stored row is pending, unclaimed and carries the whole turn, also when the put or the notification after it then raises; otherwise nothing is stored |
| `ToolApproval.ReviewTable.TryClaimResume` | services/agent-runtime/tool_approval.py:97-132 | the conditional update succeeds exactly when no claim is there, and changes nothing otherwise; a missing or NULL mark counts as none |
| `ToolApproval.ReviewTable.GetDecision` | services/agent-runtime/tool_approval.py:134-164 | by the fields of the stored row: not found, decided, timed out exactly when a pending row was requested more than its hours, of 3600 seconds each, ago, or still pending |
| `ToolApproval.ReviewTable.RequirePending` | app/modules/hitl/store.py:108-114 | the row is returned exactly when it is a pending record; which error otherwise |
| `ToolApproval.ReviewTable.Decide` | app/modules/hitl/store.py:116-134 | a decision rewrites the whole row as read, keeps a claim it read, and fails on anything not pending |
| `ToolApproval.ClaimsBoundedByErasures` | services/agent-runtime/tool_approval.py:97-132 | any interleaving of resumers and deciders: executions never exceed claims, and claims never exceed one plus the puts that erase one |
| `ToolApproval.ErasuresAllowReruns` | app/modules/hitl/store.py:116-134 | that bound is reached: for every n a run with n erasures and n + 1 executions |
| `ToolApproval.RerunsIff` | services/agent-runtime/tool_approval.py:97-132 | from any reachable claimed state a further resume call can run the tools if and only if a decider holds a read without the claim, and a grant is looked at, held, stored or still open |
| `ToolApproval.ToolsRunAtMostOnce` | services/agent-runtime/orchestrator.py:298-382 | with atomic decisions any number of racing resumes run the tools at most once, only while the status is approved or info_requested |
| `ToolApproval.RefusalIsFinal` | services/agent-runtime/orchestrator.py:344-378 | after a recorded rejection, or a claiming resume that reported timeout, the tools never run |
| `ToolApproval.InfoRequestRunsTools` | services/agent-runtime/orchestrator.py:344-382 | a run in which a request for information alone leads to an execution |
| `Orchestrator.AgentOrchestrator.Complete` | services/agent-runtime/orchestrator.py:183-195 | every LLM call that returns has its cost recorded once, none that raises does |
| `Orchestrator.AgentOrchestrator.Draft` | services/agent-runtime/orchestrator.py:183-242 | the reply before the output check: the first one when it asks for no tools, else the final one after a completed batch; exactly which LLM calls were made |
| `Orchestrator.RecordedIs` | services/agent-runtime/orchestrator.py:183-242 | what one LLM call adds to the recorded cost and tokens: nothing if it raised, and nothing for what it does not report |
| `Orchestrator.AgentOrchestrator.Finalize` | services/agent-runtime/orchestrator.py:408-468 | the answer is the blocked text, the sanitised text or the reply, and exactly it is saved to memory |
| `Orchestrator.AgentOrchestrator.CallTools` | services/agent-runtime/orchestrator.py:199-229 | a batch that needs approval stores a review with the whole batch and the matched id if the put takes effect, and is asked for exactly when put and notification work; nothing else touches the table |
| `Orchestrator.AgentOrchestrator.Run` | services/agent-runtime/orchestrator.py:103-242 | a blocked or paused turn reaches neither LLM nor tools; it awaits approval exactly when the batch needs one and its review could be asked for, and raises when that failed; it answers exactly when every LLM call made returned and the pass completed, with the blocked text, the sanitised text, or the last reply; reported tokens are those of the calls made |
| `Orchestrator.AgentOrchestrator.ResumeAfterApproval` | services/agent-runtime/orchestrator.py:298-405 | undecided or claimed reviews change nothing; otherwise the review is claimed for good and only a grant re-runs the stored batch; it answers exactly when that batch completed and the final LLM call returned, with the text and the tokens of that call |
| `Orchestrator.PausedCallSafety` | services/agent-runtime/orchestrator.py:298-382 | over the life of a review, first pass included: no risky call but the paused one is ever invoked, that one at most once plus the erasures, and at most once when decisions are atomic |
| `AuditChain.SecurityAuditLog.WriteEvent` | app/modules/audit/security_log.py:155-220 | the state after a write that fails at any of its three steps |
| `AuditChain.WritesAreSteps` | app/modules/audit/security_log.py:138-220 | such a write, failing at any of the three, is a run of the small steps from any state other writers have made, and what that run leaves |
| `AuditChain.SameTailSameChain` | app/modules/audit/security_log.py:208-218 | with an injective digest, two verifying lists with the same tail are identical |
| `AuditChain.SameTailSameSuffix` | app/modules/audit/security_log.py:208-218 | the same for lists whose oldest events are gone: they agree as far as the shorter reaches |
| `AuditChain.SequentialOneListIff` | app/modules/audit/security_log.py:210-218 | without overlap the log is one verifying list ending in the tail if and only if no writer died between its put and its advance |
| `AuditChain.SequentialHoldsAll` | app/modules/audit/security_log.py:210-218 | without overlap and failure the list holds every event in order |
| `AuditChain.AlwaysForest` | app/modules/audit/security_log.py:138-153 | any interleaving, any writer dying anywhere: each prev_hash is null or an earlier event's, the tail is null or a stored event's |
| `AuditChain.EveryEventHasOneChain` | app/modules/audit/security_log.py:138-153 | following prev_hash from any stored event reaches null, along the only verifying chain that ends there |
| `AuditChain.OneListIff` | app/modules/audit/security_log.py:138-220 | any interleaving, any writer dying anywhere: the log is one verifying list ending in the tail if and only if each put built on the event stored just before it and the last stored event's writer has advanced the tail last |
| `AuditChain.OverlapForks` | app/modules/audit/security_log.py:138-153 | in every run in which two writers that put had read the same tail, both events name the same predecessor and the log is not one list, however the run goes on |
| `RateLimits.RateLimiter.CheckRateLimit` | services/agent-runtime/quota.py:42-81 | one request's check is a run of the small steps, whatever others do before each of its commands, and ends with the verdict it returns; a command that raises fails open |
| `RateLimits.CountersExact` | services/agent-runtime/quota.py:46-76 | any interleaving of requests, each failing or stopping at any command: no two requests of a window are given the same count in the same life of its counter, and every verdict follows from the counts; while increments are timely a window's counter is the number of its increments and has one life |
| `RateLimits.CountsTell` | services/agent-runtime/quota.py:46-76 | the same outright, for any two requests, either window and any counter |
| `RateLimits.GivenBounded` | services/agent-runtime/quota.py:66-74 | in every reachable state at most so many requests of a window are given a count within a bound per life of its counter, and with one life and every increment answered exactly as many as fit |
| `RateLimits.AllowedBounded` | services/agent-runtime/quota.py:42-81 | in every interleaving, late or failing: at most the limit is allowed per window and life of its counter, so at most twice it in any interval of a window's length while increments are timely; those let through besides are no more than the commands that raised; a request refused by the minute window has not tried the day window |
| `RateLimits.TermsAre` | services/agent-runtime/quota.py:38-64 | the terms of that bound: the length of a window, its limit, and which requests are counted |
| `RateLimits.ExactUnlessExpired` | services/agent-runtime/quota.py:68-71 | a request is given the true count if and only if its window's counter, once there, has not expired; past that it starts again from one, in a second life |
| `RateLimits.RateLimiter.CheckWindow` | services/agent-runtime/quota.py:65-74 | one window: the increment, the expiry on the first, the comparison, as steps among others' steps |
| `RateLimits.ArriveIs` | services/agent-runtime/quota.py:46-64 | a request reads the clock and starts at the first window that has a limit, or is allowed |
| `RateLimits.MinuteIncrIs` | services/agent-runtime/quota.py:65-79 | the INCR of the minute window, outright: which counter, what it becomes, and whether the request sets the expiry, is refused, goes on to the day window or is allowed |
| `RateLimits.DayIncrIs` | services/agent-runtime/quota.py:65-79 | the same for the day window, the last |
| `RateLimits.ExpireIs` | services/agent-runtime/quota.py:36-76 | the EXPIRE: 61 seconds and 25 hours from now on a counter that is alive, and where the request goes on |
| `Budget.AgentRecord.CheckMonthlyBudget` | services/agent-runtime/quota.py:88-108 | refused exactly when there is a budget and this period's recorded spend is above it |
| `Budget.AgentRecord.RecordLlmCost` | services/agent-runtime/quota.py:111-177 | a positive cost is a conditional add and, when refused, a reset, with anything in between and each failing anywhere; undisturbed it is recorded exactly when it lands, and no failure reaches the caller |
| `Budget.SpendTracksCharges` | services/agent-runtime/quota.py:130-177 | any interleaving of recorders, failing anywhere, and whole-record store writes: a period is never overstated, and understated at most by what landed without being taken account of by a write that then replaced the record |
| `Budget.SpendIsTheSum` | services/agent-runtime/quota.py:111-177 | where no replacing write missed a charge of the period, the record is the sum of what landed |
| `Budget.StalePutForgets` | app/modules/registry/store.py:347-412 | a store operation that reads the record and puts it back forgets every charge in between |
| `SoftBudget.OvershootBounded` | services/agent-runtime/main.py:150-167 | k requests in flight, each costing at most C, fetching, checking and recording by split updates, failing anywhere, with store writes and the turn of the month anywhere between: the month's record never shows more than k times C above the budget, or above the most a store write has raised it to |
| `SoftBudget.ChargesBounded` | services/agent-runtime/main.py:150-167 | in every such run the charges that land in a month are at most the budget, k times C and what replacing writes lost of that month |
| `SoftBudget.ExceedsIff` | services/agent-runtime/main.py:150-167 | from any reachable state within budget, without further store reads, the plain bound can be exceeded if and only if a store operation holds a copy above the budget |
| `SoftBudget.OvershootIsReached` | services/agent-runtime/main.py:150-167 | that bound is reached from a new agent for every budget, k and C |
| `Deployment.DeploymentPipelineSimulator.WriteStage` | app/modules/deployment/status_store.py:88-141 | the record after an update of one stage: status, times, summary, overall status and failure fields |
| `Deployment.WriteIs` | app/modules/deployment/status_store.py:88-141 | one stage update field by field: times and summary of the entry, position, status and failure of the record, and nothing else |
| `Deployment.CallIs` | app/modules/deployment/pipeline_simulator.py:270-319 | the four other calls: only an open request is merged or closed, a blocked agent falls back on a live version if it has one, an active one has its version live |
| `Deployment.DeploymentPipelineSimulator.UpdateStage` | app/modules/deployment/status_store.py:88-141 | the write is made as a whole, or the call failed and nothing changed |
| `Deployment.DeploymentPipelineSimulator.AdvanceStages` | app/modules/deployment/pipeline_simulator.py:321-336 | the stages run in order; a failing call leaves a first part of the writes |
| `Deployment.DeploymentPipelineSimulator.RunScanAndPolicyCheck` | app/modules/deployment/pipeline_simulator.py:200-268 | the writes of scanning and the gate, and whether it passed |
| `Deployment.DeploymentPipelineSimulator.Block` | app/modules/deployment/pipeline_simulator.py:270-292 | close the pull request, fall the agent back, mark BLOCKED, in this order; where that ends is in Deployment.RunEnds |
| `Deployment.DeploymentPipelineSimulator.Finish` | app/modules/deployment/pipeline_simulator.py:294-319 | merge, later stages, live version, ACTIVE, in this order |
| `Deployment.DeploymentPipelineSimulator.Run` | app/modules/deployment/pipeline_simulator.py:141-184 | a run makes the whole script of its inputs, or a first part of it when a call fails |
| `Deployment.DeploymentPipelineSimulator.ResumeAfterApproval` | app/modules/deployment/pipeline_simulator.py:186-198 | a resume makes the finishing script, or a first part of it |
| `Deployment.DeploymentPipelineSimulator.CheckApproval` | app/api/v1/agents.py:1414-1458 | which records the endpoint accepts, and the error otherwise |
| `Deployment.DeploymentPipelineSimulator.ApproveDeployment` | app/api/v1/agents.py:1414-1471 | with nobody else at work approval succeeds exactly for an unapproved manual deployment pending approval, and records who |
| `Deployment.RunMoves` | app/modules/deployment/pipeline_simulator.py:141-184 | every run's writes respect the stage order and the gate, and where a run without failures ends: refused, awaiting approval or done |
| `Deployment.RunEnds` | app/modules/deployment/pipeline_simulator.py:141-319 | where a run without failures ends, outright: BLOCKED with its request closed, parked with it open, or ACTIVE with it merged and its version live; without a request or a known repository it stays as it was |
| `Deployment.RunLeaves` | app/modules/deployment/pipeline_simulator.py:141-336 | every stage at the end of such a run: its status, its summary and whether it was ever marked running |
| `Deployment.ResumeLeaves` | app/modules/deployment/pipeline_simulator.py:186-336 | the same at the end of such a resume |
| `Deployment.ResumeEnds` | app/modules/deployment/pipeline_simulator.py:186-319 | a resume without failures ends ACTIVE, its version live and its open request merged |
| `PullRequests.RequestFollows` | app/modules/deployment/pipeline_simulator.py:270-319 | in every reachable state, calls failing and approvals racing: with a request in a known repository, ACTIVE only if it is merged, BLOCKED only if it is closed, merged only if nothing blocked, open while approval is awaited; without one it is never touched |
| `ApprovalRaces.ApprovalEndpoint.RecordApproval` | app/modules/deployment/status_store.py:164-182 | a run of its read, others' steps and its put: the record ends as that read found it, approved, whatever was written since, and a finishing run is scheduled |
| `ApprovalRaces.ApprovalEndpoint.ApproveDeployment` | app/api/v1/agents.py:1414-1471 | accepted exactly when the record first read can be approved; a run of check, read and put with others' steps between, after which the record is what the second read found |
| `ApprovalRaces.PipelineSafety` | app/modules/deployment/pipeline_simulator.py:141-336 | every state reachable by a run and any number of racing approvers, each read and put apart, any call failing: ACTIVE means gate passed, version made live by the last mark, request not closed, approved when manual; BLOCKED means nothing merged, live or begun beyond the gate; nothing happens beyond it unapproved; and while at most one approval has landed the stages are also in order |
| `ApprovalRaces.OrderBreaksIff` | app/api/v1/agents.py:1414-1471 | in any reachable state with no approval landed, the stage order can still break without a further approver if and only if two have passed the check |
| `ApprovalRaces.LatePutBreaks` | app/modules/deployment/status_store.py:164-182 | how: for any inputs, a second approval put over a finishing run leaves a stage running beyond one that is pending |
| `ApprovalRaces.ExclusiveApprovalsAreSafe` | app/api/v1/agents.py:1414-1471 | if no approver passes the check between another's check and put, every reachable state is safe in full |
| `SecondApprovals.OrderBreaksAfterOneIff` | app/api/v1/agents.py:1414-1471 | in any reachable state with one approval landed, the stage order can still break without a further approver if and only if another has passed the check and not put, and the finishing run is under way, or a second such approver is there, or the copy to be put has begun a stage past the first beyond the gate |
| `LiveVersion.RewoundIff` | app/modules/registry/store.py:381-398 | in every run of a deployment, of another version than the live one, beside any writers of the agent's record, the live version is ever rewound if and only if a put lands after a mark whose read preceded every mark |
| `LiveVersion.OldCopyRewinds` | app/modules/registry/store.py:415-479 | how: in every run, a writer that read the record before any mark and puts it back after one restores the version of before, whatever happened between |
| `LiveVersion.PipelineSafety` | app/modules/registry/store.py:381-398 | without such a put everything promised of a deployment holds with the live version on the agent's record; with one, everything but that |
| `Deployment.ValidateDoesNotGate` | app/modules/deployment/pipeline_simulator.py:247-268 | an automated unblocked run ends ACTIVE whether or not validation passed |
| `GitTrigger.AgentRepository.PostRetrying404` | app/modules/git_provider/github.py:77-92 | at most nine posts, stopping at the first answer that is not 404; succeeds exactly when that answer is a success |
| `GitTrigger.AgentRepository.CommitFiles` | app/modules/git_provider/github.py:160-221 | the branch holds one new commit, the files over the parent's tree or the files alone; any failure before the last call changes nothing |
| `GitTrigger.ReachesIff` | app/modules/git_provider/github.py:120-221 | when a commit reaches its ref, outright |
| `GitTrigger.CommittedIs` | app/modules/git_provider/github.py:160-221 | path by path: each file as given last, over the parent tree or alone |
| `GitTrigger.AgentRepository.Propose` | app/api/v1/agents.py:918-944 | branch, commit and pull request, each made or not as the calls fail |
| `GitTrigger.AgentRepository.TriggerDeployment` | app/api/v1/agents.py:831-959 | an attempt leaves the repository as its own events up to the failing call do |
| `GitTrigger.SucceedsAs` | app/api/v1/agents.py:831-959 | the repository after an attempt that gets to the end, outright: the first one leaves the auto-init commit and its files on the default branch, a later one a branch with one commit and an open request |
| `GitTrigger.ReachedIs` | app/api/v1/agents.py:831-959 | which effects an attempt has had, call by call |
| `GitTrigger.WorkflowIsEverywhere` | app/api/v1/agents.py:844-889 | while the settings name one provider, any overlapping attempts, failures and merges: every commit but the auto-init one carries its workflow file, the default branch lacks it exactly while it is that commit, and never loses it |
| `GitTrigger.FixedWorkflowStays` | app/api/v1/agents.py:844-876 | while each provider's attempts generate one text, its workflow file holds no other, however often the provider changes |
| `GitTrigger.UnracedRunsOnlyAdd` | app/api/v1/agents.py:877-959 | in a run without a race, whatever providers it uses, no file of the default branch is dropped and no workflow file on it changes |
| `GitTrigger.LandsAsCommitted` | app/modules/git_provider/github.py:199-221 | a branch cut from the tip it merges into lands exactly as committed |
| `GitTrigger.LandingKeepsIff` | app/api/v1/agents.py:868-944 | landing keeps a workflow file if and only if the cut does not race or the attempt writes it with the same text, and every file if and only if it does not race or generates them all |
| `GitTrigger.ALateMergeRaces` | app/api/v1/agents.py:868-944 | a reachable run, one attempt at a time, in which a merge between check and cut replaces the workflow file |
| `GitTrigger.OneAtATimeOnlyAdds` | app/api/v1/agents.py:831-959 | one attempt at a time, failing at any call, merges outside the check-to-cut gap, each finding its provider's workflow or an empty branch: the default branch only gains files and keeps its workflow files |
| `GitTrigger.JobRacesIff` | app/api/v1/agents.py:862-889 | an attempt undisturbed before its cut races if and only if it cuts without having found its provider's workflow, from a branch with content |
| `GitTrigger.AttemptKeepsIff` | app/api/v1/agents.py:862-944 | an undisturbed attempt, merged at once, keeps the default branch if and only if its provider's workflow is on it or it is the auto-init commit; otherwise the branch is its generated files alone |
| `PlatformUpgrade.Reversion` | lambda_handlers/platform_register_task_definition.py:59-63 | only the value of existing PLATFORM_VERSION entries changes, in place |
| `PlatformUpgrade.Clone` | lambda_handlers/platform_register_task_definition.py:52-67 | the nested loops build the clone the specification gives |
| `PlatformUpgrade.CloneFrame` | lambda_handlers/platform_register_task_definition.py:52-67 | other containers untouched; the runtime container keeps order, names and other keys; exactly the copied keys present, with their values |
| `PlatformUpgrade.CloneAbsorbs` | lambda_handlers/platform_register_task_definition.py:52-67 | cloning a clone is cloning the original for the later target |
| `PlatformUpgrade.UpgradeHandlers.RegisterTaskDefinition` | lambda_handlers/platform_register_task_definition.py:75-107 | the new revision is registered beside the others and both revisions are recorded, or what a failing call leaves |
| `PlatformUpgrade.UpgradeHandlers.WaitStable` | lambda_handlers/platform_update_service.py:39-59 | true exactly when one of twenty polls sees the service on the revision with as many tasks running as desired, and every poll before it was answered |
| `PlatformUpgrade.UpgradeHandlers.UpdateService` | lambda_handlers/platform_update_service.py:28-91 | the pointer moves, then the wait, then the record |
| `PlatformUpgrade.UpgradeHandlers.MarkUpgradeFailed` | lambda_handlers/platform_mark_upgrade_failed.py:34-58 | the service goes back when a previous revision is recorded; the status says so |
| `PlatformUpgrade.UpgradeHandlers.Execute` | step_functions/platform_upgrade_workflow.json:3-47 | the stages in order, and the failure branch from each |
| `PlatformUpgrade.StagesSay` | lambda_handlers/platform_register_task_definition.py:75-107 | what each handler leaves on the upgrade record when its stage is done, and when it failed, with or without its note |
| `PlatformUpgrade.ForwardIsRecoverable` | lambda_handlers/platform_register_task_definition.py:96-107 | wherever the forward stages stop, a moved service has its original revision on record |
| `PlatformUpgrade.UpgradeOrOriginal` | lambda_handlers/platform_mark_upgrade_failed.py:41-58 | one upgrade, failing anywhere: it ends on the clone, exactly when every call works, one of twenty polls sees all desired tasks running on it and the check is healthy; or on the original with ROLLED_BACK exactly when a previous revision was recorded; or the last handler raised with the target still on record |
| `UpgradeRaces.HandlersAreSteps` | step_functions/platform_upgrade_workflow.json:3-47 | every execution of the workflow, with any faults, is a run of the small steps that upgrades interleave by |
| `UpgradeRaces.EndsRejectedIff` | lambda_handlers/platform_mark_upgrade_failed.py:34-58 | any number of overlapping upgrades, failing anywhere: with no further reading of the pointer and no failure branch that raises, the service can come to run the revision of a failed upgrade if and only if it does already or an upgrade that can still roll back has read an unpassed revision of another |
| `UpgradeRaces.ReadingIsSafeIff` | lambda_handlers/platform_register_task_definition.py:36-47 | an upgrade's reading of the service makes that possible if and only if the service is then on a revision between its update and its end |
| `UpgradeRaces.ClearReadsEndWell` | lambda_handlers/platform_register_task_definition.py:36-107 | when all upgrades are over the service runs an accepted revision if and only if it runs no rejected one; and if no upgrade reads while a revision is tried or was left behind, it never runs one that was rolled back, ends on the original or one that passed, and is at most left on one whose own rollback raised |
| `UpgradeRaces.OverlapRestoresTheRejected` | lambda_handlers/platform_register_task_definition.py:36-47 | the instance: a second upgrade started while the first is checked can leave the service on the first one's rejected revision |
| `Quarantine.KnowledgeBase.ScanForPromptInjection` | app/modules/knowledge_base/ingestion_scan.py:125-146 | through the guardrail engine: rejects exactly extractable, non-blank text scoring above the default threshold |
| `Quarantine.KnowledgeBase.CheckDocument` | app/modules/knowledge_base/ingestion_scan.py:79-146 | extension, size and emptiness first, then the injection scan |
| `Quarantine.VerdictIs` | app/modules/knowledge_base/ingestion_scan.py:38-146 | which documents are rejected and why, by extension, size, text and score alone |
| `Quarantine.ExtensionIs` | app/modules/knowledge_base/ingestion_scan.py:79-110 | the extension of any named file: what follows the last dot of its last path component, in lower case, if anything does |
| `Quarantine.NoExtension` | app/modules/knowledge_base/ingestion_scan.py:79-110 | none without a dot, or with one at the start only |
| `Quarantine.LowerIs` | app/modules/knowledge_base/ingestion_scan.py:79-110 | lower case, letter by letter |
| `Quarantine.KnowledgeBase.Handle` | app/api/v1/knowledge_bases.py:501-533 | one object: copy, then delete, then the rejection; and what each failing call leaves |
| `Quarantine.FailureIs` | app/api/v1/knowledge_bases.py:501-533 | when the calls about one document raise, and at which keys it then is |
| `Quarantine.KnowledgeBase.ScanAndQuarantine` | app/api/v1/knowledge_bases.py:477-535 | the loop over a listing, stopping at the first call that raises |
| `Quarantine.QuarantineIsApartIff` | app/api/v1/knowledge_bases.py:467-474 | quarantine keys lie under the scanned prefix if and only if it has no final slash |
| `Quarantine.QuarantineKeyIs` | app/api/v1/knowledge_bases.py:467-474 | the quarantine prefix of any prefix: its final slashes dropped, and -quarantine/ added |
| `Quarantine.ScanSettles` | app/api/v1/knowledge_bases.py:494-535 | for a prefix with a final slash: rejected objects are gone from it and sit byte for byte at their own quarantine keys, all else unchanged |
| `Quarantine.WhatRemainsPasses` | app/api/v1/knowledge_bases.py:494-535 | with a complete listing, every named object left under the prefix passes both checks |
| `Quarantine.NothingLost` | app/api/v1/knowledge_bases.py:517-533 | wherever a scan stops, each document is at its key or at its quarantine key |
| `Quarantine.QuarantinedSurvivesIff` | app/api/v1/knowledge_bases.py:517-533 | a document already at a quarantine key survives a scan if and only if no listed object rejected now goes there with other bytes |
| `Quarantine.SecondScanIsCleanIff` | app/api/v1/knowledge_bases.py:467-535 | an immediate second scan rejects nothing if and only if the prefix has a final slash or the first rejected nothing |
| `Guardrails.GuardrailEngine.ClassifierFor` | app/modules/guardrails/engine.py:82-86 | the cache never shows: the classifier is the factory's |
| `Guardrails.GuardrailEngine.ScoreWithValidation` | app/modules/guardrails/engine.py:88-96 | the whole text's score, or the largest score of a sentence |
| `Guardrails.GuardrailEngine.CheckInput` | app/modules/guardrails/engine.py:128-230 | the decision and its layers for any policy, scores and Bedrock answer |
| `Guardrails.GuardrailEngine.CheckOutput` | app/modules/guardrails/engine.py:232-254 | the output decision and its replacement text |
| `Guardrails.InputBlockedIffLastBlocks` | app/modules/guardrails/engine.py:128-230 | an input is blocked if and only if exactly one layer blocks and it is the last; otherwise none does |
| `Guardrails.OutputBlockedIffLastBlocks` | app/modules/guardrails/engine.py:232-301 | the same for an output; a replacement is only ever a differing text Bedrock returned |
| `Guardrails.BlockedIff` | app/modules/guardrails/engine.py:128-301 | what blocks an input and what blocks an output, outright; a Bedrock call that fails blocks both |
| `Guardrails.DecidedBy` | app/modules/guardrails/engine.py:128-230 | the same of an input from the settings, the classifiers and the answer of Bedrock alone |
| `Guardrails.ToxicityLeads` | app/modules/guardrails/engine.py:131-165 | the first layer is the toxicity verdict, with its score |
| `Guardrails.BlockedByCheck` | app/modules/guardrails/engine.py:167-209 | an input blocked by a check ends with the first one in order over its threshold, with its score |
| `Guardrails.BlockedByBedrock` | app/modules/guardrails/engine.py:210-230 | an input blocked by neither ends with the answer of Bedrock, or its failure |
| `Guardrails.LoweringIsSafe` | app/modules/guardrails/engine.py:128-230 | lowering any thresholds never allows a blocked input |
| `Guardrails.ToxicityCheckCanAllow` | app/modules/guardrails/engine.py:131-165 | when switching the toxicity check on lets a blocked input through |
| `Guardrails.NotedIffAlone` | app/modules/guardrails/engine.py:217-228 | the missing second layer is noted if and only if no other check is on |
| `SecretCache.ApiKeyAuthProvider.GetSecretValue` | services/agent-runtime/auth.py:63-69 | the live entry or a fresh, stamped read; a missing secret raises |
| `SecretCache.ApiKeyAuthProvider.Authenticate` | services/agent-runtime/auth.py:128-163 | the check through the cache, with its errors, and the cache it leaves |
| `SecretCache.ProvidedIs` | services/agent-runtime/auth.py:128-135 | the key sent is what follows "Bearer " without the blanks around it; no other header sends one |
| `SecretCache.RuleIs` | services/agent-runtime/auth.py:128-163 | the two-key rule case by case, errors included |
| `SecretCache.CheckedThroughCache` | services/agent-runtime/auth.py:63-163 | with any cache the check is that rule on what its two lookups see, entries under 300 seconds first, and what it leaves in the cache |
| `SecretCache.AnswersAreRecent` | services/agent-runtime/auth.py:63-69 | any run of clock, writes, deletions and overlapping fetches: an answer was held within the last 300 seconds plus the latency of a fetch |
| `SecretCache.WrittenOnceAgrees` | app/api/v1/agents.py:1507-1521 | when each ARN is written once the cache agrees with the vault in every reachable state |
| `SecretCache.AgreementIsTransparent` | services/agent-runtime/auth.py:128-163 | with such a cache the check is the uncached two-key rule, errors included |
| `KeyRegistry.AgentRegistry.RotateApiKey` | app/api/v1/agents.py:1507-1521 | a run of the secret's creation, the read and the put, with others' steps between: a taken name or a record without a key is refused; else the record ends as read with the keys moved, and the new secret is there either way |
| `KeyRegistry.AgentRegistry.RevokeApiKey` | app/modules/registry/store.py:467-479 | a run of its read, others' steps and its put: whatever was written between, the record ends as it was read, revoked |
| `KeyRegistry.AgentRegistry.ProvisionApiKey` | app/modules/registry/store.py:415-431 | the same for the first key, whose secret is and stays stored |
| `KeyRegistry.RevocationUndoneIff` | app/modules/registry/store.py:433-479 | in every run from a revoked record the revocation is undone if and only if a put lands whose read preceded it; until then no key is accepted, rotations and provisioning included; and whenever it is undone the current key is accepted again |
| `KeyRegistry.LinearIff` | app/modules/registry/store.py:415-479 | a run is at every moment as good as its jobs one after the other if and only if every landing put carries over nothing that changed since its read |
| `KeyRegistry.AcceptedExactly` | app/modules/registry/store.py:415-479 | in every run without a harmful put a credential is accepted if and only if nothing was revoked and it carries the newest key, or the previous one within its day of grace |
| `ChangeImpact.ChangeImpactAnalyzer.DedupeList` | app/modules/change_impact/analyzer.py:108-115 | the loop keeps each item's first occurrence |
| `ChangeImpact.ChangeImpactAnalyzer.MatchField` | app/modules/change_impact/analyzer.py:64-88 | the rules one entry matches: by name, by block, by tool path |
| `ChangeImpact.FieldRulesAre` | app/modules/change_impact/analyzer.py:64-88 | which rules of the shipped table an entry matches, outright: by its name, by a block that is set, by a tool path |
| `ChangeImpact.ToolPathIs` | app/modules/change_impact/analyzer.py:20-30 | what a tool path is |
| `ChangeImpact.TableIs` | app/modules/change_impact/rules.py:21-40 | the table by level |
| `ChangeImpact.DemandedBy` | app/modules/change_impact/rules.py:21-40 | the table by validation |
| `ChangeImpact.ChangeImpactAnalyzer.AnalyzeDiff` | app/modules/change_impact/analyzer.py:44-105 | the analysis of a diff is that of its entries in order |
| `ChangeImpact.EntriesAre` | app/modules/change_impact/analyzer.py:48-62 | the entries of a diff, list by list |
| `ChangeImpact.DedupeIsASet` | app/modules/change_impact/analyzer.py:108-115 | no duplicates, nothing gained or lost |
| `ChangeImpact.DedupeKeepsOrder` | app/modules/change_impact/analyzer.py:108-115 | results stand in order of first occurrence |
| `ChangeImpact.DedupeAbsorbs` | app/modules/change_impact/analyzer.py:108-115 | deduplicating a prefix first changes nothing |
| `ChangeImpact.OnlyTableRules` | app/modules/change_impact/rules.py:21-40 | every matched rule is a key of the table |
| `ChangeImpact.AnalysisIs` | app/modules/change_impact/analyzer.py:90-105 | level is the highest of the matched rules', validations exactly those they demand, nothing twice |
| `ChangeImpact.ImpactIsMonotone` | app/modules/change_impact/analyzer.py:44-105 | more entries never mean less impact, and their order does not matter |
| `ChangeImpact.ImpactIsAJoin` | app/modules/change_impact/analyzer.py:44-105 | two diffs together have the higher level and the union of rules and validations |

## Left out

- FastAPI routes, request and response models, settings pages, CRUD stores and dependency wiring: plumbing without an invariant across calls.
- boto3, httpx, Redis, DynamoDB, S3 and Secrets Manager internals: atomic maps and counters whose calls may fail.
- SHA-256, ONNX inference, regular-expression sentence splitting, UTF-8 decoding and terraform scanners: parameters of the model, the digest injective where a result needs it.
- JWT validation, prompt generation, the planner, licence checks and metrics: small code without a protocol.
- The configuration diff engine that feeds the change-impact analysis (app/modules/registry/diff.py): only its entries are modelled.
- The text of exceptions, stage output summaries and audit fields, beyond what a later decision reads.
- The fields of the upgrade record that only display progress, such as its stage map and failed stage.
- The deployment record written beside the git attempt, and git providers other than GitHub, whose commit ignores the base-tree flag.
- Quarantine.KnowledgeBase.ScanAndQuarantine: takes one page of a listing with nobody else writing to the bucket, as the loop does; a listing longer than a page and uploads during a scan are not modelled.
- GitTrigger.AgentRepository.TriggerDeployment: one attempt with nobody else at work; overlapping attempts are the runs of the lemmas beside it. Merges are three-way by path, with the outcome of a textual merge of a file both sides edited left open.
- ApprovalRaces.PipelineSafety: one deployment of an agent at a time; two pipelines of one agent racing for its live version are not modelled.
- Deployment.DeploymentPipelineSimulator.ApproveDeployment: check, read and put with nobody in between; with others in between it is ApprovalRaces.ApprovalEndpoint.ApproveDeployment.
- SecondApprovals.OrderBreaksAfterOneIff: once a second approval has landed the stages may be out of order already, and no condition is stated for what can still happen.
- LiveVersion.PipelineSafety: of the agent's record only the live version is followed; its status field is not, and its keys are the subject of KeyRegistry.
- PlatformUpgrade.UpgradeOrOriginal: a single upgrade; overlapping ones are the runs of UpgradeRaces.
- Orchestrator.AgentOrchestrator.Run: the calls that load memory and retrieved documents, save memory and create a pre-LLM review are taken to work, as are the review reads and the claim in a resume.
- ChangeImpact.ChangeImpactAnalyzer.MatchField: what the pattern takes for a digit is a parameter, so any reading of it is covered.
- KeyRegistry.AcceptedExactly: only for runs without a harmful put (the others are KeyRegistry.RevocationUndoneIff and KeyRegistry.LinearIff); keys are plain ASCII, as they are generated.
- Floating point: costs, scores and clock readings are real numbers, so rounding is not modelled.
