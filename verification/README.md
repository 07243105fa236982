# Verified model of the agent platform's core

This project models five parts of the platform and proves what they promise, for every input,
every interleaving and every run.

- **Sandbox execution** (`Sandboxes`, `SandboxProtocol`, `SandboxServices`). A sandbox row is
  shared by provision, tool execution, termination and the recovery sweep. Each `with uow` block
  is one atomic action of a transition system, calls in the gap between two blocks are part of
  the state together with the copy they carry, and a run is any sequence of actions of any calls,
  crashes included. The service methods are proved to perform exactly such runs, with arbitrary
  actions of other calls inside their gaps.
- **Agent loop with a human gate** (`Invocations`, `AgentLoop`, `AgentRuntime`, `Conversations`,
  `Transcripts`, `InvocationHistory`, `Stranding`, `Settling`, `Accounting`, `StoredCalls`,
  `GateRefinement`, `DecisionRaces`).
  `AgentLoop` says what an execution and each later decision do, as functions of an arbitrary
  world: the k-th model call, tool call and look at the clock get the k-th answer of that world.
  Every lifecycle transition in it goes through a function whose precondition is the transition
  table, so that an illegal transition cannot be written down. `AgentRuntime` holds the handlers
  and loops as they run, on objects that change in place, each proved equal to its function. The
  other modules prove the transcript protocol, the lifecycle, the accounting and the refinement
  over whole lives: one execution followed by any sequence of decisions, one after the other.
  `Conversations` says what the model is told of every tool call and where each turn leads.
  `Stranding` and `Settling` say exactly when an uncaught exception leaves an invocation behind,
  and `DecisionRaces` what decisions do that overlap or crash, with their load and each of their
  saves as separate steps.
- **Artifacts and their lineage** (`Lineage`, `Artifacts`, `ArtifactStore`, `ArtifactService`,
  `ArtifactHistory`). The breadth-first cycle check, the artifact and its provenance, the
  transactions of the service as atomic steps with their outbox events, and what holds after every
  history of them. A lineage request is two transactions, the endpoint's check and the service's
  write, with anything of other requests between them.
- **Rate limiter** (`RateLimiter`, `RateLimiterHistory`, `RateLimiterTightness`,
  `RateLimitMiddleware`). The pruned and swept counter against a limiter that never forgets,
  with real-valued times and integer windows.
- **Text repair and truncation** (`Utf8`, `Cp1252`, `Utf8Repair`, `Truncation`). A UTF-8 codec
  after sections 3 and 4 of RFC 3629, the Windows-1252 table, the repair loop and the byte limit
  on tool output.

Four properties that one would expect are false of the code, and are stated exactly as far as
they hold. A fifth holds only because of a check elsewhere.

- Not every committed change of a sandbox follows the transition table: a slow provision saves
  READY over the FAILED of a sweep (`SandboxProtocol.ProvisionOverwritesSweep`), or over TERMINATED
  (`ProvisionRevivesTerminated`). A save follows the table if and only if it is not a carried copy
  over a row that has changed meanwhile (`FollowsTableUnlessOverwriting`), and TERMINATED is final
  if and only if no provision of the sandbox is under way (`GoneForGoodExactlyWhenProvisioned`).
- Decisions that overlap can let the gated calls go twice and close an invocation twice
  (`DecisionRaces.OverlappingApprovalsBothResume` and `ApprovalSendsFirstCall`,
  `OverlappingDecisionsCloseTwice`), because nothing locks it between the load and the saves. Both
  kinds of events are exactly as many as the decisions that loaded the pause and were to write one,
  less those that crashed first (`PauseCountsLoads`); each is written at most once if no decision
  loads while another is under way, whatever crashes. From a given moment on there is at most one
  if and only if a first save has been made, and no more than one event has been written or is
  owed by decisions under way (`StaysSingleExactly`).
- An exception can leave an invocation behind in a status that is not its last. A request is safe
  from that, for every model, clock and decisions with text that can be encoded, if and only if
  nothing can be dispatched at all (no turns, no service or no budget), or it has no sandbox id, or
  its id parses and every reply of the tool service can be put before the model
  (`Settling.AlwaysSettlesExactlyWhenSafe`). If overrides may hold any text, it must not be possible
  to pause either (`AlwaysSettlesWithAnyTextExactly`).
- The limiter's sweep forgets requests that still count when a window is longer than 120 seconds
  (`RateLimiterTightness.SweepForgetsLongWindow`); it is harmless if and only if the window is at
  most that long or the tier admits nothing (`AgreesExactlyWhenSweepIsSurvived`).
- Reading one workspace's edges is not enough to find a cycle by itself
  (`Lineage.OpenWorkspacesHideCycles`); it is enough because the endpoint keeps both ends of every
  edge in one workspace (`ArtifactHistory.WorkspaceCheckIsGlobal`).

Where the code differs from what its comments suggest, the model follows the code: after a pause
no further call is gated, a gateway error with code TIMEOUT fails a resumed invocation but times
out a fresh one, an override continues without looking at the clock between tools, and a turn
that was overridden and is followed by malformed calls completes the invocation.

## Model

| member | source | states |
|---|---|---|
| SandboxProtocol.AtMostOneExecution | apps/execution-service/src/application/tool_execution_service.py:66-220 | in every interleaving of provision, claim, finish, terminate, sweep and crash, at most one execution is in flight per sandbox, and none while the row is READY, IDLE or PROVISIONING |
| SandboxProtocol.RunIsExclusive | apps/execution-service/src/application/ports.py:40-63 | the inductive invariant behind it holds after every run: calls in their gaps fit the stored row, and no two provision or execute in one sandbox |
| SandboxProtocol.StepIsExclusive | apps/execution-service/src/application/recovery_service.py:109-146 | every single action, the sweep of a busy sandbox included, keeps that invariant |
| SandboxProtocol.ExecutionsNeverOverlapInOutbox | apps/execution-service/src/application/tool_execution_service.py:85-220 | between two execution requests of a sandbox the outbox always holds the answer to the first, so an abandoned execution blocks further claims |
| SandboxProtocol.RunFitsLog | apps/execution-service/src/application/tool_execution_service.py:172-220 | requests and answers alternate in the outbox, and a call in flight is the unanswered one |
| SandboxProtocol.AnswersComeFromFinishes | apps/execution-service/src/application/tool_execution_service.py:193-302 | a success or failure in the outbox of any run comes from the finishing block of that very execution, which reported just that |
| SandboxProtocol.OutboxDeterminesStatus | apps/execution-service/src/application/sandbox_service.py:64-207 | the last event of a sandbox in the outbox gives its stored status after every run, carried copies included |
| SandboxProtocol.CarriedCopiesCanMove | apps/execution-service/src/application/sandbox_service.py:94-128 | the transitions that second blocks make on carried copies are always legal |
| SandboxProtocol.FollowsTableUnlessOverwriting | apps/execution-service/src/domain/sandbox.py:53-78 | a committed save is an edge of the transition table if and only if it does not overwrite a status other than the one the carried copy was made from |
| SandboxProtocol.ProvisionOverwritesSweep | apps/execution-service/src/application/sandbox_service.py:119-128 | the run in which a finished provision saves READY over a swept FAILED |
| SandboxProtocol.GoneForGoodExactlyWhenProvisioned | apps/execution-service/src/domain/sandbox.py:80-84 | a TERMINATED row stays so under all later actions if and only if its provision is no longer under way |
| SandboxProtocol.ProvisionRevivesTerminated | apps/execution-service/src/application/sandbox_service.py:119-128 | the run that shows that this condition can fail: a swept sandbox is terminated, and its provision then saves READY over TERMINATED |
| SandboxServices.ExecutionService.ProvisionSandbox | apps/execution-service/src/application/sandbox_service.py:34-148 | both blocks with anything of other calls between them are that run of the protocol; the final status is READY or FAILED as the backend decides, whatever came between, and the last event says the same |
| SandboxServices.ExecutionService.TerminateSandbox | apps/execution-service/src/application/sandbox_service.py:151-214 | terminates exactly the rows that may move to TERMINATING and writes that it did, as that run of the protocol, and otherwise changes nothing |
| SandboxServices.ExecutionService.ClaimForExecution | apps/execution-service/src/application/tool_execution_service.py:66-104 | claims exactly READY or IDLE rows of an allowed type: the row is EXECUTING and the request is in the outbox; or it refuses with the right error and changes nothing |
| SandboxServices.ExecutionService.FinishExecution | apps/execution-service/src/application/tool_execution_service.py:172-302 | the finishing block, of success and failure alike: a row that is there becomes IDLE, and the last event is the success or the failure of this very call; it fails, committing nothing, exactly when the row is no longer EXECUTING |
| SandboxServices.ExecutionService.ExecuteTool | apps/execution-service/src/application/tool_execution_service.py:37-236 | the whole call is claim, others, finish; refused calls change nothing; the outcome reported for each case; the last event is the success of this call if the command exited with 0, and its failure otherwise |
| SandboxServices.ExecutionService.ListStuck | apps/execution-service/src/infrastructure/db/repositories.py:100-114 | gives at most 100 candidates, distinct and oldest first; one is left out only when the limit is reached by candidates at least as old |
| SandboxServices.ExecutionService.RecoverSingleSandbox | apps/execution-service/src/application/recovery_service.py:82-168 | decides on the row as it is after the backend cleanup, and reports which of four things it did; a transaction that fails commits nothing |
| SandboxServices.ExecutionService.RecoverStuckSandboxes | apps/execution-service/src/application/recovery_service.py:37-79 | one result for each listed sandbox past its own timeout, in order and without repetition; commits exactly the actions of others and its own sweeps, in that schedule; undisturbed it fails exactly those rows |
| SandboxServices.SweepHandlesTheStuck | apps/execution-service/src/application/recovery_service.py:49-71 | the sandboxes handled are distinct and stuck, and every stuck one is handled unless 100 candidates at least as old were listed |
| SandboxServices.OthersKeepCall | apps/execution-service/src/application/ports.py:184-203 | actions of other calls neither end a call nor change the copy it carries |
| Sandboxes.Sandbox.Transition | apps/execution-service/src/domain/sandbox.py:183-197 | moves exactly along the table; the error names both statuses, is the terminal one exactly when nothing follows, and changes nothing |
| Sandboxes.Sandbox.MarkFailed | apps/execution-service/src/domain/sandbox.py:215-222 | fails with its detail, or changes nothing |
| Sandboxes.Sandbox.MarkTerminating | apps/execution-service/src/domain/sandbox.py:224-231 | starts termination with its reason, or changes nothing |
| Sandboxes.EnteredFrom | apps/execution-service/src/domain/sandbox.py:53-78 | the transition table read backwards: the statuses from which each status is entered |
| Transcripts.ModelIsAlwaysSentATranscript | apps/agent-runtime/src/application/tool_loop.py:94-165 | in every message list sent over a whole life, each assistant message with calls is followed at once by one tool message per call, same ids, same order; the model timeout is between 1 ms and 60 s |
| Transcripts.DispatchAnswersAll | apps/agent-runtime/src/application/tool_loop.py:220-267 | a dispatch answers every call once and in order, even when the budget runs out half way, and counts no more failures than calls |
| Transcripts.ToolTurnIsOrderly | apps/agent-runtime/src/application/tool_loop.py:145-185 | a turn with tools extends a transcript to a transcript |
| Transcripts.ResumedAnsweredIsOrderly | apps/agent-runtime/src/application/resume_approved.py:243-274 | so does a turn after a pause |
| Transcripts.GatedTurnIsOrderly | apps/agent-runtime/src/application/resume_approved.py:77-141 | so does the approved turn, from the remembered messages |
| Transcripts.OverriddenTurnIsOrderly | apps/agent-runtime/src/application/resume_override.py:67-79 | so does the overridden turn, with the operator's output for each call |
| Transcripts.LifeIsOrderly | apps/agent-runtime/src/application/resume_handler.py:69-126 | the transcript invariant after one execution and any decisions |
| InvocationHistory.LifecycleIsSound | apps/agent-runtime/src/application/resume_handler.py:69-193 | over a whole life each saved event agrees with the status saved, consecutive saves are linked by legal transitions, a closing event comes only last, a context is pending exactly in WAITING_HUMAN, and there is at most one pause; the life is closed, waits for a human or was left by an exception |
| InvocationHistory.ExecuteSettles | apps/agent-runtime/src/application/execution_handler.py:66-151 | an execution ends on hold after one pause, or closed or left by an exception without any; in gate mode it dispatches nothing gated |
| Settling.AlwaysSettlesExactlyWhenSafe | apps/agent-runtime/src/application/tool_loop.py:205-263 | for a tool service, a configuration and a request: no model, clock and encodable decisions leave the invocation behind, over whole lives, if and only if nothing can be dispatched, or there is no sandbox id, or it parses and every reply is usable |
| Settling.AlwaysSettlesWithAnyTextExactly | apps/agent-runtime/src/application/resume_override.py:67-90 | the same when overrides may hold any text: then gate mode with dispatch is not safe either |
| Settling.MalformedSandboxStrandsExactly | apps/agent-runtime/src/application/tool_loop.py:145-157 | a malformed sandbox id strands an execution if and only if there are turns and a service and its first response asks, in time, for valid calls none of which is gated |
| Settling.MalformedPauseStrandsExactly | apps/agent-runtime/src/application/resume_approved.py:84-86 | on a pause with a malformed sandbox id exactly an approval, or an override with an output, is left behind |
| Settling.SafePauseStrandsExactly | apps/agent-runtime/src/application/resume_override.py:66-90 | on a pause with no sandbox id, or one that parses and usable replies, exactly an override that cannot be encoded is left behind |
| Settling.PauseIsOnTrack | apps/agent-runtime/src/application/approval_gate.py:77-93 | a pause remembers its request's sandbox id and at least one call, and nothing has gone wrong before it |
| Settling.LifeIsFirstActing | apps/agent-runtime/src/application/resume_handler.py:69-126 | of all decisions, one after the other, only the first that acts on a pause has any effect |
| Settling.LifeStrandsExactly | apps/agent-runtime/src/application/resume_handler.py:101-126 | what a life that was left behind has met: an unusable reply, the use of a malformed id, or an override that cannot be encoded |
| Stranding.ExecuteStrandsExactly | apps/agent-runtime/src/application/tool_loop.py:216-260 | the helper behind this for one execution, read off its trace: it settles if and only if no tool gave an unusable reply and no malformed id was parsed |
| Stranding.ResumeStrandsExactly | apps/agent-runtime/src/application/resume_override.py:66-90 | the same for one decision on a pause |
| Stranding.UsableRepliesAre | apps/agent-runtime/src/application/tool_loop.py:254-260 | which replies can be put before the model: the text shown can be encoded, and what is shown is text |
| InvocationHistory.LifeSettles | apps/agent-runtime/src/application/resume_handler.py:101-126 | any decisions, one after the other, either leave the execution's result untouched or end its pause |
| InvocationHistory.ResumeEnds | apps/agent-runtime/src/application/resume_approved.py:53-155 | a decision on a pause that acts ends it, with one closing event or an exception and no second pause; one that does not act changes nothing |
| InvocationHistory.ResumeKeepsEnded | apps/agent-runtime/src/application/resume_handler.py:74-81 | a decision on an invocation that is closed, or was left by an exception, changes nothing |
| DecisionRaces.EventsCountLoads | apps/agent-runtime/src/application/resume_handler.py:69-126 | however decisions overlap and crash, the events that let the gated calls go, and those that close, are as many as the decisions that loaded the pause and were to write one, less those still to come and those that crashed first |
| DecisionRaces.PauseCountsLoads | apps/agent-runtime/src/application/resume_handler.py:69-126 | the same for the pause of an execution; without overlap the log stays sound and has at most one event of each kind |
| DecisionRaces.StaysSingleExactly | apps/agent-runtime/src/application/resume_handler.py:69-126 | at any moment of a race: whatever is loaded, saved or abandoned from there on, the gated calls go (or the invocation closes) at most once, if and only if a decision has made its first save and at most one such event is written or owed |
| DecisionRaces.SerialDecisionsActOnce | apps/agent-runtime/src/application/resume_handler.py:69-126 | if no decision loads while another is under way, crashed ones not counted, the log stays sound, is opened at most once more and closed at most once |
| DecisionRaces.OverlappingDecisionsCloseTwice | apps/agent-runtime/src/application/resume_handler.py:128-193 | a cancellation and a rejection that overlap close the invocation twice |
| DecisionRaces.OverlappingApprovalsBothResume | apps/agent-runtime/src/application/resume_approved.py:53-75 | two approvals that overlap both resume and both save that they wait for the gated tools |
| DecisionRaces.ApprovalSendsFirstCall | apps/agent-runtime/src/application/resume_approved.py:91-107 | each approval that loads the pause sends the first gated call, if it can be sent, so two that overlap send it twice |
| DecisionRaces.ResumeExtends | apps/agent-runtime/src/application/resume_approved.py:53-155 | a decision that acts only adds saves; the first is that of its route, no later one lets the gated calls go again, and an approval goes on to wait for them |
| InvocationHistory.GatedToolsWaitForAHuman | apps/agent-runtime/src/domain/tool_approval_policy.py:97-117 | in gate mode no tool of the gated set is dispatched during an execution |
| InvocationHistory.UngatedTurnKeepsGate | apps/agent-runtime/src/application/approval_gate.py:54-117 | a turn that passes the gate dispatches no gated tool |
| GateRefinement.GateFindsFirstGatedCall | apps/agent-runtime/src/application/approval_gate.py:54-71 | the gate lets a turn pass if and only if the mode is not gate or no call is gated, and otherwise stops at the first gated call |
| GateRefinement.ApprovedPauseRefinesNoPause | apps/agent-runtime/src/application/resume_approved.py:77-141 | pausing and approving appends the messages, calls the tools, decides on failure and raises as the same turn does without a gate, if the next answers of the tools and the skip decisions of the two budgets are the same |
| GateRefinement.GatedTurnRefinesToolTurn | apps/agent-runtime/src/application/tool_loop.py:145-165 | the same for the two turns alone |
| GateRefinement.DispatchesAlike | apps/agent-runtime/src/application/tool_loop.py:205-267 | two dispatches that differ in attempt number, clock and budget give the same messages and failures when they skip alike |
| Accounting.TokensAreConserved | apps/agent-runtime/src/application/tool_loop.py:115-119 | a completed invocation stores the token sums over all gateway responses, after a pause over those from the gated response on, and the text of the last response |
| Accounting.WorkIsBounded | apps/agent-runtime/src/application/resume_approved.py:175-218 | a whole life makes at most 2*MAX_TOOL_TURNS-1 model calls, and none when MAX_TOOL_TURNS is below 1, however many decisions come |
| Accounting.ToolsAreAccountedFor | apps/agent-runtime/src/application/tool_loop.py:132-185 | failures plus completed turns never exceed tools called; tools called equals calls collected, except that calls waiting at a gate, or in a turn cut short by an exception, are collected only |
| Accounting.TurnsAreAccounted | apps/agent-runtime/src/application/tool_loop.py:84-188 | from any turn on, the loop keeps these totals exact, remembers the interrupted response when it pauses, and asks the model at most once per turn left |
| Accounting.ResumeIsAccounted | apps/agent-runtime/src/application/resume_approved.py:68-71 | the continuation of a pause counts from the interrupted response, within its own bound on model calls |
| Accounting.ExecutionUsesItsTurns | apps/agent-runtime/src/application/tool_loop.py:84-188 | a completed execution has asked the model MAX_TOOL_TURNS times, unless its last response asked for no tools |
| Accounting.ResumeUsesItsTurns | apps/agent-runtime/src/application/resume_approved.py:175-274 | a resume that completes has asked MAX_TOOL_TURNS-1 times more, with the same exception |
| StoredCalls.CallsAreConserved | apps/agent-runtime/src/application/resume_approved.py:277-284 | a completed invocation stores the valid calls of every response, in order, after a pause those from the gated response on; none without an execution service |
| AgentRuntime.ValidateToolCalls | apps/agent-runtime/src/application/tool_helpers.py:58-74 | keeps exactly the well-formed entries, in order |
| AgentRuntime.CheckToolGuardrails | apps/agent-runtime/src/application/tool_helpers.py:24-46 | refuses exactly oversized input, a shell command that is blank and a script that is blank, with the stated reasons |
| AgentRuntime.ExecuteTool | apps/agent-runtime/src/application/shared_execution.py:23-87 | every path gives a result; the service is called only past the guardrails, with a sandbox |
| AgentRuntime.DispatchTools | apps/agent-runtime/src/application/tool_loop.py:216-263 | the dispatch loop, also as it appears in the resumes, against the function whose answers are proved complete and in order; it reports an exception where one leaves the loop |
| AgentRuntime.CheckToolApprovalGate | apps/agent-runtime/src/application/approval_gate.py:34-117 | pauses exactly when a call is gated, at the first one, saving the context that resuming needs |
| AgentRuntime.RunToolLoop | apps/agent-runtime/src/application/tool_loop.py:64-188 | the loop against its function: messages, totals, trace, saves and way of leaving |
| AgentRuntime.HandleGatewayError | apps/agent-runtime/src/application/gateway_errors.py:22-68 | TIMEOUT times the invocation out, anything else fails it |
| AgentRuntime.CloseInvocation | apps/agent-runtime/src/application/loop_errors.py:24-120 | the closing handlers: a legal move, its error code and one save |
| AgentRuntime.ExecuteInvocation | apps/agent-runtime/src/application/execution_handler.py:66-164 | a whole execution against its function, every transition proved legal on the way |
| AgentRuntime.HandleApproved | apps/agent-runtime/src/application/resume_approved.py:34-155 | the approved resume against its function |
| AgentRuntime.ContinueModelLoop | apps/agent-runtime/src/application/resume_approved.py:158-298 | the loop after a pause, one turn shorter, up to completion |
| AgentRuntime.AppendOverride | apps/agent-runtime/src/application/resume_override.py:73-79 | the operator's output once for each call, or an exception exactly if there are calls and it cannot be encoded |
| AgentRuntime.HandleOverride | apps/agent-runtime/src/application/resume_override.py:35-191 | the overriding resume against its function |
| AgentRuntime.ResumeInvocation | apps/agent-runtime/src/application/resume_handler.py:48-193 | a decision on the invocation as last saved, by all routes, against its function; from another workspace nothing is found and nothing changes |
| AgentRuntime.InvocationUow.SaveWithEvent | apps/agent-runtime/src/application/ports.py:64-79 | state and event are saved together |
| AgentRuntime.InvocationUow.GetById | apps/agent-runtime/src/application/ports.py:21-34 | loading gives what was last saved, to its own workspace only |
| Conversations.DispatchAnswersWith | apps/agent-runtime/src/application/tool_loop.py:216-263 | the i-th message that a dispatch adds answers its i-th call: the skip text past the budget, the reason of a refusal, the error without sandbox or service, and otherwise what the service returned |
| Conversations.DispatchOneAnswersWith | apps/agent-runtime/src/application/shared_execution.py:23-87 | one call: its answer, the call that goes out for it with decoded input and attempt number, and whether it counts as a failure; the answer is the output, or else the error, or else that the tool failed, with the note that the service cut it, up to its longest prefix that fits in 32768 bytes and the marker |
| Conversations.AllFailedExactly | apps/agent-runtime/src/application/tool_loop.py:167-170 | a dispatch reports that all calls have failed if and only if the answer to each is a failure |
| Conversations.RejectionTells | apps/agent-runtime/src/application/tool_helpers.py:24-46 | the guardrails let pass exactly input within the limit whose code is not blank, and say which tool had none |
| Conversations.OversizeTells | apps/agent-runtime/src/application/tool_helpers.py:26-28 | oversized input is refused with its size in decimal digits |
| Conversations.ValidCallsOfConcat | apps/agent-runtime/src/application/tool_helpers.py:58-74 | calls are validated one by one and keep their order |
| Conversations.ValidCallsOfOne | apps/agent-runtime/src/application/tool_helpers.py:62-73 | an entry becomes a call with its own id, name and arguments if and only if id and name are there |
| Conversations.TurnDecides | apps/agent-runtime/src/application/tool_loop.py:84-157 | what a turn sends, with which timeout, and where each answer of the model leads: out of budget, gateway error, done, malformed calls, or a pause that remembers the response |
| Conversations.ToolTurnDecides | apps/agent-runtime/src/application/tool_loop.py:132-188 | a turn with tools says what the model said, dispatches its calls, and fails if and only if all of them failed; otherwise it saves that the turn is complete, with its number, calls and failures |
| Conversations.ResumedTurnDecides | apps/agent-runtime/src/application/resume_approved.py:177-274 | the same for a turn after a pause, by approval or override |
| Conversations.GatedTurnDecides | apps/agent-runtime/src/application/resume_approved.py:77-141 | the approved turn continues from the remembered messages and fails if and only if all gated calls failed |
| Conversations.OverriddenTurnDecides | apps/agent-runtime/src/application/resume_override.py:66-90 | the overridden turn answers every call with the operator's text, truncated, and runs on |
| Conversations.RefusalsClose | apps/agent-runtime/src/application/resume_handler.py:128-193 | a rejection fails the invocation and a cancellation cancels it, each with its error code and one event |
| Conversations.OtherwiseNothingIsDecided | apps/agent-runtime/src/application/resume_handler.py:69-126 | a wait without context fails; no decision touches what does not wait, and an unknown one or an override without text changes nothing |
| Conversations.ExecutionBegins | apps/agent-runtime/src/application/execution_handler.py:66-103 | an execution stores the instruction as its input, and the first question to the model is just that; the budget is the request's own if it has one |
| Invocations.AgentInvocation.Transition | apps/agent-runtime/src/domain/agent_invocation.py:194-202 | moves exactly along the table, and a refusal changes nothing |
| Invocations.AgentInvocation.MarkRunning | apps/agent-runtime/src/domain/agent_invocation.py:210-220 | starts running with its input messages |
| Invocations.AgentInvocation.MarkWaitingHuman | apps/agent-runtime/src/domain/agent_invocation.py:222-232 | pauses and stores the context |
| Invocations.AgentInvocation.MarkCompleted | apps/agent-runtime/src/domain/agent_invocation.py:238-262 | completes with output, calls and tokens; an empty list of calls keeps the old one |
| Invocations.AgentInvocation.MarkClosed | apps/agent-runtime/src/domain/agent_invocation.py:264-284 | fails or times out with its error |
| Invocations.AgentInvocation.ResumeFromWait | apps/agent-runtime/src/domain/agent_invocation.py:312-319 | succeeds exactly from the two waits |
| Invocations.EnteredFrom | apps/agent-runtime/src/domain/agent_invocation.py:49-97 | the transition table read backwards, terminal statuses included |
| Lineage.DetectCycle | apps/artifact-service/src/domain/lineage.py:74-120 | returns true if and only if the child can be reached from the parent by zero or more parent edges, for any edge list; terminates although nodes are queued repeatedly |
| Lineage.BuildParents | apps/artifact-service/src/domain/lineage.py:94-105 | the adjacency table holds exactly the edges |
| Lineage.AcyclicWithEdge | apps/artifact-service/src/domain/lineage.py:74-93 | the check is exact: a new edge keeps an acyclic graph acyclic if and only if its child is not reachable from its parent |
| Lineage.WorkspaceSeesAllAncestors | apps/artifact-service/src/application/ports.py:79-81 | if no edge leaves a workspace, its own edges decide reachability from its members |
| Lineage.InWorkspaceIs | apps/artifact-service/src/infrastructure/db/repositories.py:192-204 | the query gives exactly the edges whose child is in the workspace |
| Lineage.OpenWorkspacesHideCycles | apps/artifact-service/src/api/routes_lineage.py:48-61 | without the endpoint's checks a cycle across two workspaces goes unseen |
| ArtifactHistory.HistoryIsLineageSound | apps/artifact-service/src/application/services.py:382-444 | after every history of transactions the global edge set is acyclic, no edge leaves a workspace, and requests between check and write still have both ends in theirs |
| ArtifactHistory.RefusedExactlyForCycles | apps/artifact-service/src/application/services.py:402-442 | a request that has passed the endpoint's check, whatever was committed since, is refused as a cycle or self loop if and only if its edge would close a cycle in the whole graph, and never for a missing artifact |
| ArtifactHistory.WorkspaceCheckIsGlobal | apps/artifact-service/src/api/route_helpers.py:120-134 | the check of one workspace decides reachability in the whole graph |
| ArtifactHistory.ReadyIsAlwaysComplete | apps/artifact-service/src/application/services.py:197-379 | after every history a READY artifact has a non-blank storage reference, a 64-character lowercased checksum, a non-negative size and a stored complete provenance for its root type |
| ArtifactHistory.HistoryIsSound | apps/artifact-service/src/application/services.py:109-379 | the inductive invariant behind it: fresh ids, a provenance for every artifact without floating model names, and a storage reference from WRITING on |
| ArtifactHistory.FinalizedIsComplete | apps/artifact-service/src/domain/artifact.py:208-253 | what finalizing a writing artifact guarantees |
| ArtifactHistory.FinishedNeverChanges | apps/artifact-service/src/domain/artifact.py:177-190 | no later history changes a READY or FAILED artifact or its provenance |
| ArtifactHistory.OutboxDeterminesArtifacts | apps/artifact-service/src/application/services.py:109-379 | the outbox alone rebuilds every artifact's existence, status, storage reference, checksum, size and failure reason, and its events are one of the five possible lives |
| ArtifactService.Service.Register | apps/artifact-service/src/application/services.py:109-161 | the first check that fails gives its error and changes nothing; otherwise a PENDING artifact under the next id with its provenance and its event |
| ArtifactService.Service.BeginWritingArtifact | apps/artifact-service/src/application/services.py:164-194 | starts writing to the given reference and announces it, or refuses and changes nothing |
| ArtifactService.Service.Finalize | apps/artifact-service/src/application/services.py:197-254 | the artifact is READY with lowercased checksum and size, announced with both, checked against the stored provenance; or the first check that fails gives its error and nothing changes |
| ArtifactService.Service.Fail | apps/artifact-service/src/application/services.py:257-289 | gives up with its reason and announces it, or refuses and changes nothing |
| ArtifactService.Service.Upload | apps/artifact-service/src/application/services.py:292-379 | in one transaction: an upload under the next id, in the given workspace and name, READY with the digest of the content, its size and its own storage key, and three events; it works exactly for a known type, a name that is not blank, a storage that works and a digest of 64 hex characters, and otherwise commits nothing and reports the first that failed |
| ArtifactService.Service.CheckWorkspace | apps/artifact-service/src/api/route_helpers.py:129-134 | accepts exactly the artifacts of the workspace |
| ArtifactService.Service.CheckLineageEnds | apps/artifact-service/src/api/routes_lineage.py:45-50 | the endpoint's transaction accepts exactly the pairs in the workspace |
| ArtifactService.Service.RecordEdge | apps/artifact-service/src/application/services.py:402-442 | the service's transaction: its checks in order, the search run on the workspace's edges, then the asked edge of the asked type and its event |
| ArtifactService.Service.RecordLineageEdge | apps/artifact-service/src/api/routes_lineage.py:34-83 | both transactions with anything of other requests between them: refused by the check nothing changes, and otherwise the write decides on the state by then |
| Artifacts.ArtifactEntity.Transition | apps/artifact-service/src/domain/artifact.py:177-190 | moves along the table, or reports why not and changes nothing |
| Artifacts.ArtifactEntity.BeginWriting | apps/artifact-service/src/domain/artifact.py:194-206 | needs a non-blank reference |
| Artifacts.ArtifactEntity.Finalize | apps/artifact-service/src/domain/artifact.py:208-253 | all checks come before the transition; a refusal changes nothing |
| Artifacts.ArtifactEntity.Fail | apps/artifact-service/src/domain/artifact.py:255-272 | fails with a reason that is never empty |
| Provenances.ValidateComplete | apps/artifact-service/src/domain/provenance.py:90-131 | lists what is missing, in order |
| Provenances.NothingMissingExactlyWhenComplete | apps/artifact-service/src/domain/provenance.py:90-131 | nothing is missing if and only if the provenance is complete for the root type |
| Provenances.MissingPartsAre | apps/artifact-service/src/domain/provenance.py:90-131 | each part is reported missing in exactly its own case: a tool without version, and for everything but uploads the config hash and the three model fields |
| Provenances.ModelAliasesAre | apps/artifact-service/src/domain/provenance.py:22-32 | a floating model name is one of five words, or ends in a hyphen and one of them, in any case of letters and before a final newline too |
| ArtifactStore.ParseRootTypeReads | apps/artifact-service/src/domain/artifact.py:29-34 | the four root types are read from exactly their own names |
| PythonStrings.LowerChangesLetters | apps/artifact-service/src/domain/artifact.py:239 | lowercasing maps each capital letter to its small one and nothing else |
| PythonStrings.BlankIsWhiteSpace | apps/artifact-service/src/domain/artifact.py:194-206 | blank means nothing but white space |
| RateLimiter.SlidingWindowCounter.IsAllowed | apps/api-gateway/src/api/rate_limit_middleware.py:65-91 | one check in place, against the step that the history theorems are about |
| RateLimiter.SlidingWindowCounter.ComputeReset | apps/api-gateway/src/api/rate_limit_middleware.py:93-101 | the reset value, truncation towards zero included |
| RateLimiter.SlidingWindowCounter.MaybePrune | apps/api-gateway/src/api/rate_limit_middleware.py:103-114 | sweeps exactly when 1000 calls have been counted and 60 seconds have passed since the last sweep, and then counts anew; otherwise it only counts |
| RateLimiter.SlidingWindowCounter.PruneStale | apps/api-gateway/src/api/rate_limit_middleware.py:116-126 | deletes exactly the keys that are empty or whose newest request is too old, in whatever order |
| RateLimiterHistory.RepliesLikeIdeal | apps/api-gateway/src/api/rate_limit_middleware.py:65-126 | every reply, all three parts, is that of the limiter that keeps every accepted request forever |
| RateLimiterHistory.ReplyIsExact | apps/api-gateway/src/api/rate_limit_middleware.py:65-101 | after every legal history: a request is allowed if and only if fewer than `max_requests` admitted ones lie in its window; the remaining count is what is left of them, 0 on refusal; the reset is the window when none lies in it, and otherwise reaches the expiry of the first of them and overshoots it by at most a second |
| RateLimiterHistory.AdmissionRateIsBounded | apps/api-gateway/src/api/rate_limit_middleware.py:71-91 | in every half-open interval as long as the window at most `max_requests` requests of a key were let through |
| RateLimiterHistory.RejectedClientIsAdmittedAfterReset | apps/api-gateway/src/api/rate_limit_middleware.py:82-101 | a rejected client that stays quiet is admitted if and only if its oldest live request has expired; the reset it was given is between 1 and the window plus 1, reaches that moment, and overshoots it by at most a second |
| RateLimiterHistory.FullWindow | apps/api-gateway/src/api/rate_limit_middleware.py:74-83 | a full window stays full exactly until its oldest request expires |
| RateLimiterTightness.AgreesExactlyWhenSweepIsSurvived | apps/api-gateway/src/api/rate_limit_middleware.py:103-126 | the agreement holds for a tier if and only if its window is at most the prune age or it admits nothing |
| RateLimiterTightness.SweepForgetsLongWindow | apps/api-gateway/src/api/rate_limit_middleware.py:116-126 | for every longer window a history on which one request too many gets in |
| RateLimitMiddleware.MadeCallsFollowKeys | apps/api-gateway/src/api/rate_limit_middleware.py:186-249 | the key of a check determines its tier |
| RateLimitMiddleware.MiddlewareHistoriesAreLegal | apps/api-gateway/src/api/rate_limit_middleware.py:186-249 | so every history of middleware checks on a forward clock is covered by the promises above |
| RateLimitMiddleware.TierCheckFollowsVerb | apps/api-gateway/src/api/rate_limit_middleware.py:186-249 | writing verbs count in the write tier, GET in the read tier, others in none, and every request in the global tier |
| RateLimitMiddleware.KeysSeparateClients | apps/api-gateway/src/api/rate_limit_middleware.py:186-249 | two requests share a key if and only if they are of the same client and tier |
| Utf8Repair.RepairDoubleEncodedUtf8 | apps/artifact-service/src/api/route_helpers.py:145-177 | the nested-index loop computes the repair that the lemmas below are about |
| Utf8Repair.CollectRun | apps/artifact-service/src/api/route_helpers.py:155-166 | collects the longest run of reinterpretable characters from an index |
| Utf8Repair.RepairUndoesDoubleEncoding | apps/artifact-service/src/api/route_helpers.py:145-177 | for every text whose UTF-8 bytes avoid the five undefined bytes, misreading them as Windows-1252 and repairing gives the text back |
| Utf8Repair.RepairOfRun | apps/artifact-service/src/api/route_helpers.py:151-177 | a whole run of reinterpretable characters keeps its characters up to the first place from which its bytes decode, and is decoded from there; with the next rows this gives the repair of every text |
| Utf8Repair.MisreadExactlyWhenDefined | apps/artifact-service/src/api/route_helpers.py:145-177 | bytes can be misread at all if and only if they avoid those five |
| Utf8Repair.RepairDistributes | apps/artifact-service/src/api/route_helpers.py:151-177 | a character that is ASCII or not in Windows-1252 separates the repair of what is before and after it |
| Utf8Repair.RepairKeepsAsciiAndNeverLengthens | apps/artifact-service/src/api/route_helpers.py:151-177 | the subsequence of ASCII characters is kept and the text never gets longer |
| Utf8.DecodeOfEncode | apps/artifact-service/src/api/route_helpers.py:166-171 | strict decoding undoes encoding |
| Utf8.EncodeOfDecode | apps/artifact-service/src/api/route_helpers.py:166-171 | strict decoding accepts only what encoding writes |
| Utf8.EncodeOneIsPositional | apps/artifact-service/src/api/route_helpers.py:166-171 | a character is the positional value of the bits of its one to four bytes, of the shortest length |
| Utf8.PartialCharacterIsDropped | apps/agent-runtime/src/application/tool_helpers.py:54 | a split character is never read as another and is dropped whole |
| Cp1252.EncodeOfDecodeByte | apps/artifact-service/src/api/route_helpers.py:158-163 | every defined byte survives decoding and encoding; exactly five are undefined |
| Cp1252.DecodeOfEncodeChar | apps/artifact-service/src/api/route_helpers.py:158-163 | every encodable character survives encoding and decoding |
| Cp1252.DecodesByCodePage | apps/artifact-service/src/api/route_helpers.py:158-163 | the 32 bytes between ASCII and Latin-1 decode as the code page has them, all others as themselves |
| Truncation.TruncationKeepsLongestFit | apps/agent-runtime/src/application/tool_helpers.py:49-55 | the identity when the content fits, otherwise its longest prefix that fits in 32768 bytes and the marker; never more than the limit plus the marker |
| Truncation.LongestFitIsLongest | apps/agent-runtime/src/application/tool_helpers.py:49-55 | that prefix is the longest, and at most 3 bytes of the limit go unused |
| Truncation.CutDropsOnlySplitCharacter | apps/agent-runtime/src/application/tool_helpers.py:54 | cutting anywhere and ignoring errors keeps exactly the characters before the cut |

## Left out

Assumptions of the model:

- Each `with uow` block commits as a whole and serially; database isolation below one block is not modelled.
- Identifiers are fresh; artifact ids are numbered, and a call or sandbox that exists is not begun again.
- Loading an invocation returns what was last saved; `agent_invocation_id` is not reused. Except in `DecisionRaces`, decisions on one invocation come one after the other.
- Tool arguments decode to a JSON object with text fields, or not at all; the size of their JSON text is given.
- Gateway responses have the fields and types that the runtime reads, and their text can be stored.
- `int(s, 16)` and SHA-256 are arbitrary functions; lowercasing is modelled for ASCII letters.
- Times of the limiter are real numbers, and its threads and lock are not modelled.

Parts of the repository that the model does not have:

- HTTP routes other than the lineage endpoint's checks, proxying, tokens, permissions, migrations, the client and the user interface: plumbing.
- Orchestrator handlers, the outbox relay and all SQL repositories: only the contracts of the ports are used.
- The raw SQL sweep of stuck invocations (`apps/agent-runtime/src/api/routes.py`): it bypasses the entity and emits no event, so a life that it touches is outside the lifecycle theorems.
- The request for approval and the artifact made after completion: best effort, after the save, without effect on the invocation.
- Warnings, policy reasons, previews of gated input, metrics, latencies, timestamps, event payloads and returned DTOs, among them the status reported on budget exhaustion: no effect on the modelled state.
- Compensation and interruption of invocations: in the table, but no modelled handler drives them.
- Tool execution attempts, terminal sessions, retry backoff, annotations, tags, notifications and event streaming: easier repetitions of what is modelled.

Contracts that state less than their source:

- GateRefinement.ApprovedPauseRefinesNoPause: says nothing of the turns after the gated one, because the code treats them differently on purpose: they are not gated, say less in skipped answers and are not stopped by failing tools.
- AgentRuntime.DispatchTools: one method stands for the four dispatch loops of the source, which differ only in what its style parameter says.
- AgentRuntime.CloseInvocation: stands for the three closing handlers and the marks they share; the error detail is reduced to its code.
