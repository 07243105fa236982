/** The runtime itself: the handlers that drive an invocation step by step, each proved to do
  * what its function in AgentLoop says.
  */
module AgentRuntime {
  import opened Options
  import opened Utf8
  import opened Truncation
  import opened PythonStrings
  import opened Invocations
  import opened AgentLoop

  // Everything the runtime talks to

  /** The model gateway, the execution service and the clock. */
  class Ports {
    const world: World
    var sent: seq<ModelCall>
    var dispatched: seq<Dispatch>
    var checks: nat

    function View(): Trace
      reads this
    {
      Trace(sent, dispatched, checks)
    }

    constructor (world: World)
      ensures this.world == world && View() == NO_TRACE
    {
      this.world := world;
      sent, dispatched, checks := [], [], 0;
    }

    method InvokeModel(messages: seq<Message>, timeoutMs: int) returns (reply: GatewayReply)
      modifies `sent
      ensures sent == old(sent) + [ModelCall(messages, timeoutMs)]
      ensures reply == world.gateway(|old(sent)|)
    {
      reply := world.gateway(|sent|);
      sent := sent + [ModelCall(messages, timeoutMs)];
    }

    method CallTool(name: string, input: ToolInput, attempt: nat) returns (reply: ToolReply)
      modifies `dispatched
      ensures dispatched == old(dispatched) + [Dispatch(name, input, attempt)]
      ensures reply == world.tool(|old(dispatched)|)
    {
      reply := world.tool(|dispatched|);
      dispatched := dispatched + [Dispatch(name, input, attempt)];
    }

    method ElapsedMs() returns (ms: nat)
      modifies `checks
      ensures checks == old(checks) + 1 && ms == world.elapsed(old(checks))
    {
      ms := world.elapsed(checks);
      checks := checks + 1;
    }
  }

  /** What is stored of one invocation, which belongs to a workspace: every save with its event. */
  class InvocationUow {
    const workspace: nat
    var log: seq<Saved>

    constructor (workspace: nat)
      ensures log == [] && this.workspace == workspace
    {
      this.workspace, log := workspace, [];
    }

    method SaveWithEvent(inv: AgentInvocation, event: Event)
      modifies this
      ensures log == old(log) + [Saved(event, inv.View())]
    {
      log := log + [Saved(event, inv.View())];
    }

    /** The invocation as it was last saved, for its own workspace only. */
    method GetById(wanted: nat) returns (inv: AgentInvocation?)
      ensures inv == null <==> log == [] || wanted != workspace
      ensures inv != null ==> fresh(inv) && inv.View() == log[|log| - 1].invocation
    {
      if log == [] || wanted != workspace {
        return null;
      }
      inv := new AgentInvocation(log[|log| - 1].invocation);
    }
  }

  /** The list of messages that the loops append to. */
  class Conversation {
    var messages: seq<Message>

    constructor (messages: seq<Message>)
      ensures this.messages == messages
    {
      this.messages := messages;
    }

    method Append(m: Message)
      modifies this
      ensures messages == old(messages) + [m]
    {
      messages := messages + [m];
    }
  }

  /** The totals that a loop updates. */
  class ToolLoopResult {
    var outputText: ScalarText
    var promptTokens: int
    var completionTokens: int
    var calls: seq<ToolCall>
    var turns: nat
    var toolsCalled: nat
    var toolFailures: nat

    function View(): Tally
      reads this
    {
      Tally(outputText, promptTokens, completionTokens, calls, turns, toolsCalled, toolFailures)
    }

    constructor (t: Tally)
      ensures View() == t
    {
      outputText, promptTokens, completionTokens, calls := t.outputText, t.promptTokens, t.completionTokens, t.calls;
      turns, toolsCalled, toolFailures := t.turns, t.toolsCalled, t.toolFailures;
    }

    method Count(reply: GatewayReply)
      requires reply.Response?
      modifies this
      ensures View() == Counted(old(View()), reply)
    {
      outputText := reply.outputText;
      promptTokens := promptTokens + reply.promptTokens;
      completionTokens := completionTokens + reply.completionTokens;
    }
  }

  function Current(inv: AgentInvocation, uow: InvocationUow, ports: Ports): Run
    reads inv, uow, ports
  {
    Run(inv.View(), uow.log, ports.View())
  }

  function LoopNow(
    inv: AgentInvocation, uow: InvocationUow, ports: Ports, conversation: Conversation, result: ToolLoopResult,
    phase: Phase): Loop
    reads inv, uow, ports, conversation, result
  {
    Loop(Current(inv, uow, ports), conversation.messages, result.View(), phase)
  }

  // Tool calls

  method ValidateToolCalls(raw: seq<RawCall>) returns (valid: seq<ToolCall>)
    ensures valid == ValidCalls(raw)
  {
    valid := [];
    for i := 0 to |raw|
      invariant valid + ValidCalls(raw[i..]) == ValidCalls(raw)
    {
      var entry := raw[i];
      if IsValidCall(entry) {
        valid := valid + [ToolCall(entry.id, entry.func.value.name, entry.func.value.arguments)];
      }
      assert raw[i..][1..] == raw[i + 1..];
    }
  }

  method CheckToolGuardrails(name: string, input: ToolInput) returns (rejection: Option<ScalarText>)
    ensures rejection == Rejection(name, input)
    ensures rejection.None? <==>
              && input.jsonSize <= MAX_TOOL_INPUT_BYTES
              && (name == "shell.exec" ==>
                    !IsBlank(input.code) || (input.code == "" && !IsBlank(input.command)))
              && (name == "python.run_script" ==> !IsBlank(input.code))
  {
    if input.jsonSize > MAX_TOOL_INPUT_BYTES {
      return Some(FromString("Tool input too large (" + Decimal(input.jsonSize) + " chars, max "
                             + Decimal(MAX_TOOL_INPUT_BYTES) + " bytes)"));
    }
    if name == "shell.exec" {
      var code := if input.code != "" then input.code else input.command;
      if IsBlank(code) {
        return Some(FromString("shell.exec: empty command"));
      }
    }
    if name == "python.run_script" {
      if IsBlank(input.code) {
        return Some(FromString("python.run_script: empty code"));
      }
    }
    return None;
  }

  method ExecuteTool(ports: Ports, setting: Setting, call: ToolCall, attempt: nat) returns (result: ToolResult)
    modifies ports
    ensures
      (result, ports.View())
      == ToolExecuted(ports.world, setting.hasService, setting.sandbox, call, attempt, old(ports.View()))
  {
    hide Rejection, InputOf;
    var input := InputOf(call);
    var rejection := CheckToolGuardrails(call.name, input);
    if rejection.Some? {
      return FailedTool(rejection.value);
    }
    if !setting.sandbox.Uuid? {
      return FailedTool(FromString("No sandbox_id available"));
    }
    if !setting.hasService {
      return FailedTool(FromString("No execution service"));
    }
    var reply := ports.CallTool(call.name, input, attempt);
    result := ResultOfReply(reply);
  }

  /** All dispatch loops; the style says which one. An exception leaves the loop where it is. */
  method DispatchTools(ports: Ports, setting: Setting, style: Style, calls: seq<ToolCall>, conversation: Conversation)
    returns (failures: nat, raised: bool)
    modifies ports, conversation
    ensures
      Dispatching(ports.View(), conversation.messages, failures, raised)
      == DispatchAll(ports.world, setting, style, calls,
                     Begun(setting, old(ports.View()), old(conversation.messages)))
  {
    hide Content, ToolExecuted;
    failures, raised := 0, false;
    if setting.sandbox.Malformed? {
      return 0, true;
    }
    ghost var begun := Dispatching(ports.View(), conversation.messages, 0, false);
    for i := 0 to |calls|
      invariant DispatchAll(ports.world, setting, style, calls[i..],
                            Dispatching(ports.View(), conversation.messages, failures, false))
             == DispatchAll(ports.world, setting, style, calls, begun)
    {
      ghost var d := Dispatching(ports.View(), conversation.messages, failures, false);
      assert calls[i..][0] == calls[i] && calls[i..][1..] == calls[i + 1..];
      var skip := false;
      if style.skipped.Some? {
        var elapsedMs := ports.ElapsedMs();
        skip := setting.budgetMs - elapsedMs <= 0;
      }
      if skip {
        conversation.Append(ToolOutput(calls[i].id, style.skipped.value));
        failures := failures + 1;
      } else {
        var result := ExecuteTool(ports, setting, calls[i], style.attempt);
        if result.status != "completed" {
          failures := failures + 1;
        }
        var content := Content(style, result);
        if content.None? {
          assert Dispatching(ports.View(), conversation.messages, failures, true)
              == DispatchOne(ports.world, setting, style, calls[i], d);
          return failures, true;
        }
        conversation.Append(ToolOutput(calls[i].id, content.value));
      }
      assert Dispatching(ports.View(), conversation.messages, failures, false)
          == DispatchOne(ports.world, setting, style, calls[i], d);
    }
  }

  // The loop of a fresh invocation

  method CloseInvocation(inv: AgentInvocation, uow: InvocationUow, target: Status, event: Event, code: string)
    requires IsAllowed(inv.status, target)
    modifies inv, uow
    ensures inv.View() == Move(old(inv.View()), target).(error := Some(code))
    ensures uow.log == old(uow.log) + [Saved(event, inv.View())]
  {
    var ok := inv.MarkClosed(target, code);
    assert ok;
    uow.SaveWithEvent(inv, event);
  }

  /** Finds the first call that needs a human and pauses there. */
  method CheckToolApprovalGate(
    cfg: Config, inv: AgentInvocation, uow: InvocationUow, sandbox: SandboxText, calls: seq<ToolCall>,
    messages: seq<Message>, reply: GatewayReply)
    returns (paused: bool)
    requires inv.status == Running && reply.Response?
    modifies inv, uow
    ensures paused <==> FirstGated(calls, cfg.mode).Some?
    ensures !paused ==> inv.View() == old(inv.View()) && uow.log == old(uow.log)
    ensures paused ==>
              && inv.View()
                 == Move(old(inv.View()), WaitingHuman).(
                      pending := Some(PendingFor(calls, messages, reply, sandbox, FirstGated(calls, cfg.mode).value)))
              && uow.log == old(uow.log) + [Saved(InvocationWaitingHuman, inv.View())]
  {
    for i := 0 to |calls|
      invariant FirstGated(calls[i..], cfg.mode) == FirstGated(calls, cfg.mode)
      invariant inv.View() == old(inv.View()) && uow.log == old(uow.log)
    {
      assert calls[i..][0] == calls[i] && calls[i..][1..] == calls[i + 1..];
      var decision := EvaluateToolApproval(calls[i].name, cfg.mode);
      if decision == Gate {
        var ok := inv.MarkWaitingHuman(PendingFor(calls, messages, reply, sandbox, calls[i]));
        assert ok;
        uow.SaveWithEvent(inv, InvocationWaitingHuman);
        return true;
      }
    }
    return false;
  }

  /** Waits for the tools of a turn, calls them and adds them to the totals. */
  method DispatchTurn(
    setting: Setting, inv: AgentInvocation, uow: InvocationUow, ports: Ports, conversation: Conversation,
    result: ToolLoopResult, calls: seq<ToolCall>, text: ScalarText, turn: nat)
    returns (failures: nat, raised: bool)
    requires inv.status == Running
    modifies inv, uow, ports, conversation, result
    ensures
      var waiting := Save(MoveTo(old(Current(inv, uow, ports)), WaitingTool), InvocationWaitingTool);
      var said := old(conversation.messages) + [AssistantMessage(text, calls)];
      && Dispatching(ports.View(), conversation.messages, failures, raised)
         == DispatchAll(ports.world, setting, TurnStyle(turn), calls, Begun(setting, waiting.trace, said))
      && Current(inv, uow, ports) == waiting.(trace := ports.View())
    ensures result.View() == if raised then old(result.View()) else
                               old(result.View()).(
                                 toolsCalled := old(result.toolsCalled) + |calls|,
                                 toolFailures := old(result.toolFailures) + failures)
  {
    hide DispatchAll, AssistantMessage, TurnStyle;
    var ok := inv.Transition(WaitingTool);
    assert ok;
    uow.SaveWithEvent(inv, InvocationWaitingTool);
    conversation.Append(AssistantMessage(text, calls));
    failures, raised := DispatchTools(ports, setting, TurnStyle(turn), calls, conversation);
    if raised {
      return;
    }
    result.toolsCalled := result.toolsCalled + |calls|;
    result.toolFailures := result.toolFailures + failures;
  }

  /** A turn with tools. */
  method RunTools(
    setting: Setting, inv: AgentInvocation, uow: InvocationUow, ports: Ports, conversation: Conversation,
    result: ToolLoopResult, calls: seq<ToolCall>, text: ScalarText, turn: nat)
    returns (phase: Phase)
    requires inv.status == Running
    modifies inv, uow, ports, conversation, result
    ensures LoopNow(inv, uow, ports, conversation, result, phase)
         == ToolTurn(
              ports.world, setting, old(LoopNow(inv, uow, ports, conversation, result, Going)), calls, text, turn)
  {
    hide DispatchAll, AssistantMessage, TurnStyle;
    var failures, raised := DispatchTurn(setting, inv, uow, ports, conversation, result, calls, text, turn);
    if raised {
      return Raised;
    }
    if failures == |calls| && |calls| > 0 {
      CloseInvocation(inv, uow, Failed, InvocationFailed, "ALL_TOOLS_FAILED");
      return Exited;
    }
    var ok := inv.ResumeFromWait();
    assert ok;
    result.turns := turn + 1;
    uow.SaveWithEvent(inv, TurnCompleted(turn, |calls|, failures));
    return Going;
  }

  method AnswerTurn(
    cfg: Config, setting: Setting, inv: AgentInvocation, uow: InvocationUow, ports: Ports,
    conversation: Conversation, result: ToolLoopResult, reply: GatewayReply, turn: nat)
    returns (phase: Phase)
    requires inv.status == Running && reply.Response?
    modifies inv, uow, ports, conversation, result
    ensures LoopNow(inv, uow, ports, conversation, result, phase)
         == Answered(ports.world, cfg, setting, old(LoopNow(inv, uow, ports, conversation, result, Going)), reply, turn)
  {
    hide ToolTurn, ValidCalls, FirstGated, PendingFor;
    if reply.finishReason != "tool_calls" || reply.calls == [] || !setting.hasService {
      return Stopped;
    }
    var valid := ValidateToolCalls(reply.calls);
    if valid == [] {
      CloseInvocation(inv, uow, Failed, InvocationFailed, "MALFORMED_TOOL_CALLS");
      return Exited;
    }
    result.calls := result.calls + valid;
    var paused := CheckToolApprovalGate(cfg, inv, uow, setting.sandbox, valid, conversation.messages, reply);
    if paused {
      return Exited;
    }
    phase := RunTools(setting, inv, uow, ports, conversation, result, valid, reply.outputText, turn);
  }

  method HandleGatewayError(inv: AgentInvocation, uow: InvocationUow, code: string)
    requires inv.status == Running
    modifies inv, uow
    ensures
      var (target, event) := if code == "TIMEOUT" then (TimedOut, InvocationTimedOut) else (Failed, InvocationFailed);
      && inv.View() == Move(old(inv.View()), target).(error := Some(code))
      && uow.log == old(uow.log) + [Saved(event, inv.View())]
  {
    if code == "TIMEOUT" {
      CloseInvocation(inv, uow, TimedOut, InvocationTimedOut, code);
    } else {
      CloseInvocation(inv, uow, Failed, InvocationFailed, code);
    }
  }

  method RunTurn(
    cfg: Config, setting: Setting, inv: AgentInvocation, uow: InvocationUow, ports: Ports,
    conversation: Conversation, result: ToolLoopResult, turn: nat)
    returns (phase: Phase)
    requires inv.status == Running
    modifies inv, uow, ports, conversation, result
    ensures LoopNow(inv, uow, ports, conversation, result, phase)
         == Turn(ports.world, cfg, setting, old(LoopNow(inv, uow, ports, conversation, result, Going)), turn)
  {
    hide Answered;
    var elapsedMs := ports.ElapsedMs();
    var remainingMs := setting.budgetMs - elapsedMs;
    if remainingMs <= 0 {
      CloseInvocation(inv, uow, TimedOut, InvocationTimedOut, "BUDGET_EXHAUSTED");
      return Exited;
    }
    var reply := ports.InvokeModel(conversation.messages, Min(remainingMs, MAX_MODEL_TIMEOUT_MS));
    if reply.GatewayError? {
      HandleGatewayError(inv, uow, reply.code);
      return Exited;
    }
    result.Count(reply);
    phase := AnswerTurn(cfg, setting, inv, uow, ports, conversation, result, reply, turn);
  }

  method RunToolLoop(cfg: Config, request: Request, inv: AgentInvocation, uow: InvocationUow, ports: Ports)
    returns (result: ToolLoopResult, phase: Phase)
    requires inv.status == Running
    modifies inv, uow, ports
    ensures fresh(result)
    ensures
      var begun := Loop(old(Current(inv, uow, ports)), old(inv.inputMessages), NO_TALLY, Going);
      var end := Turns(ports.world, cfg, ExecuteSetting(cfg, request), begun, 0);
      Current(inv, uow, ports) == end.run && result.View() == end.tally && phase == end.phase
  {
    hide Turn, ExecuteSetting;
    var setting := ExecuteSetting(cfg, request);
    var conversation := new Conversation(inv.inputMessages);
    result := new ToolLoopResult(NO_TALLY);
    phase := Going;
    ghost var begun := LoopNow(inv, uow, ports, conversation, result, Going);
    var turn := 0;
    while turn < cfg.maxToolTurns && phase == Going
      invariant fresh(conversation) && fresh(result)
      invariant IsBetweenTurns(LoopNow(inv, uow, ports, conversation, result, phase))
      invariant Turns(ports.world, cfg, setting, LoopNow(inv, uow, ports, conversation, result, phase), turn)
             == Turns(ports.world, cfg, setting, begun, 0)
      decreases cfg.maxToolTurns - turn
    {
      phase := RunTurn(cfg, setting, inv, uow, ports, conversation, result, turn);
      turn := turn + 1;
    }
  }

  method CompleteInvocation(inv: AgentInvocation, uow: InvocationUow, result: ToolLoopResult)
    requires inv.status == Running
    modifies inv, uow
    ensures forall trace: Trace ::
              Run(inv.View(), uow.log, trace)
              == Completion(Run(old(inv.View()), old(uow.log), trace), result.View())
  {
    var ok := inv.MarkCompleted(result.outputText, result.calls, result.promptTokens, result.completionTokens);
    assert ok;
    uow.SaveWithEvent(inv, InvocationCompleted);
  }

  /** A whole execution. */
  method ExecuteInvocation(cfg: Config, request: Request, uow: InvocationUow, ports: Ports)
    returns (inv: AgentInvocation)
    requires uow.log == [] && ports.View() == NO_TRACE
    modifies uow, ports
    ensures Current(inv, uow, ports) == Execute(ports.world, cfg, request)
  {
    hide Turns, InputMessages, Completion;
    inv := new AgentInvocation(NEW_INVOCATION);
    var ok := inv.Transition(Starting);
    assert ok;
    ok := inv.MarkRunning(InputMessages(request.instruction));
    assert ok;
    uow.SaveWithEvent(inv, InvocationStarted);
    assert Current(inv, uow, ports) == StartedRun(request, NO_TRACE);
    var result, phase := RunToolLoop(cfg, request, inv, uow, ports);
    if HasLeft(phase) {
      return;
    }
    CompleteInvocation(inv, uow, result);
  }

  // Resuming

  method AnswerResumedTurn(
    route: Route, setting: Setting, inv: AgentInvocation, uow: InvocationUow, ports: Ports,
    conversation: Conversation, result: ToolLoopResult, reply: GatewayReply)
    returns (phase: Phase)
    requires inv.status == Running && reply.Response?
    modifies inv, uow, ports, conversation, result
    ensures LoopNow(inv, uow, ports, conversation, result, phase)
         == ResumedAnswered(
              ports.world, route, setting, old(LoopNow(inv, uow, ports, conversation, result, Going)), reply)
  {
    hide DispatchAll, AssistantMessage, ValidCalls, RouteStyle;
    if reply.finishReason != "tool_calls" || reply.calls == [] || (route.AfterApproval? && !setting.hasService) {
      return Stopped;
    }
    var valid := ValidateToolCalls(reply.calls);
    if valid == [] {
      if route.AfterOverride? {
        return Stopped;
      }
      CloseInvocation(inv, uow, Failed, InvocationFailed, "MALFORMED_TOOL_CALLS");
      return Exited;
    }
    result.calls := result.calls + valid;
    var ok := inv.Transition(WaitingTool);
    assert ok;
    uow.SaveWithEvent(inv, InvocationWaitingTool);
    conversation.Append(AssistantMessage(reply.outputText, valid));
    var _, raised := DispatchTools(ports, setting, RouteStyle(route), valid, conversation);
    if raised {
      return Raised;
    }
    ok := inv.ResumeFromWait();
    assert ok;
    return Going;
  }

  method RunResumedTurn(
    route: Route, setting: Setting, inv: AgentInvocation, uow: InvocationUow, ports: Ports,
    conversation: Conversation, result: ToolLoopResult)
    returns (phase: Phase)
    requires inv.status == Running
    modifies inv, uow, ports, conversation, result
    ensures LoopNow(inv, uow, ports, conversation, result, phase)
         == ResumedTurn(ports.world, route, setting, old(LoopNow(inv, uow, ports, conversation, result, Going)))
  {
    hide ResumedAnswered;
    var elapsedMs := ports.ElapsedMs();
    var remainingMs := setting.budgetMs - elapsedMs;
    if remainingMs <= 0 {
      CloseInvocation(inv, uow, TimedOut, InvocationTimedOut, "BUDGET_EXHAUSTED");
      return Exited;
    }
    var reply := ports.InvokeModel(conversation.messages, Min(remainingMs, MAX_MODEL_TIMEOUT_MS));
    if reply.GatewayError? {
      CloseInvocation(inv, uow, Failed, InvocationFailed, "GATEWAY_ERROR");
      return Exited;
    }
    result.Count(reply);
    phase := AnswerResumedTurn(route, setting, inv, uow, ports, conversation, result, reply);
  }

  /** The loop after a pause, up to the completion. */
  method ContinueModelLoop(
    cfg: Config, route: Route, setting: Setting, inv: AgentInvocation, uow: InvocationUow, ports: Ports,
    conversation: Conversation, result: ToolLoopResult)
    requires inv.status == Running
    modifies inv, uow, ports, conversation, result
    ensures
      var begun := old(LoopNow(inv, uow, ports, conversation, result, Going));
      Current(inv, uow, ports) == Finished(ResumedTurns(ports.world, cfg, route, setting, begun, 0))
  {
    hide ResumedTurn, Completion;
    var phase: Phase := Going;
    ghost var begun := LoopNow(inv, uow, ports, conversation, result, Going);
    var turn := 0;
    while turn < cfg.maxToolTurns - 1 && phase == Going
      invariant IsBetweenTurns(LoopNow(inv, uow, ports, conversation, result, phase))
      invariant ResumedTurns(
                  ports.world, cfg, route, setting, LoopNow(inv, uow, ports, conversation, result, phase), turn)
             == ResumedTurns(ports.world, cfg, route, setting, begun, 0)
      decreases cfg.maxToolTurns - turn
    {
      phase := RunResumedTurn(route, setting, inv, uow, ports, conversation, result);
      turn := turn + 1;
    }
    if !HasLeft(phase) {
      CompleteInvocation(inv, uow, result);
    }
  }

  /** Ends the pause; the context is used up. */
  method Reopen(inv: AgentInvocation, uow: InvocationUow, event: Event)
    requires inv.status == WaitingHuman
    modifies inv, uow
    ensures inv.View() == Move(old(inv.View()), Running).(pending := None)
    ensures uow.log == old(uow.log) + [Saved(event, inv.View())]
    ensures forall trace: Trace ::
              Run(inv.View(), uow.log, trace) == Reopened(Run(old(inv.View()), old(uow.log), trace), event)
  {
    var ok := inv.ResumeFromWait();
    assert ok;
    inv.pending := None;
    uow.SaveWithEvent(inv, event);
  }

  /** Dispatches the calls that had to wait. */
  method RunGatedTools(
    cfg: Config, ctx: Pending, inv: AgentInvocation, uow: InvocationUow, ports: Ports, conversation: Conversation)
    returns (phase: Phase)
    requires inv.status == WaitingHuman && conversation.messages == ctx.messages
    modifies inv, uow, ports, conversation
    ensures
      var l := GatedTurn(ports.world, cfg, old(Current(inv, uow, ports)), ctx);
      Current(inv, uow, ports) == l.run && conversation.messages == l.messages && phase == l.phase
  {
    hide DispatchAll, AssistantMessage;
    Reopen(inv, uow, InvocationResumed);
    var ok := inv.Transition(WaitingTool);
    assert ok;
    uow.SaveWithEvent(inv, InvocationWaitingTool);
    conversation.Append(AssistantMessage(ctx.outputText, ctx.calls));
    var failures, raised := DispatchTools(ports, ResumeSetting(cfg, ctx), GATED_TURN_STYLE, ctx.calls, conversation);
    if raised {
      return Raised;
    }
    if failures == |ctx.calls| {
      CloseInvocation(inv, uow, Failed, InvocationFailed, "ALL_TOOLS_FAILED");
      return Exited;
    }
    ok := inv.ResumeFromWait();
    assert ok;
    return Going;
  }

  method HandleApproved(cfg: Config, ctx: Pending, inv: AgentInvocation, uow: InvocationUow, ports: Ports)
    requires inv.status == WaitingHuman
    modifies inv, uow, ports
    ensures
      var begun := GatedTurn(ports.world, cfg, old(Current(inv, uow, ports)), ctx);
      Current(inv, uow, ports)
      == Finished(ResumedTurns(ports.world, cfg, AfterApproval, ResumeSetting(cfg, ctx), begun, 0))
  {
    hide ResumedTurn, Completion;
    ghost var begun := GatedTurn(ports.world, cfg, Current(inv, uow, ports), ctx);
    var conversation := new Conversation(ctx.messages);
    var result := new ToolLoopResult(ResumedTally(ctx));
    var phase := RunGatedTools(cfg, ctx, inv, uow, ports, conversation);
    assert begun.tally == result.View();
    if HasLeft(phase) {
      return;
    }
    ContinueModelLoop(cfg, AfterApproval, ResumeSetting(cfg, ctx), inv, uow, ports, conversation, result);
  }

  /** The operator's output, once for each call, unless it cannot be encoded. */
  method AppendOverride(calls: seq<ToolCall>, output: Text, conversation: Conversation) returns (raised: bool)
    modifies conversation
    ensures raised <==> calls != [] && !IsEncodable(output)
    ensures !raised ==>
              conversation.messages
              == old(conversation.messages) + (if calls == [] then [] else SyntheticResults(calls, output))
  {
    hide TruncateToolResult, IsEncodable;
    if calls == [] {
      return false;
    }
    if !IsEncodable(output) {
      return true;
    }
    AppendResults(calls, output, conversation);
    return false;
  }

  method AppendResults(calls: seq<ToolCall>, output: ScalarText, conversation: Conversation)
    modifies conversation
    ensures conversation.messages == old(conversation.messages) + SyntheticResults(calls, output)
  {
    hide TruncateToolResult, IsEncodable;
    for i := 0 to |calls|
      invariant conversation.messages + SyntheticResults(calls[i..], output)
             == old(conversation.messages) + SyntheticResults(calls, output)
    {
      assert calls[i..][0] == calls[i] && calls[i..][1..] == calls[i + 1..];
      conversation.Append(ToolOutput(calls[i].id, TruncateToolResult(output)));
    }
  }

  method HandleOverride(
    cfg: Config, ctx: Pending, output: Text, inv: AgentInvocation, uow: InvocationUow, ports: Ports)
    requires inv.status == WaitingHuman
    modifies inv, uow, ports
    ensures
      var begun := OverriddenTurn(old(Current(inv, uow, ports)), ctx, output);
      Current(inv, uow, ports)
      == Finished(ResumedTurns(ports.world, cfg, AfterOverride, ResumeSetting(cfg, ctx), begun, 0))
  {
    hide AssistantMessage, SyntheticResults, Reopened, ResumedTurn, Completion, IsEncodable;
    ghost var begun := OverriddenTurn(Current(inv, uow, ports), ctx, output);
    Reopen(inv, uow, InvocationOverridden);
    var conversation := new Conversation(ctx.messages);
    conversation.Append(AssistantMessage(ctx.outputText, ctx.calls));
    var raised := AppendOverride(ctx.calls, output, conversation);
    if raised || ctx.sandbox.Malformed? {
      return;
    }
    var result := new ToolLoopResult(ResumedTally(ctx));
    assert LoopNow(inv, uow, ports, conversation, result, Going) == begun;
    ContinueModelLoop(cfg, AfterOverride, ResumeSetting(cfg, ctx), inv, uow, ports, conversation, result);
  }

  /** One decision, asked for by a workspace; `before` is the run so far. */
  method ResumeInvocation(
    cfg: Config, workspace: nat, uow: InvocationUow, ports: Ports, decision: HumanDecision, ghost before: Run)
    returns (inv: AgentInvocation?)
    requires before.log == uow.log && before.trace == ports.View()
    modifies uow, ports
    ensures inv == null <==> before.log == [] || workspace != uow.workspace
    ensures
      var after := if inv == null then before else Resume(ports.world, cfg, before, decision);
      && uow.log == after.log && ports.View() == after.trace
      && (inv != null ==> inv.View() == after.inv)
  {
    hide ResumedTurns, GatedTurn, OverriddenTurn, Finished;
    inv := uow.GetById(workspace);
    if inv == null {
      return;
    }
    if inv.status != WaitingHuman {
      return;
    }
    if inv.pending.None? {
      CloseInvocation(inv, uow, Failed, InvocationFailed, "MISSING_PENDING_CONTEXT");
      return;
    }
    var ctx := inv.pending.value;
    match decision
    case Approved => HandleApproved(cfg, ctx, inv, uow, ports);
    case Rejected =>
      var ok := inv.MarkClosed(Failed, "TOOL_REJECTED");
      assert ok;
      inv.pending := None;
      uow.SaveWithEvent(inv, InvocationFailed);
    case Override(output) =>
      if output != [] {
        HandleOverride(cfg, ctx, output, inv, uow, ports);
      }
    case Cancel =>
      var ok := inv.Transition(Cancelled);
      assert ok;
      inv.pending := None;
      inv.error := Some("TOOL_CANCELLED");
      uow.SaveWithEvent(inv, InvocationCancelled);
    case Unknown =>
  }
}
