/** What the agent runtime does, as functions of the answers it gets from outside. The model
  * gateway, the execution service and the clock are oracles: the k-th question to each gets
  * the k-th answer of an arbitrary world.
  */
module AgentLoop {
  import opened Options
  import opened Utf8
  import opened Truncation
  import opened PythonStrings
  import opened Invocations

  // The world outside

  /** An element of the model's tool_calls: not a dict, or a dict whose id may be empty and
    * whose function, if it is a dict, may have an empty name. */
  datatype RawCall = NotADict | Entry(id: string, func: Option<RawFunction>)
  datatype RawFunction = RawFunction(name: string, arguments: Arguments)

  datatype GatewayReply =
    | GatewayError(code: string)
    | Response(outputText: ScalarText, promptTokens: int, completionTokens: int,
               finishReason: string, calls: seq<RawCall>)

  /** A field of a tool's reply, which comes from JSON: it can be missing, a string of any code
    * points, or no string at all. */
  datatype Field = Missing | Characters(text: Text) | NotText(isTrue: bool)

  datatype ToolReply =
    | ToolRaised(message: Text)
    | ToolReturned(status: string, stdout: Field, errorMessage: Field, truncated: bool)

  /** `elapsed(k)` is the k-th reading of the milliseconds since the current budget began, on a
    * clock that does not run backwards. */
  datatype World = World(gateway: nat -> GatewayReply, tool: nat -> ToolReply, elapsed: nat -> nat)

  datatype ModelCall = ModelCall(messages: seq<Message>, timeoutMs: int)
  datatype Dispatch = Dispatch(name: string, input: ToolInput, attempt: nat)

  /** Everything that has gone out so far. */
  datatype Trace = Trace(sent: seq<ModelCall>, dispatched: seq<Dispatch>, checks: nat)

  datatype ApprovalMode = ModeNone | ModeWarn | ModeGate
  datatype Decision = Allow | Warn | Gate

  datatype Config = Config(maxToolTurns: int, budgetMs: int, mode: ApprovalMode, hasExecutionService: bool)
  datatype Request = Request(instruction: ScalarText, timeoutMs: int, sandbox: SandboxText)

  const MAX_MODEL_TIMEOUT_MS := 60000
  const MAX_TOOL_INPUT_BYTES := 65536

  // Events

  datatype Event =
    | InvocationStarted | InvocationWaitingTool | InvocationWaitingHuman
    | TurnCompleted(turn: nat, tools: nat, failures: nat)
    | InvocationResumed | InvocationOverridden
    | InvocationCompleted | InvocationFailed | InvocationTimedOut | InvocationCancelled

  /** One commit: the event and the invocation as it was saved with it. */
  datatype Saved = Saved(event: Event, invocation: Invocation)

  datatype Run = Run(inv: Invocation, log: seq<Saved>, trace: Trace)

  function Save(r: Run, event: Event): Run {
    r.(log := r.log + [Saved(event, r.inv)])
  }

  function MoveTo(r: Run, target: Status): Run
    requires IsAllowed(r.inv.status, target)
  {
    r.(inv := Move(r.inv, target))
  }

  function Closed(r: Run, target: Status, event: Event, code: string): Run
    requires IsAllowed(r.inv.status, target)
  {
    Save(r.(inv := Move(r.inv, target).(error := Some(code))), event)
  }

  // Tool calls

  predicate IsValidCall(raw: RawCall) {
    raw.Entry? && raw.id != "" && raw.func.Some? && raw.func.value.name != ""
  }

  function ValidCalls(raw: seq<RawCall>): seq<ToolCall> {
    if raw == [] then []
    else
      var first := raw[0];
      (if IsValidCall(first) then [ToolCall(first.id, first.func.value.name, first.func.value.arguments)]
       else [])
      + ValidCalls(raw[1..])
  }

  predicate IsGatedTool(name: string) {
    name == "shell.exec" || name == "python.run_script"
  }

  function EvaluateToolApproval(name: string, mode: ApprovalMode): Decision {
    if mode == ModeNone || !IsGatedTool(name) then Allow else if mode == ModeGate then Gate else Warn
  }

  /** The first call of a turn that has to wait for a human. */
  function FirstGated(calls: seq<ToolCall>, mode: ApprovalMode): Option<ToolCall> {
    if calls == [] then None
    else if EvaluateToolApproval(calls[0].name, mode) == Gate then Some(calls[0])
    else FirstGated(calls[1..], mode)
  }

  function Decimal(n: nat): string {
    var digit := [['0', '1', '2', '3', '4', '5', '6', '7', '8', '9'][n % 10]];
    if n < 10 then digit else Decimal(n / 10) + digit
  }

  /** Why the guardrails refuse a call, if they do. */
  function Rejection(name: string, input: ToolInput): Option<ScalarText> {
    if input.jsonSize > MAX_TOOL_INPUT_BYTES then
      Some(FromString("Tool input too large (" + Decimal(input.jsonSize) + " chars, max "
                      + Decimal(MAX_TOOL_INPUT_BYTES) + " bytes)"))
    else if name == "shell.exec" && IsBlank(if input.code != "" then input.code else input.command) then
      Some(FromString("shell.exec: empty command"))
    else if name == "python.run_script" && IsBlank(input.code) then
      Some(FromString("python.run_script: empty code"))
    else None
  }

  datatype ToolResult = ToolResult(status: string, stdout: Field, errorMessage: Field, truncated: bool)

  function FailedTool(message: Text): ToolResult {
    ToolResult("failed", Characters([]), Characters(message), false)
  }

  function ResultOfReply(reply: ToolReply): ToolResult {
    match reply
    case ToolRaised(message) => FailedTool(message)
    case ToolReturned(status, stdout, errorMessage, truncated) => ToolResult(status, stdout, errorMessage, truncated)
  }

  /** Runs one tool call, or says why not; every path gives a result. */
  function ToolExecuted(
    w: World, hasService: bool, sandbox: SandboxText, call: ToolCall, attempt: nat, t: Trace): (ToolResult, Trace)
  {
    var input := InputOf(call);
    var rejection := Rejection(call.name, input);
    if rejection.Some? then (FailedTool(rejection.value), t)
    else if !sandbox.Uuid? then (FailedTool(FromString("No sandbox_id available")), t)
    else if !hasService then (FailedTool(FromString("No execution service")), t)
    else
      (ResultOfReply(w.tool(|t.dispatched|)),
       t.(dispatched := t.dispatched + [Dispatch(call.name, input, attempt)]))
  }

  const TOOL_FAILED: ScalarText := FromString("Tool execution failed")
  const TRUNCATED_BY_SERVICE: ScalarText := FromString("\n[output truncated by execution-service]")
  const SKIPPED_IN_TURN: ScalarText := FromString("Budget exhausted \U{2014} tool execution skipped")
  const SKIPPED_AFTER_RESUME: ScalarText := FromString("Budget exhausted")

  /** The dispatch loops of the runtime differ in three ways: what they say when the budget
    * runs out (or that they do not look), whether they note that the service cut the output,
    * and which attempt they report. */
  datatype Style = Style(skipped: Option<ScalarText>, notesTruncation: bool, attempt: nat)

  function TurnStyle(turn: nat): Style {
    Style(Some(SKIPPED_IN_TURN), true, turn)
  }

  const GATED_TURN_STYLE := Style(Some(SKIPPED_IN_TURN), true, 0)
  const RESUMED_STYLE := Style(Some(SKIPPED_AFTER_RESUME), false, 0)
  const OVERRIDDEN_STYLE := Style(None, false, 0)

  /** The text of a result: its output, or else its error message, or else a fixed text. What is
    * not a string, or cannot be encoded, makes the runtime raise. */
  function TextOf(result: ToolResult): Option<ScalarText> {
    var output, message := result.stdout, result.errorMessage;
    var text :=
      if (output.Characters? && output.text != []) || (output.NotText? && output.isTrue) then output
      else if message.Missing? then Characters(TOOL_FAILED)
      else message;
    if text.Characters? && IsEncodable(text.text) then Some(text.text) else None
  }

  function Content(style: Style, result: ToolResult): Option<Text> {
    var text := TextOf(result);
    if text.None? then None
    else
      Some(TruncateToolResult(
             if style.notesTruncation && result.truncated then text.value + TRUNCATED_BY_SERVICE else text.value))
  }

  /** The environment of one dispatch. */
  datatype Setting = Setting(hasService: bool, sandbox: SandboxText, budgetMs: int)

  /** `raised`: an exception has left the loop; nothing catches it. */
  datatype Dispatching = Dispatching(trace: Trace, messages: seq<Message>, failures: nat, raised: bool)

  /** Before the loop the sandbox id is parsed. */
  function Begun(setting: Setting, trace: Trace, messages: seq<Message>): Dispatching {
    Dispatching(trace, messages, 0, setting.sandbox.Malformed?)
  }

  function DispatchOne(w: World, setting: Setting, style: Style, call: ToolCall, d: Dispatching): Dispatching {
    var checked := if style.skipped.Some? then d.trace.(checks := d.trace.checks + 1) else d.trace;
    if style.skipped.Some? && setting.budgetMs - w.elapsed(d.trace.checks) <= 0 then
      Dispatching(checked, d.messages + [ToolOutput(call.id, style.skipped.value)], d.failures + 1, false)
    else
      var (result, trace) := ToolExecuted(w, setting.hasService, setting.sandbox, call, style.attempt, checked);
      var failures := if result.status == "completed" then d.failures else d.failures + 1;
      var content := Content(style, result);
      if content.None? then Dispatching(trace, d.messages, failures, true)
      else Dispatching(trace, d.messages + [ToolOutput(call.id, content.value)], failures, false)
  }

  function DispatchAll(w: World, setting: Setting, style: Style, calls: seq<ToolCall>, d: Dispatching): Dispatching {
    if calls == [] || d.raised then d
    else DispatchAll(w, setting, style, calls[1..], DispatchOne(w, setting, style, calls[0], d))
  }

  // The loop of a fresh invocation

  /** The running totals of a loop. */
  datatype Tally = Tally(
    outputText: ScalarText, promptTokens: int, completionTokens: int, calls: seq<ToolCall>,
    turns: nat, toolsCalled: nat, toolFailures: nat)

  const NO_TALLY := Tally([], 0, 0, [], 0, 0, 0)

  /** Going on, left by break with the invocation to be completed, left early, or left by an
    * exception. */
  datatype Phase = Going | Stopped | Exited | Raised

  datatype Loop = Loop(run: Run, messages: seq<Message>, tally: Tally, phase: Phase)

  predicate HasLeft(phase: Phase) {
    phase.Exited? || phase.Raised?
  }

  /** A loop that has not left is between turns, and its invocation is running. */
  predicate IsBetweenTurns(l: Loop) {
    !HasLeft(l.phase) ==> l.run.inv.status == Running
  }

  function Min(a: int, b: int): int {
    if a < b then a else b
  }

  function Checked(r: Run): Run {
    r.(trace := r.trace.(checks := r.trace.checks + 1))
  }

  function Asked(r: Run, messages: seq<Message>, remainingMs: int): Run {
    r.(trace := r.trace.(sent := r.trace.sent + [ModelCall(messages, Min(remainingMs, MAX_MODEL_TIMEOUT_MS))]))
  }

  function Counted(t: Tally, reply: GatewayReply): Tally
    requires reply.Response?
  {
    t.(outputText := reply.outputText, promptTokens := t.promptTokens + reply.promptTokens,
       completionTokens := t.completionTokens + reply.completionTokens)
  }

  function AssistantMessage(text: ScalarText, calls: seq<ToolCall>): Message {
    Assistant(if text == [] then None else Some(text), calls)
  }

  function PendingFor(
    calls: seq<ToolCall>, messages: seq<Message>, reply: GatewayReply, sandbox: SandboxText, gated: ToolCall): Pending
    requires reply.Response?
  {
    Pending(calls, messages, reply.outputText, reply.promptTokens, reply.completionTokens, sandbox, gated.name)
  }

  /** The pause at the gate. */
  function Paused(l: Loop, calls: seq<ToolCall>, reply: GatewayReply, sandbox: SandboxText, gated: ToolCall): Loop
    requires reply.Response? && l.run.inv.status == Running
  {
    var inv := Move(l.run.inv, WaitingHuman).(pending := Some(PendingFor(calls, l.messages, reply, sandbox, gated)));
    l.(run := Save(l.run.(inv := inv), InvocationWaitingHuman), phase := Exited)
  }

  /** A turn with tools, from the assistant message to the end of the turn. */
  function ToolTurn(w: World, setting: Setting, l: Loop, calls: seq<ToolCall>, text: ScalarText, turn: nat)
    : (next: Loop)
    requires l.run.inv.status == Running
    ensures IsBetweenTurns(next)
  {
    var waiting := Save(MoveTo(l.run, WaitingTool), InvocationWaitingTool);
    var d := DispatchAll(w, setting, TurnStyle(turn), calls,
                         Begun(setting, waiting.trace, l.messages + [AssistantMessage(text, calls)]));
    var done := waiting.(trace := d.trace);
    var tally := l.tally.(toolsCalled := l.tally.toolsCalled + |calls|,
                          toolFailures := l.tally.toolFailures + d.failures);
    if d.raised then Loop(done, d.messages, l.tally, Raised)
    else if d.failures == |calls| && |calls| > 0 then
      Loop(Closed(done, Failed, InvocationFailed, "ALL_TOOLS_FAILED"), d.messages, tally, Exited)
    else
      Loop(Save(MoveTo(done, Running), TurnCompleted(turn, |calls|, d.failures)), d.messages,
           tally.(turns := turn + 1), Going)
  }

  /** What follows a response of the model. */
  function Answered(w: World, cfg: Config, setting: Setting, l: Loop, reply: GatewayReply, turn: nat): (next: Loop)
    requires reply.Response? && l.run.inv.status == Running
    ensures IsBetweenTurns(next)
  {
    if reply.finishReason != "tool_calls" || reply.calls == [] || !setting.hasService then l.(phase := Stopped)
    else
      var calls := ValidCalls(reply.calls);
      if calls == [] then
        l.(run := Closed(l.run, Failed, InvocationFailed, "MALFORMED_TOOL_CALLS"), phase := Exited)
      else
        var collected := l.(tally := l.tally.(calls := l.tally.calls + calls));
        var gated := FirstGated(calls, cfg.mode);
        if gated.Some? then Paused(collected, calls, reply, setting.sandbox, gated.value)
        else ToolTurn(w, setting, collected, calls, reply.outputText, turn)
  }

  function Turn(w: World, cfg: Config, setting: Setting, l: Loop, turn: nat): (next: Loop)
    requires l.phase.Going? && l.run.inv.status == Running
    ensures IsBetweenTurns(next)
  {
    var remainingMs := setting.budgetMs - w.elapsed(l.run.trace.checks);
    var checked := Checked(l.run);
    if remainingMs <= 0 then
      l.(run := Closed(checked, TimedOut, InvocationTimedOut, "BUDGET_EXHAUSTED"), phase := Exited)
    else
      var asked := Asked(checked, l.messages, remainingMs);
      match w.gateway(|checked.trace.sent|)
      case GatewayError(code) =>
        if code == "TIMEOUT" then l.(run := Closed(asked, TimedOut, InvocationTimedOut, code), phase := Exited)
        else l.(run := Closed(asked, Failed, InvocationFailed, code), phase := Exited)
      case Response(_, _, _, _, _) =>
        var reply := w.gateway(|checked.trace.sent|);
        Answered(w, cfg, setting, l.(run := asked, tally := Counted(l.tally, reply)), reply, turn)
  }

  function Turns(w: World, cfg: Config, setting: Setting, l: Loop, turn: nat): (end: Loop)
    requires IsBetweenTurns(l)
    ensures IsBetweenTurns(end)
    decreases cfg.maxToolTurns - turn
  {
    if turn >= cfg.maxToolTurns || !l.phase.Going? then l
    else Turns(w, cfg, setting, Turn(w, cfg, setting, l, turn), turn + 1)
  }

  function Completion(r: Run, tally: Tally): Run
    requires r.inv.status == Running
  {
    var inv := Move(r.inv, Completed).(
      outputText := Some(tally.outputText), calls := if tally.calls == [] then r.inv.calls else tally.calls,
      promptTokens := Some(tally.promptTokens), completionTokens := Some(tally.completionTokens));
    Save(r.(inv := inv), InvocationCompleted)
  }

  /** Completes the invocation unless the loop has left. */
  function Finished(l: Loop): Run
    requires IsBetweenTurns(l)
  {
    if HasLeft(l.phase) then l.run else Completion(l.run, l.tally)
  }

  function InputMessages(instruction: ScalarText): seq<Message> {
    if instruction == [] then [] else [User(instruction)]
  }

  function StartedRun(request: Request, trace: Trace): Run {
    var started := Move(NEW_INVOCATION, Starting);
    var running := Move(started, Running).(inputMessages := InputMessages(request.instruction));
    Save(Run(running, [], trace), InvocationStarted)
  }

  function ExecuteSetting(cfg: Config, request: Request): Setting {
    Setting(cfg.hasExecutionService, request.sandbox,
            if request.timeoutMs > 0 then request.timeoutMs else cfg.budgetMs)
  }

  const NO_TRACE := Trace([], [], 0)

  function StartedLoop(request: Request): Loop {
    var started := StartedRun(request, NO_TRACE);
    Loop(started, started.inv.inputMessages, NO_TALLY, Going)
  }

  function ExecuteLoop(w: World, cfg: Config, request: Request): (l: Loop)
    ensures IsBetweenTurns(l)
  {
    Turns(w, cfg, ExecuteSetting(cfg, request), StartedLoop(request), 0)
  }

  function Execute(w: World, cfg: Config, request: Request): Run {
    Finished(ExecuteLoop(w, cfg, request))
  }

  // Resuming

  /** The two continuations of a pause differ in how they dispatch, in whether a missing
    * execution service stops them, and in whether malformed calls fail or stop them. */
  datatype Route = AfterApproval | AfterOverride

  function RouteStyle(route: Route): Style {
    if route.AfterApproval? then RESUMED_STYLE else OVERRIDDEN_STYLE
  }

  function ResumedAnswered(w: World, route: Route, setting: Setting, l: Loop, reply: GatewayReply): (next: Loop)
    requires reply.Response? && l.run.inv.status == Running
    ensures IsBetweenTurns(next)
  {
    if reply.finishReason != "tool_calls" || reply.calls == [] || (route.AfterApproval? && !setting.hasService) then
      l.(phase := Stopped)
    else
      var calls := ValidCalls(reply.calls);
      if calls == [] then
        if route.AfterOverride? then l.(phase := Stopped)
        else l.(run := Closed(l.run, Failed, InvocationFailed, "MALFORMED_TOOL_CALLS"), phase := Exited)
      else
        var waiting := Save(MoveTo(l.run, WaitingTool), InvocationWaitingTool);
        var d := DispatchAll(w, setting, RouteStyle(route), calls,
                             Begun(setting, waiting.trace, l.messages + [AssistantMessage(reply.outputText, calls)]));
        var done, tally := waiting.(trace := d.trace), l.tally.(calls := l.tally.calls + calls);
        if d.raised then Loop(done, d.messages, tally, Raised)
        else Loop(MoveTo(done, Running), d.messages, tally, Going)
  }

  function ResumedTurn(w: World, route: Route, setting: Setting, l: Loop): (next: Loop)
    requires l.phase.Going? && l.run.inv.status == Running
    ensures IsBetweenTurns(next)
  {
    var remainingMs := setting.budgetMs - w.elapsed(l.run.trace.checks);
    var checked := Checked(l.run);
    if remainingMs <= 0 then
      l.(run := Closed(checked, TimedOut, InvocationTimedOut, "BUDGET_EXHAUSTED"), phase := Exited)
    else
      var asked := Asked(checked, l.messages, remainingMs);
      var reply := w.gateway(|checked.trace.sent|);
      if reply.GatewayError? then
        l.(run := Closed(asked, Failed, InvocationFailed, "GATEWAY_ERROR"), phase := Exited)
      else ResumedAnswered(w, route, setting, l.(run := asked, tally := Counted(l.tally, reply)), reply)
  }

  /** One turn fewer than a fresh invocation has. */
  function ResumedTurns(w: World, cfg: Config, route: Route, setting: Setting, l: Loop, turn: nat): (end: Loop)
    requires IsBetweenTurns(l)
    ensures IsBetweenTurns(end)
    decreases cfg.maxToolTurns - turn
  {
    if turn >= cfg.maxToolTurns - 1 || !l.phase.Going? then l
    else ResumedTurns(w, cfg, route, setting, ResumedTurn(w, route, setting, l), turn + 1)
  }

  function ResumeSetting(cfg: Config, ctx: Pending): Setting {
    Setting(cfg.hasExecutionService, ctx.sandbox, cfg.budgetMs)
  }

  function ResumedTally(ctx: Pending): Tally {
    NO_TALLY.(promptTokens := ctx.promptTokens, completionTokens := ctx.completionTokens, calls := ctx.calls)
  }

  /** The pause is over and its context is used up. */
  function Reopened(r: Run, event: Event): Run
    requires r.inv.status == WaitingHuman
  {
    Save(r.(inv := Move(r.inv, Running).(pending := None)), event)
  }

  /** The gated turn, run after approval. */
  function GatedTurn(w: World, cfg: Config, r: Run, ctx: Pending): (next: Loop)
    requires r.inv.status == WaitingHuman
    ensures IsBetweenTurns(next)
  {
    var waiting := Save(MoveTo(Reopened(r, InvocationResumed), WaitingTool), InvocationWaitingTool);
    var setting := ResumeSetting(cfg, ctx);
    var d := DispatchAll(w, setting, GATED_TURN_STYLE, ctx.calls,
                         Begun(setting, waiting.trace, ctx.messages + [AssistantMessage(ctx.outputText, ctx.calls)]));
    var done := waiting.(trace := d.trace);
    if d.raised then Loop(done, d.messages, ResumedTally(ctx), Raised)
    else if d.failures == |ctx.calls| then
      Loop(Closed(done, Failed, InvocationFailed, "ALL_TOOLS_FAILED"), d.messages, ResumedTally(ctx), Exited)
    else Loop(MoveTo(done, Running), d.messages, ResumedTally(ctx), Going)
  }

  function SyntheticResults(calls: seq<ToolCall>, output: ScalarText): seq<Message> {
    if calls == [] then []
    else [ToolOutput(calls[0].id, TruncateToolResult(output))] + SyntheticResults(calls[1..], output)
  }

  /** The gated turn, with the operator's output in place of every tool's. */
  function OverriddenTurn(r: Run, ctx: Pending, output: Text): (next: Loop)
    requires r.inv.status == WaitingHuman
    ensures IsBetweenTurns(next)
  {
    var reopened := Reopened(r, InvocationOverridden);
    var said := ctx.messages + [AssistantMessage(ctx.outputText, ctx.calls)];
    if ctx.calls != [] && !IsEncodable(output) then Loop(reopened, said, ResumedTally(ctx), Raised)
    else
      var answered := said + if ctx.calls == [] then [] else SyntheticResults(ctx.calls, output);
      Loop(reopened, answered, ResumedTally(ctx), if ctx.sandbox.Malformed? then Raised else Going)
  }

  datatype HumanDecision = Approved | Rejected | Override(output: Text) | Cancel | Unknown

  /** A decision on the invocation as it was last saved. Only a waiting invocation is touched. */
  function Resume(w: World, cfg: Config, r: Run, decision: HumanDecision): Run {
    if r.log == [] then r
    else
      var inv := r.log[|r.log| - 1].invocation;
      var loaded := r.(inv := inv);
      if inv.status != WaitingHuman then loaded
      else if inv.pending.None? then Closed(loaded, Failed, InvocationFailed, "MISSING_PENDING_CONTEXT")
      else
        var ctx := inv.pending.value;
        match decision
        case Approved =>
          Finished(ResumedTurns(w, cfg, AfterApproval, ResumeSetting(cfg, ctx), GatedTurn(w, cfg, loaded, ctx), 0))
        case Rejected =>
          Save(loaded.(inv := Move(inv, Failed).(error := Some("TOOL_REJECTED"), pending := None)), InvocationFailed)
        case Override(output) =>
          if output == [] then loaded
          else
            Finished(ResumedTurns(w, cfg, AfterOverride, ResumeSetting(cfg, ctx),
                                  OverriddenTurn(loaded, ctx, output), 0))
        case Cancel =>
          Save(loaded.(inv := Move(inv, Cancelled).(error := Some("TOOL_CANCELLED"), pending := None)),
               InvocationCancelled)
        case Unknown => loaded
  }

  /** A whole life: one execution and then any sequence of decisions. */
  function Life(w: World, cfg: Config, request: Request, decisions: seq<HumanDecision>): Run {
    if decisions == [] then Execute(w, cfg, request)
    else
      Resume(w, cfg, Life(w, cfg, request, decisions[..|decisions| - 1]), decisions[|decisions| - 1])
  }
}
