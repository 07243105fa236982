/** Which requests and which tool services are safe: no model, clock or human can make an
  * exception leave their invocations behind.
  */
module Settling {
  import opened Options
  import opened Utf8
  import opened Invocations
  import opened AgentLoop
  import opened InvocationHistory
  import opened Stranding
  import opened GateRefinement

  /** An exception has ended the run. */
  ghost predicate IsLeftBehind(r: Run) {
    IsStranded(r, Pauses(r.log))
  }

  // Settings in which nothing raises

  ghost predicate IsSafe(w: World, setting: Setting) {
    && !setting.sandbox.Malformed?
    && (setting.sandbox.Uuid? && setting.hasService ==> forall k: nat :: IsUsable(w.tool(k)))
  }

  lemma SafeDispatchOne(w: World, setting: Setting, style: Style, call: ToolCall, d: Dispatching)
    requires IsSafe(w, setting)
    ensures !DispatchOne(w, setting, style, call, d).raised
  {
    hide Rejection, InputOf;
    TextsAreUsable(call);
  }

  lemma {:induction false} SafeDispatch(
    w: World, setting: Setting, style: Style, calls: seq<ToolCall>, d: Dispatching)
    requires IsSafe(w, setting) && !d.raised
    ensures !DispatchAll(w, setting, style, calls, d).raised
  {
    hide DispatchOne, IsSafe;
    if calls != [] {
      SafeDispatchOne(w, setting, style, calls[0], d);
      SafeDispatch(w, setting, style, calls[1..], DispatchOne(w, setting, style, calls[0], d));
    }
  }

  lemma SafeTurn(w: World, cfg: Config, setting: Setting, l: Loop, turn: nat)
    requires l.phase.Going? && l.run.inv.status == Running && IsSafe(w, setting)
    ensures !Turn(w, cfg, setting, l, turn).phase.Raised?
  {
    hide DispatchAll, ValidCalls, FirstGated, AssistantMessage;
    var reply := w.gateway(|l.run.trace.sent|);
    if reply.Response? {
      var calls := ValidCalls(reply.calls);
      var asked := Asked(Checked(l.run), l.messages, setting.budgetMs - w.elapsed(l.run.trace.checks));
      var waiting := Save(MoveTo(asked, WaitingTool), InvocationWaitingTool);
      var said := l.messages + [AssistantMessage(reply.outputText, calls)];
      SafeDispatch(w, setting, TurnStyle(turn), calls, Begun(setting, waiting.trace, said));
    }
  }

  lemma {:induction false} SafeTurns(w: World, cfg: Config, setting: Setting, l: Loop, turn: nat)
    requires IsBetweenTurns(l) && !l.phase.Raised? && IsSafe(w, setting)
    ensures !Turns(w, cfg, setting, l, turn).phase.Raised?
    decreases cfg.maxToolTurns - turn
  {
    hide Turn, IsSafe;
    if turn < cfg.maxToolTurns && l.phase.Going? {
      SafeTurn(w, cfg, setting, l, turn);
      SafeTurns(w, cfg, setting, Turn(w, cfg, setting, l, turn), turn + 1);
    }
  }

  // Configurations in which no tool turn begins

  predicate CanDispatch(cfg: Config, request: Request) {
    cfg.maxToolTurns >= 1 && cfg.hasExecutionService && ExecuteSetting(cfg, request).budgetMs > 0
  }

  /** Neither left by an exception nor waiting for a human. */
  predicate IsPlain(l: Loop) {
    !l.phase.Raised? && l.run.inv.status != WaitingHuman
  }

  lemma IdleTurn(w: World, cfg: Config, setting: Setting, l: Loop, turn: nat)
    requires l.phase.Going? && l.run.inv.status == Running && (!setting.hasService || setting.budgetMs <= 0)
    ensures IsPlain(Turn(w, cfg, setting, l, turn))
  {
    hide ToolTurn, ValidCalls, FirstGated;
  }

  lemma {:induction false} IdleTurns(w: World, cfg: Config, setting: Setting, l: Loop, turn: nat)
    requires IsBetweenTurns(l) && IsPlain(l)
    requires !setting.hasService || setting.budgetMs <= 0 || cfg.maxToolTurns <= turn
    ensures IsPlain(Turns(w, cfg, setting, l, turn))
    decreases cfg.maxToolTurns - turn
  {
    hide Turn;
    if turn < cfg.maxToolTurns && l.phase.Going? {
      IdleTurn(w, cfg, setting, l, turn);
      IdleTurns(w, cfg, setting, Turn(w, cfg, setting, l, turn), turn + 1);
    }
  }

  lemma IdleExecutionIsPlain(w: World, cfg: Config, request: Request)
    requires !CanDispatch(cfg, request)
    ensures IsPlain(ExecuteLoop(w, cfg, request))
    ensures Execute(w, cfg, request).inv.status != WaitingHuman
  {
    hide Turns, InputMessages;
    IdleTurns(w, cfg, ExecuteSetting(cfg, request), StartedLoop(request), 0);
  }

  // One world and a malformed sandbox id

  /** The first response comes in time and asks for tools, none of which needs approval. */
  predicate AsksForTools(w: World, cfg: Config, request: Request) {
    && w.elapsed(0) < ExecuteSetting(cfg, request).budgetMs
    && w.gateway(0).Response? && w.gateway(0).finishReason == "tool_calls"
    && var calls := ValidCalls(w.gateway(0).calls);
       calls != [] && FirstGated(calls, cfg.mode).None?
  }

  lemma MalformedTurn(w: World, cfg: Config, setting: Setting, l: Loop)
    requires l.phase.Going? && l.run.inv.status == Running && setting.sandbox.Malformed? && setting.hasService
    requires l.run.trace == NO_TRACE
    ensures
      var next := Turn(w, cfg, setting, l, 0);
      && !next.phase.Going?
      && (next.phase.Raised? <==>
            && w.elapsed(0) < setting.budgetMs
            && w.gateway(0).Response? && w.gateway(0).finishReason == "tool_calls"
            && ValidCalls(w.gateway(0).calls) != []
            && FirstGated(ValidCalls(w.gateway(0).calls), cfg.mode).None?)
  {
    hide ValidCalls, FirstGated, AssistantMessage;
    NothingIsValid();
  }

  /** A malformed sandbox id strands an execution exactly when its first response asks, in time,
    * for tools that need no approval. */
  lemma MalformedSandboxStrandsExactly(w: World, cfg: Config, request: Request)
    requires request.sandbox.Malformed?
    ensures IsStranded(Execute(w, cfg, request), 0) <==>
              cfg.maxToolTurns >= 1 && cfg.hasExecutionService && AsksForTools(w, cfg, request)
  {
    hide Turn, ValidCalls, FirstGated, IsStranded, Finished, InputMessages;
    ExecuteStrandsWhenRaised(w, cfg, request);
    var setting, begun := ExecuteSetting(cfg, request), StartedLoop(request);
    if cfg.maxToolTurns >= 1 && cfg.hasExecutionService {
      MalformedTurn(w, cfg, setting, begun);
      var first := Turn(w, cfg, setting, begun, 0);
      assert Turns(w, cfg, setting, begun, 0) == Turns(w, cfg, setting, first, 1) == first;
    } else {
      IdleExecutionIsPlain(w, cfg, request);
    }
  }

  // A model that strands

  /** A call that passes the gate and the guardrails. */
  const PLAIN_ENTRY := Entry("a", Some(RawFunction("t", NotDecodable)))
  const PLAIN_CALL := ToolCall("a", "t", NotDecodable)

  function Copies<T>(x: T, n: nat): seq<T> {
    if n == 0 then [] else [x] + Copies(x, n - 1)
  }

  function Asking(n: nat): GatewayReply {
    Response([], 0, 0, "tool_calls", Copies(PLAIN_ENTRY, n))
  }

  lemma {:induction false} PlainCallsPass(n: nat, mode: ApprovalMode)
    ensures ValidCalls(Copies(PLAIN_ENTRY, n)) == Copies(PLAIN_CALL, n)
    ensures FirstGated(Copies(PLAIN_CALL, n), mode).None?
    ensures |Copies(PLAIN_CALL, n)| == n
  {
    if n > 0 {
      PlainCallsPass(n - 1, mode);
      assert Copies(PLAIN_ENTRY, n)[1..] == Copies(PLAIN_ENTRY, n - 1);
      assert Copies(PLAIN_CALL, n)[1..] == Copies(PLAIN_CALL, n - 1);
    }
  }

  lemma PlainDispatchOne(w: World, setting: Setting, style: Style, d: Dispatching)
    requires setting.sandbox.Uuid? && setting.hasService && setting.budgetMs > 0
    requires forall k: nat :: w.elapsed(k) == 0
    ensures |DispatchOne(w, setting, style, PLAIN_CALL, d).trace.dispatched| == |d.trace.dispatched| + 1
  {
    hide Content, ResultOfReply;
  }

  lemma {:induction false} PlainDispatch(w: World, setting: Setting, style: Style, n: nat, d: Dispatching)
    requires setting.sandbox.Uuid? && setting.hasService && setting.budgetMs > 0
    requires forall k: nat :: w.elapsed(k) == 0
    ensures
      var end := DispatchAll(w, setting, style, Copies(PLAIN_CALL, n), d);
      end.raised || |end.trace.dispatched| == |d.trace.dispatched| + n
  {
    hide DispatchOne;
    if n > 0 && !d.raised {
      PlainDispatchOne(w, setting, style, d);
      assert Copies(PLAIN_CALL, n)[1..] == Copies(PLAIN_CALL, n - 1);
      PlainDispatch(w, setting, style, n - 1, DispatchOne(w, setting, style, PLAIN_CALL, d));
    }
  }

  /** A first turn with enough calls meets the unusable reply. */
  lemma UnusableReplyRaises(w: World, setting: Setting, k: nat, trace: Trace, messages: seq<Message>, turn: nat)
    requires setting.sandbox.Uuid? && setting.hasService && setting.budgetMs > 0 && trace.dispatched == []
    requires !IsUsable(w.tool(k)) && forall i: nat :: w.elapsed(i) == 0
    ensures DispatchAll(w, setting, TurnStyle(turn), Copies(PLAIN_CALL, k + 1), Begun(setting, trace, messages)).raised
  {
    hide DispatchAll, TurnStyle, IsUsable;
    var begun := Begun(setting, trace, messages);
    PlainDispatch(w, setting, TurnStyle(turn), k + 1, begun);
    DispatchRaises(w, setting, TurnStyle(turn), Copies(PLAIN_CALL, k + 1), begun);
  }

  /** The gateway asks for so many tools at once, and no time passes. */
  function StrandingWorld(tool: nat -> ToolReply, n: nat): World {
    World(_ => Asking(n), tool, _ => 0)
  }

  lemma UnusableReplyStrands(tool: nat -> ToolReply, cfg: Config, request: Request, k: nat)
    requires CanDispatch(cfg, request) && request.sandbox.Uuid? && !IsUsable(tool(k))
    ensures IsStranded(Execute(StrandingWorld(tool, k + 1), cfg, request), 0)
  {
    hide DispatchAll, IsStranded, Finished, InputMessages, IsUsable, AssistantMessage, ValidCalls, FirstGated, Copies;
    var w := StrandingWorld(tool, k + 1);
    var setting, begun := ExecuteSetting(cfg, request), StartedLoop(request);
    var calls := Copies(PLAIN_CALL, k + 1);
    ExecuteStrandsWhenRaised(w, cfg, request);
    PlainCallsPass(k + 1, cfg.mode);
    NothingIsValid();
    var asked := Asked(Checked(begun.run), begun.messages, setting.budgetMs);
    var waiting := Save(MoveTo(asked, WaitingTool), InvocationWaitingTool);
    UnusableReplyRaises(w, setting, k, waiting.trace, begun.messages + [AssistantMessage([], calls)], 0);
    var first := Turn(w, cfg, setting, begun, 0);
    assert first.phase.Raised?;
    hide Turn;
    assert Turns(w, cfg, setting, begun, 0) == Turns(w, cfg, setting, first, 1) == first;
  }

  // What a pause remembers

  predicate RemembersRequest(sandbox: SandboxText, r: Run) {
    r.inv.status == WaitingHuman ==>
      r.inv.pending.Some? && r.inv.pending.value.sandbox == sandbox && r.inv.pending.value.calls != []
  }

  lemma TurnRemembersRequest(w: World, cfg: Config, setting: Setting, l: Loop, turn: nat)
    requires l.phase.Going? && l.run.inv.status == Running
    ensures RemembersRequest(setting.sandbox, Turn(w, cfg, setting, l, turn).run)
  {
    hide ToolTurn, ValidCalls, FirstGated;
    var reply := w.gateway(|l.run.trace.sent|);
    if reply.Response? {
      var calls := ValidCalls(reply.calls);
      var asked := Asked(Checked(l.run), l.messages, setting.budgetMs - w.elapsed(l.run.trace.checks));
      var tally := Counted(l.tally, reply);
      var collected := l.(run := asked, tally := tally.(calls := tally.calls + calls));
      ToolTurnDoesNotPause(w, setting, collected, calls, reply.outputText, turn);
    }
  }

  lemma {:induction false} TurnsRememberRequest(w: World, cfg: Config, setting: Setting, l: Loop, turn: nat)
    requires IsBetweenTurns(l) && RemembersRequest(setting.sandbox, l.run)
    ensures RemembersRequest(setting.sandbox, Turns(w, cfg, setting, l, turn).run)
    decreases cfg.maxToolTurns - turn
  {
    hide Turn, RemembersRequest;
    if turn < cfg.maxToolTurns && l.phase.Going? {
      TurnRemembersRequest(w, cfg, setting, l, turn);
      TurnsRememberRequest(w, cfg, setting, Turn(w, cfg, setting, l, turn), turn + 1);
    }
  }

  /** A pause remembers the sandbox of its request and the calls that wait, and nothing has gone
    * wrong before it. */
  lemma PauseIsOnTrack(w: World, cfg: Config, request: Request)
    requires Execute(w, cfg, request).inv.status == WaitingHuman
    ensures
      var r := Execute(w, cfg, request);
      && IsOnHold(r) && r.inv.pending.Some?
      && r.inv.pending.value.sandbox == request.sandbox && r.inv.pending.value.calls != []
      && !IsDerailed(w, request.sandbox, r)
  {
    hide Turns, IsOnHold, IsOver, IsStranded, IsDerailed, InputMessages;
    ExecuteSettles(w, cfg, request);
    ExecuteStrandsExactly(w, cfg, request);
    TurnsRememberRequest(w, cfg, ExecuteSetting(cfg, request), StartedLoop(request), 0);
  }

  // Decisions

  lemma SafeResumedTurn(w: World, route: Route, setting: Setting, l: Loop)
    requires l.phase.Going? && l.run.inv.status == Running && IsSafe(w, setting)
    ensures !ResumedTurn(w, route, setting, l).phase.Raised?
  {
    hide DispatchAll, ValidCalls, AssistantMessage, RouteStyle;
    var reply := w.gateway(|l.run.trace.sent|);
    if reply.Response? {
      var calls := ValidCalls(reply.calls);
      var asked := Asked(Checked(l.run), l.messages, setting.budgetMs - w.elapsed(l.run.trace.checks));
      var waiting := Save(MoveTo(asked, WaitingTool), InvocationWaitingTool);
      var said := l.messages + [AssistantMessage(reply.outputText, calls)];
      SafeDispatch(w, setting, RouteStyle(route), calls, Begun(setting, waiting.trace, said));
    }
  }

  lemma {:induction false} SafeResumedTurns(
    w: World, cfg: Config, route: Route, setting: Setting, l: Loop, turn: nat)
    requires IsBetweenTurns(l) && !l.phase.Raised? && IsSafe(w, setting)
    ensures !ResumedTurns(w, cfg, route, setting, l, turn).phase.Raised?
    decreases cfg.maxToolTurns - turn
  {
    hide ResumedTurn, IsSafe;
    if turn < cfg.maxToolTurns - 1 && l.phase.Going? {
      SafeResumedTurn(w, route, setting, l);
      SafeResumedTurns(w, cfg, route, setting, ResumedTurn(w, route, setting, l), turn + 1);
    }
  }

  lemma SafeGatedTurn(w: World, cfg: Config, r: Run, ctx: Pending)
    requires r.inv.status == WaitingHuman && IsSafe(w, ResumeSetting(cfg, ctx))
    ensures !GatedTurn(w, cfg, r, ctx).phase.Raised?
  {
    hide DispatchAll, AssistantMessage, IsSafe;
    var waiting := Save(MoveTo(Reopened(r, InvocationResumed), WaitingTool), InvocationWaitingTool);
    var said := ctx.messages + [AssistantMessage(ctx.outputText, ctx.calls)];
    var setting := ResumeSetting(cfg, ctx);
    assert !setting.sandbox.Malformed? by { SafeParses(w, setting); }
    SafeDispatch(w, setting, GATED_TURN_STYLE, ctx.calls, Begun(setting, waiting.trace, said));
  }

  lemma SafeParses(w: World, setting: Setting)
    requires IsSafe(w, setting)
    ensures !setting.sandbox.Malformed?
  {
  }

  lemma ResumedStrandsWhenRaised(w: World, cfg: Config, route: Route, setting: Setting, begun: Loop)
    requires IsBetweenTurns(begun) && IsResuming(begun)
    ensures ResumedTurns(w, cfg, route, setting, begun, 0).phase.Raised?
       <==> IsStranded(Finished(ResumedTurns(w, cfg, route, setting, begun, 0)), 1)
  {
    hide ResumedTurns, IsSound, Pauses, Completion;
    ResumedTurnsAreResuming(w, cfg, route, setting, begun, 0);
    var end := ResumedTurns(w, cfg, route, setting, begun, 0);
    if !HasLeft(end.phase) {
      CompletionIsOver(end.run, end.tally, 1);
    }
  }

  /** In a safe setting a decision on a pause is left behind exactly when it is an override that
    * cannot be encoded. */
  lemma SafePauseStrandsExactly(w: World, cfg: Config, r: Run, decision: HumanDecision)
    requires IsOnHold(r) && r.inv.pending.Some? && IsSafe(w, ResumeSetting(cfg, r.inv.pending.value))
    ensures IsStranded(Resume(w, cfg, r, decision), 1) <==> IsUnusable(decision, r.inv.pending.value)
  {
    hide ResumedTurns, GatedTurn, Finished, IsSound, Pauses, IsEncodable, IsSafe, SyntheticResults;
    SoundAgrees(r.log);
    var ctx := r.inv.pending.value;
    var setting := ResumeSetting(cfg, ctx);
    SafeParses(w, setting);
    if decision.Approved? {
      SafeGatedTurn(w, cfg, r, ctx);
      GatedTurnIsResuming(w, cfg, r, ctx);
      SafeResumedTurns(w, cfg, AfterApproval, setting, GatedTurn(w, cfg, r, ctx), 0);
      ResumedStrandsWhenRaised(w, cfg, AfterApproval, setting, GatedTurn(w, cfg, r, ctx));
    } else if decision.Override? && decision.output != [] {
      var begun := OverriddenTurn(r, ctx, decision.output);
      OverriddenTurnIsResuming(r, ctx, decision.output);
      if IsUnusable(decision, ctx) {
        UnusableOverrideStrands(w, cfg, setting, r, ctx, decision);
      } else {
        SafeResumedTurns(w, cfg, AfterOverride, setting, begun, 0);
        ResumedStrandsWhenRaised(w, cfg, AfterOverride, setting, begun);
      }
    } else {
      OtherDecisionsStrandNothing(w, cfg, r, decision);
    }
  }

  /** Decisions that call nothing and put nothing before the model. */
  lemma OtherDecisionsStrandNothing(w: World, cfg: Config, r: Run, decision: HumanDecision)
    requires IsOnHold(r) && r.inv.pending.Some?
    requires !decision.Approved? && (decision.Override? ==> decision.output == [])
    ensures !IsStranded(Resume(w, cfg, r, decision), 1) && !IsUnusable(decision, r.inv.pending.value)
  {
    hide IsSound, Pauses;
    SoundAgrees(r.log);
  }

  /** A malformed sandbox id strands a pause under exactly those decisions that go on with it. */
  lemma MalformedPauseStrandsExactly(w: World, cfg: Config, r: Run, decision: HumanDecision)
    requires IsOnHold(r) && r.inv.pending.Some? && r.inv.pending.value.sandbox.Malformed?
    ensures IsStranded(Resume(w, cfg, r, decision), 1) <==>
              decision.Approved? || (decision.Override? && decision.output != [])
  {
    hide Finished, IsSound, Pauses, IsEncodable, SyntheticResults, AssistantMessage;
    SoundAgrees(r.log);
    var ctx := r.inv.pending.value;
    var setting := ResumeSetting(cfg, ctx);
    if decision.Approved? {
      assert GatedTurn(w, cfg, r, ctx).phase.Raised?;
      GatedTurnIsResuming(w, cfg, r, ctx);
      ResumedStrandsWhenRaised(w, cfg, AfterApproval, setting, GatedTurn(w, cfg, r, ctx));
    } else if decision.Override? && decision.output != [] {
      OverriddenTurnIsResuming(r, ctx, decision.output);
      ResumedStrandsWhenRaised(w, cfg, AfterOverride, setting, OverriddenTurn(r, ctx, decision.output));
    } else {
      OtherDecisionsStrandNothing(w, cfg, r, decision);
    }
  }

  // Whole lives

  function FirstActing(decisions: seq<HumanDecision>): Option<HumanDecision> {
    if decisions == [] then None
    else
      var n := |decisions| - 1;
      var before := FirstActing(decisions[..n]);
      if before.Some? then before else if Acts(decisions[n]) then Some(decisions[n]) else None
  }

  /** Of all decisions, only the first that acts on a pause has any effect. */
  lemma {:induction false} LifeIsFirstActing(
    w: World, cfg: Config, request: Request, decisions: seq<HumanDecision>, begun: Run)
    requires begun == Execute(w, cfg, request)
    ensures
      var first := FirstActing(decisions);
      Life(w, cfg, request, decisions)
      == if begun.inv.status == WaitingHuman && first.Some? then Resume(w, cfg, begun, first.value) else begun
    decreases |decisions|
  {
    hide Execute, Resume, IsOnHold, HasEnded, Acts;
    if decisions != [] {
      var n := |decisions| - 1;
      LifeIsFirstActing(w, cfg, request, decisions[..n], begun);
      ExecuteSettles(w, cfg, request);
      var before := FirstActing(decisions[..n]);
      if begun.inv.status != WaitingHuman {
        ResumeKeepsEnded(w, cfg, begun, 0, decisions[n]);
      } else if before.Some? {
        FirstActingActs(decisions[..n]);
        ResumeEnds(w, cfg, begun, before.value);
        ResumeKeepsEnded(w, cfg, Resume(w, cfg, begun, before.value), 1, decisions[n]);
      } else {
        ResumeEnds(w, cfg, begun, decisions[n]);
      }
    }
  }

  lemma {:induction false} FirstActingActs(decisions: seq<HumanDecision>)
    ensures FirstActing(decisions).Some? ==>
              Acts(FirstActing(decisions).value) && FirstActing(decisions).value in decisions
  {
    hide Acts;
    if decisions != [] {
      FirstActingActs(decisions[..|decisions| - 1]);
    }
  }

  lemma StrandedIsLeftBehind(r: Run, pauses: nat)
    requires HasEnded(r, pauses) || IsOnHold(r)
    ensures IsLeftBehind(r) <==> IsStranded(r, pauses)
  {
  }

  /** The same over whole lives: what went wrong, if anything did. */
  lemma LifeStrandsExactly(w: World, cfg: Config, request: Request, decisions: seq<HumanDecision>, r: Run)
    requires r == Life(w, cfg, request, decisions)
    ensures
      var begun, first := Execute(w, cfg, request), FirstActing(decisions);
      IsLeftBehind(r) <==>
        || IsDerailed(w, request.sandbox, r)
        || (begun.inv.status == WaitingHuman && first.Some? && first.value.Override?
            && !IsEncodable(first.value.output))
  {
    hide Execute, Resume, IsOnHold, IsStranded, IsOver, IsDerailed, IsEncodable, FirstActing, IsLeftBehind;
    var begun, first := Execute(w, cfg, request), FirstActing(decisions);
    LifeIsFirstActing(w, cfg, request, decisions, begun);
    ExecuteSettles(w, cfg, request);
    ExecuteStrandsExactly(w, cfg, request);
    StrandedIsLeftBehind(begun, 0);
    if begun.inv.status == WaitingHuman && first.Some? {
      PauseIsOnTrack(w, cfg, request);
      FirstActingActs(decisions);
      ResumeEnds(w, cfg, begun, first.value);
      StrandedIsLeftBehind(r, 1);
      ResumeStrandsExactly(w, cfg, begun, first.value);
    }
  }

  ghost predicate AreUsable(decisions: seq<HumanDecision>) {
    forall i :: 0 <= i < |decisions| && decisions[i].Override? ==> IsEncodable(decisions[i].output)
  }

  /** Whatever the model, the clock and (with text that can be encoded) the humans do, no
    * exception leaves the invocation behind. */
  ghost predicate AlwaysSettles(tool: nat -> ToolReply, cfg: Config, request: Request) {
    forall gateway: nat -> GatewayReply, elapsed: nat -> nat, decisions: seq<HumanDecision> ::
      AreUsable(decisions) ==> !IsLeftBehind(Life(World(gateway, tool, elapsed), cfg, request, decisions))
  }

  ghost predicate IsSafeRequest(tool: nat -> ToolReply, cfg: Config, request: Request) {
    || !CanDispatch(cfg, request)
    || request.sandbox.NoSandbox?
    || (request.sandbox.Uuid? && forall k: nat :: IsUsable(tool(k)))
  }

  lemma SafeLifeSettles(w: World, cfg: Config, request: Request, decisions: seq<HumanDecision>)
    requires IsSafeRequest(w.tool, cfg, request) && AreUsable(decisions)
    ensures !IsLeftBehind(Life(w, cfg, request, decisions))
  {
    hide Turns, Resume, IsOnHold, IsStranded, IsOver, IsLeftBehind, FirstActing, IsEncodable, Finished, StartedLoop;
    var begun, first := Execute(w, cfg, request), FirstActing(decisions);
    LifeIsFirstActing(w, cfg, request, decisions, begun);
    ExecuteSettles(w, cfg, request);
    StrandedIsLeftBehind(begun, 0);
    ExecuteStrandsWhenRaised(w, cfg, request);
    if !CanDispatch(cfg, request) {
      IdleExecutionIsPlain(w, cfg, request);
    } else {
      StartedLoopIsGoing(request);
      SafeTurns(w, cfg, ExecuteSetting(cfg, request), StartedLoop(request), 0);
      if begun.inv.status == WaitingHuman && first.Some? {
        PauseIsOnTrack(w, cfg, request);
        FirstActingActs(decisions);
        ResumeEnds(w, cfg, begun, first.value);
        StrandedIsLeftBehind(Resume(w, cfg, begun, first.value), 1);
        SafePauseStrandsExactly(w, cfg, begun, first.value);
      }
    }
  }

  lemma StartedLoopIsGoing(request: Request)
    ensures IsBetweenTurns(StartedLoop(request)) && StartedLoop(request).phase.Going?
  {
  }

  /** The requests and tool services that are safe: nothing can be dispatched at all, or there is
    * no sandbox, or the sandbox id parses and the service's replies are all usable. */
  lemma AlwaysSettlesExactlyWhenSafe(tool: nat -> ToolReply, cfg: Config, request: Request)
    ensures AlwaysSettles(tool, cfg, request) <==> IsSafeRequest(tool, cfg, request)
  {
    hide Life, Execute, IsLeftBehind, IsUsable, CanDispatch;
    if IsSafeRequest(tool, cfg, request) {
      forall gateway: nat -> GatewayReply, elapsed: nat -> nat, decisions: seq<HumanDecision> | AreUsable(decisions)
        ensures !IsLeftBehind(Life(World(gateway, tool, elapsed), cfg, request, decisions))
      {
        SafeLifeSettles(World(gateway, tool, elapsed), cfg, request, decisions);
      }
    } else {
      var n := UnsafeRequestStrands(tool, cfg, request);
      var w := StrandingWorld(tool, n);
      assert AreUsable([]) && IsLeftBehind(Life(World(w.gateway, tool, w.elapsed), cfg, request, []));
    }
  }

  lemma UnsafeRequestStrands(tool: nat -> ToolReply, cfg: Config, request: Request) returns (n: nat)
    requires !IsSafeRequest(tool, cfg, request)
    ensures IsLeftBehind(Life(StrandingWorld(tool, n), cfg, request, []))
  {
    hide Execute, IsUsable, IsStranded, IsOver, IsOnHold;
    if request.sandbox.Uuid? {
      var k: nat :| !IsUsable(tool(k));
      n := k + 1;
      UnusableReplyStrands(tool, cfg, request, k);
    } else {
      n := 1;
      var w := StrandingWorld(tool, 1);
      PlainCallsPass(1, cfg.mode);
      MalformedSandboxStrandsExactly(w, cfg, request);
    }
    StrandedIsLeftBehind(Execute(StrandingWorld(tool, n), cfg, request), 0);
  }

  // Humans who may give any text

  lemma UngatedTurn(w: World, cfg: Config, setting: Setting, l: Loop, turn: nat)
    requires l.phase.Going? && l.run.inv.status == Running && cfg.mode != ModeGate
    ensures Turn(w, cfg, setting, l, turn).run.inv.status != WaitingHuman
  {
    hide ToolTurn, ValidCalls, FirstGated;
    var reply := w.gateway(|l.run.trace.sent|);
    if reply.Response? {
      var calls := ValidCalls(reply.calls);
      var asked := Asked(Checked(l.run), l.messages, setting.budgetMs - w.elapsed(l.run.trace.checks));
      var tally := Counted(l.tally, reply);
      var collected := l.(run := asked, tally := tally.(calls := tally.calls + calls));
      GateFindsFirstGatedCall(calls, cfg.mode);
      ToolTurnDoesNotPause(w, setting, collected, calls, reply.outputText, turn);
    }
  }

  lemma {:induction false} UngatedTurns(w: World, cfg: Config, setting: Setting, l: Loop, turn: nat)
    requires IsBetweenTurns(l) && l.run.inv.status != WaitingHuman && cfg.mode != ModeGate
    ensures Turns(w, cfg, setting, l, turn).run.inv.status != WaitingHuman
    decreases cfg.maxToolTurns - turn
  {
    hide Turn;
    if turn < cfg.maxToolTurns && l.phase.Going? {
      UngatedTurn(w, cfg, setting, l, turn);
      UngatedTurns(w, cfg, setting, Turn(w, cfg, setting, l, turn), turn + 1);
    }
  }

  lemma UngatedExecution(w: World, cfg: Config, request: Request)
    requires cfg.mode != ModeGate
    ensures Execute(w, cfg, request).inv.status != WaitingHuman
  {
    hide Turns, InputMessages;
    UngatedTurns(w, cfg, ExecuteSetting(cfg, request), StartedLoop(request), 0);
  }

  const GATED_ENTRY := Entry("a", Some(RawFunction("shell.exec", NotDecodable)))

  function PausingWorld(tool: nat -> ToolReply): World {
    World(_ => Response([], 0, 0, "tool_calls", [GATED_ENTRY]), tool, _ => 0)
  }

  lemma GatePauses(tool: nat -> ToolReply, cfg: Config, request: Request)
    requires CanDispatch(cfg, request) && cfg.mode == ModeGate
    ensures Execute(PausingWorld(tool), cfg, request).inv.status == WaitingHuman
  {
    hide DispatchAll, InputMessages, AssistantMessage;
    var w := PausingWorld(tool);
    var setting, begun := ExecuteSetting(cfg, request), StartedLoop(request);
    var call := ToolCall("a", "shell.exec", NotDecodable);
    NothingIsValid();
    assert ValidCalls([GATED_ENTRY]) == [call] && FirstGated([call], cfg.mode) == Some(call);
    hide ValidCalls, FirstGated;
    var first := Turn(w, cfg, setting, begun, 0);
    assert first.run.inv.status == WaitingHuman;
    hide Turn;
    assert Turns(w, cfg, setting, begun, 0) == Turns(w, cfg, setting, first, 1) == first;
  }

  ghost predicate AlwaysSettlesWithAnyText(tool: nat -> ToolReply, cfg: Config, request: Request) {
    forall gateway: nat -> GatewayReply, elapsed: nat -> nat, decisions: seq<HumanDecision> ::
      !IsLeftBehind(Life(World(gateway, tool, elapsed), cfg, request, decisions))
  }

  /** With any text in overrides, a configuration that can pause is not safe either. */
  lemma AlwaysSettlesWithAnyTextExactly(tool: nat -> ToolReply, cfg: Config, request: Request)
    ensures AlwaysSettlesWithAnyText(tool, cfg, request) <==>
              IsSafeRequest(tool, cfg, request) && !(cfg.mode == ModeGate && CanDispatch(cfg, request))
  {
    hide Life, Execute, IsLeftBehind, IsUsable, CanDispatch, IsSafeRequest, IsEncodable;
    if cfg.mode == ModeGate && CanDispatch(cfg, request) {
      var w := PausingWorld(tool);
      UnusableTextStrands(tool, cfg, request);
      assert IsLeftBehind(Life(World(w.gateway, tool, w.elapsed), cfg, request, [Override([0xD800])]));
    } else if !IsSafeRequest(tool, cfg, request) {
      var n := UnsafeRequestStrands(tool, cfg, request);
      var w := StrandingWorld(tool, n);
      assert IsLeftBehind(Life(World(w.gateway, tool, w.elapsed), cfg, request, []));
    } else {
      forall gateway: nat -> GatewayReply, elapsed: nat -> nat, decisions: seq<HumanDecision>
        ensures !IsLeftBehind(Life(World(gateway, tool, elapsed), cfg, request, decisions))
      {
        UnpausedLifeSettles(World(gateway, tool, elapsed), cfg, request, decisions);
      }
    }
  }

  lemma UnusableTextStrands(tool: nat -> ToolReply, cfg: Config, request: Request)
    requires CanDispatch(cfg, request) && cfg.mode == ModeGate
    ensures IsLeftBehind(Life(PausingWorld(tool), cfg, request, [Override([0xD800])]))
  {
    hide Life, Execute, IsLeftBehind, IsDerailed;
    var w, bad := PausingWorld(tool), Override([0xD800]);
    GatePauses(tool, cfg, request);
    assert [bad][..0] == [] && FirstActing([]) == None;
    assert FirstActing([bad]) == Some(bad);
    assert !IsScalar(bad.output[0]);
    LifeStrandsExactly(w, cfg, request, [bad], Life(w, cfg, request, [bad]));
  }

  lemma UnpausedLifeSettles(w: World, cfg: Config, request: Request, decisions: seq<HumanDecision>)
    requires IsSafeRequest(w.tool, cfg, request) && (cfg.mode != ModeGate || !CanDispatch(cfg, request))
    ensures !IsLeftBehind(Life(w, cfg, request, decisions))
  {
    hide Execute, IsLeftBehind, IsUsable, CanDispatch, IsSafeRequest, Resume, FirstActing;
    var begun := Execute(w, cfg, request);
    if cfg.mode != ModeGate {
      UngatedExecution(w, cfg, request);
    } else {
      IdleExecutionIsPlain(w, cfg, request);
    }
    LifeIsFirstActing(w, cfg, request, decisions, begun);
    assert AreUsable([]);
    SafeLifeSettles(w, cfg, request, []);
  }
}
