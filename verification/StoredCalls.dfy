/** Which tool calls a completed invocation stores. */
module StoredCalls {
  import opened Options
  import opened Utf8
  import opened Invocations
  import opened AgentLoop
  import opened Transcripts
  import opened InvocationHistory
  import opened Accounting
  import opened Settling

  /** The valid calls that a response asks for. */
  function CallsOf(reply: GatewayReply): seq<ToolCall> {
    if reply.Response? && reply.finishReason == "tool_calls" then ValidCalls(reply.calls) else []
  }

  /** Those of the answers to the questions from..to of the gateway, in order. */
  function CallsAsked(w: World, from: nat, to: nat): seq<ToolCall>
    requires from <= to
  {
    if from == to then [] else CallsAsked(w, from, to - 1) + CallsOf(w.gateway(to - 1))
  }

  /** A loop that has not left has collected the calls of every response, if they can be sent. */
  ghost predicate IsCollected(w: World, sends: bool, from: nat, l: Loop) {
    && l.run.inv.calls == [] && from <= |l.run.trace.sent|
    && (!HasLeft(l.phase) ==> l.tally.calls == if sends then CallsAsked(w, from, |l.run.trace.sent|) else [])
  }

  lemma NoCallsWithoutEntries(reply: GatewayReply)
    ensures reply.Response? && reply.calls == [] ==> CallsOf(reply) == []
  {
  }

  lemma ToolTurnCollects(w: World, setting: Setting, l: Loop, calls: seq<ToolCall>, text: ScalarText, turn: nat)
    requires l.run.inv.status == Running && l.run.inv.calls == []
    ensures
      var next := ToolTurn(w, setting, l, calls, text, turn);
      && next.run.trace.sent == l.run.trace.sent && next.run.inv.calls == []
      && (!HasLeft(next.phase) ==> next.tally.calls == l.tally.calls)
  {
    hide DispatchAll, AssistantMessage, AnswersAll;
    var waiting := Save(MoveTo(l.run, WaitingTool), InvocationWaitingTool);
    var said := l.messages + [AssistantMessage(text, calls)];
    DispatchAnswersAll(w, setting, TurnStyle(turn), calls, Begun(setting, waiting.trace, said));
  }

  lemma TurnCollects(w: World, cfg: Config, setting: Setting, l: Loop, turn: nat)
    requires l.phase.Going? && l.run.inv.status == Running && IsCollected(w, setting.hasService, 0, l)
    ensures IsCollected(w, setting.hasService, 0, Turn(w, cfg, setting, l, turn))
  {
    hide ToolTurn, ValidCalls, FirstGated, CallsOf;
    var n := |l.run.trace.sent|;
    var reply := w.gateway(n);
    if reply.Response? {
      var calls := ValidCalls(reply.calls);
      var asked := Asked(Checked(l.run), l.messages, setting.budgetMs - w.elapsed(l.run.trace.checks));
      var tally := Counted(l.tally, reply);
      var collected := l.(run := asked, tally := tally.(calls := tally.calls + calls));
      ToolTurnCollects(w, setting, collected, calls, reply.outputText, turn);
      NoCallsWithoutEntries(reply);
      CallsOfAsking(reply);
      assert CallsAsked(w, 0, n + 1) == CallsAsked(w, 0, n) + CallsOf(reply);
    }
  }

  lemma CallsOfAsking(reply: GatewayReply)
    ensures reply.Response? ==>
              CallsOf(reply) == if reply.finishReason == "tool_calls" then ValidCalls(reply.calls) else []
  {
  }

  lemma {:induction false} TurnsCollect(w: World, cfg: Config, setting: Setting, l: Loop, turn: nat)
    requires IsBetweenTurns(l) && IsCollected(w, setting.hasService, 0, l)
    ensures IsCollected(w, setting.hasService, 0, Turns(w, cfg, setting, l, turn))
    decreases cfg.maxToolTurns - turn
  {
    hide Turn, IsCollected;
    if turn < cfg.maxToolTurns && l.phase.Going? {
      TurnCollects(w, cfg, setting, l, turn);
      TurnsCollect(w, cfg, setting, Turn(w, cfg, setting, l, turn), turn + 1);
    }
  }

  // Resuming, which only happens with an execution service

  lemma ResumedTurnCollects(w: World, route: Route, setting: Setting, l: Loop, from: nat)
    requires l.phase.Going? && l.run.inv.status == Running && IsCollected(w, true, from, l) && setting.hasService
    ensures IsCollected(w, true, from, ResumedTurn(w, route, setting, l))
  {
    hide DispatchAll, ValidCalls, AssistantMessage, RouteStyle, CallsOf, AnswersAll;
    var n := |l.run.trace.sent|;
    var reply := w.gateway(n);
    if reply.Response? {
      var calls := ValidCalls(reply.calls);
      var asked := Asked(Checked(l.run), l.messages, setting.budgetMs - w.elapsed(l.run.trace.checks));
      var waiting := Save(MoveTo(asked, WaitingTool), InvocationWaitingTool);
      var said := l.messages + [AssistantMessage(reply.outputText, calls)];
      DispatchAnswersAll(w, setting, RouteStyle(route), calls, Begun(setting, waiting.trace, said));
      NoCallsWithoutEntries(reply);
      CallsOfAsking(reply);
      assert CallsAsked(w, from, n + 1) == CallsAsked(w, from, n) + CallsOf(reply);
    }
  }

  lemma {:induction false} ResumedTurnsCollect(
    w: World, cfg: Config, route: Route, setting: Setting, l: Loop, turn: nat, from: nat)
    requires IsBetweenTurns(l) && IsCollected(w, true, from, l) && setting.hasService
    ensures IsCollected(w, true, from, ResumedTurns(w, cfg, route, setting, l, turn))
    decreases cfg.maxToolTurns - turn
  {
    hide ResumedTurn, IsCollected;
    if turn < cfg.maxToolTurns - 1 && l.phase.Going? {
      ResumedTurnCollects(w, route, setting, l, from);
      ResumedTurnsCollect(w, cfg, route, setting, ResumedTurn(w, route, setting, l), turn + 1, from);
    }
  }

  lemma CallsOfOne(w: World, n: nat)
    ensures CallsAsked(w, n, n + 1) == CallsOf(w.gateway(n))
  {
    assert CallsAsked(w, n, n) == [];
  }

  lemma GatedTurnCollects(w: World, cfg: Config, r: Run, ctx: Pending)
    requires r.inv.status == WaitingHuman && RemembersResponse(w, r) && r.inv.pending == Some(ctx)
    requires r.inv.calls == []
    ensures r.trace.sent != [] && IsCollected(w, true, |r.trace.sent| - 1, GatedTurn(w, cfg, r, ctx))
  {
    hide DispatchAll, AssistantMessage, ValidCalls, CallsOf, AnswersAll;
    var setting := ResumeSetting(cfg, ctx);
    var waiting := Save(MoveTo(Reopened(r, InvocationResumed), WaitingTool), InvocationWaitingTool);
    var said := ctx.messages + [AssistantMessage(ctx.outputText, ctx.calls)];
    DispatchAnswersAll(w, setting, GATED_TURN_STYLE, ctx.calls, Begun(setting, waiting.trace, said));
    CallsOfOne(w, |r.trace.sent| - 1);
    CallsOfAsking(w.gateway(|r.trace.sent| - 1));
  }

  lemma OverriddenTurnCollects(w: World, r: Run, ctx: Pending, output: Text)
    requires r.inv.status == WaitingHuman && RemembersResponse(w, r) && r.inv.pending == Some(ctx)
    requires r.inv.calls == []
    ensures r.trace.sent != [] && IsCollected(w, true, |r.trace.sent| - 1, OverriddenTurn(r, ctx, output))
  {
    hide AssistantMessage, ValidCalls, CallsOf, SyntheticResults, IsEncodable;
    CallsOfOne(w, |r.trace.sent| - 1);
    CallsOfAsking(w.gateway(|r.trace.sent| - 1));
  }

  lemma FinishedStoresCalls(w: World, sends: bool, from: nat, l: Loop)
    requires IsBetweenTurns(l) && IsCollected(w, sends, from, l)
    requires Finished(l).inv.status == Completed && (HasLeft(l.phase) ==> l.run.inv.status != Completed)
    ensures from <= |Finished(l).trace.sent|
    ensures Finished(l).inv.calls == if sends then CallsAsked(w, from, |Finished(l).trace.sent|) else []
  {
    hide CallsAsked;
  }

  lemma ResumeStoresCalls(w: World, cfg: Config, r: Run, decision: HumanDecision)
    requires IsOnHold(r) && RemembersResponse(w, r) && r.inv.calls == [] && cfg.hasExecutionService
    requires Resume(w, cfg, r, decision).inv.status == Completed
    ensures
      var next := Resume(w, cfg, r, decision);
      && 0 < |r.trace.sent| <= |next.trace.sent| + 1
      && next.inv.calls == CallsAsked(w, |r.trace.sent| - 1, |next.trace.sent|)
  {
    hide ResumedTurns, GatedTurn, OverriddenTurn, Finished, IsSound, Pauses, ValidCalls, IsCollected, IsCounted,
      CallsAsked;
    SoundAgrees(r.log);
    var ctx := r.inv.pending.value;
    var setting, from := ResumeSetting(cfg, ctx), |r.trace.sent| - 1;
    if decision.Approved? || decision.Override? {
      var (route, begun) :=
        if decision.Approved? then (AfterApproval, GatedTurn(w, cfg, r, ctx))
        else (AfterOverride, OverriddenTurn(r, ctx, decision.output));
      GatedTurnCollects(w, cfg, r, ctx);
      GatedTurnIsCounted(w, cfg, r, ctx);
      if decision.Override? {
        OverriddenTurnCollects(w, r, ctx, decision.output);
        OverriddenTurnIsCounted(w, r, ctx, decision.output);
      }
      ResumedTurnsCollect(w, cfg, route, setting, begun, 0, from);
      ResumedTurnsAreCounted(w, cfg, route, setting, begun, 0, from, from + 1);
      var end := ResumedTurns(w, cfg, route, setting, begun, 0);
      LeftIsNotCompleted(w, from, from + 1, end);
      FinishedStoresCalls(w, true, from, end);
    }
  }

  lemma ExecuteCollects(w: World, cfg: Config, request: Request)
    ensures IsCollected(w, cfg.hasExecutionService, 0, ExecuteLoop(w, cfg, request))
  {
    hide Turns, InputMessages;
    TurnsCollect(w, cfg, ExecuteSetting(cfg, request), StartedLoop(request), 0);
  }

  /** A completed invocation stores the valid calls of every response since the start, or since the
    * response that a human had to decide on, in order; without an execution service it has none. */
  lemma CallsAreConserved(
    w: World, cfg: Config, request: Request, decisions: seq<HumanDecision>, begun: Run, r: Run)
    requires begun == Execute(w, cfg, request) && r == Life(w, cfg, request, decisions)
    requires r.inv.status == Completed
    ensures
      var from := if begun.inv.status == WaitingHuman then |begun.trace.sent| - 1 else 0;
      && 0 <= from <= |r.trace.sent|
      && r.inv.calls == if cfg.hasExecutionService then CallsAsked(w, from, |r.trace.sent|) else []
  {
    hide ExecuteLoop, Resume, Finished, IsOnHold, IsOver, IsStranded, CallsAsked, IsCounted, IsTallied;
    LifeIsFirstActing(w, cfg, request, decisions, begun);
    ExecuteIsAccounted(w, cfg, request);
    ExecuteCollects(w, cfg, request);
    ExecuteSettles(w, cfg, request);
    var l := ExecuteLoop(w, cfg, request);
    if begun.inv.status == WaitingHuman {
      if !cfg.hasExecutionService {
        IdleExecutionIsPlain(w, cfg, request);
      }
      PausedLoopHasLeft(l);
      ResumeStoresCalls(w, cfg, begun, FirstActing(decisions).value);
    } else {
      LeftIsNotCompleted(w, 0, 0, l);
      FinishedStoresCalls(w, cfg.hasExecutionService, 0, l);
    }
  }

  lemma PausedLoopHasLeft(l: Loop)
    requires IsBetweenTurns(l) && Finished(l).inv.status == WaitingHuman
    ensures Finished(l) == l.run
  {
  }
}
