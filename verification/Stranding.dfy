/** When an exception leaves an invocation behind in a status that is not its last. */
module Stranding {
  import opened Utf8
  import opened Invocations
  import opened AgentLoop
  import opened InvocationHistory

  /** The text that a reply puts before the model is a string that can be encoded. */
  predicate IsUsable(reply: ToolReply) {
    TextOf(ResultOfReply(reply)).Some?
  }

  /** It is the output, if there is any, or else the error; without either a fixed text is used. */
  lemma UsableRepliesAre(reply: ToolReply)
    ensures IsUsable(reply) <==>
              match reply
              case ToolRaised(message) => IsEncodable(message)
              case ToolReturned(_, stdout, error, _) =>
                if stdout.Missing? || stdout == Characters([]) || stdout == NotText(false) then
                  error.Missing? || (error.Characters? && IsEncodable(error.text))
                else stdout.Characters? && IsEncodable(stdout.text)
  {
    assert IsEncodable([]);
  }

  predicate HasUnusableReply(w: World, t: Trace) {
    exists k :: 0 <= k < |t.dispatched| && !IsUsable(w.tool(k))
  }

  /** The sandbox id has been parsed. */
  predicate HasParsed(log: seq<Saved>) {
    exists k :: 0 <= k < |log| && log[k].event in {InvocationWaitingTool, InvocationOverridden}
  }

  /** A tool has given an unusable reply, or a sandbox id that does not parse has been used. */
  predicate IsDerailed(w: World, sandbox: SandboxText, r: Run) {
    HasUnusableReply(w, r.trace) || (sandbox.Malformed? && HasParsed(r.log))
  }

  predicate RaisesExactly(w: World, sandbox: SandboxText, l: Loop) {
    l.phase.Raised? <==> IsDerailed(w, sandbox, l.run)
  }

  // Dispatching

  lemma DispatchOneRaises(w: World, setting: Setting, style: Style, call: ToolCall, d: Dispatching)
    requires !HasUnusableReply(w, d.trace)
    ensures
      var next := DispatchOne(w, setting, style, call, d);
      next.raised <==> HasUnusableReply(w, next.trace)
  {
    hide Rejection, InputOf;
    TextsAreUsable(call);
    var next := DispatchOne(w, setting, style, call, d);
    var n := |d.trace.dispatched|;
    if next.trace.dispatched != d.trace.dispatched {
      assert next.trace.dispatched[..n] == d.trace.dispatched;
    }
  }

  /** What the runtime says itself can be encoded. */
  lemma TextsAreUsable(call: ToolCall)
    ensures
      var rejection := Rejection(call.name, InputOf(call));
      rejection.Some? ==> TextOf(FailedTool(rejection.value)).Some?
    ensures TextOf(FailedTool(FromString("No sandbox_id available"))).Some?
    ensures TextOf(FailedTool(FromString("No execution service"))).Some?
  {
    hide InputOf, Rejection;
  }

  lemma {:induction false} DispatchRaises(
    w: World, setting: Setting, style: Style, calls: seq<ToolCall>, d: Dispatching)
    requires !HasUnusableReply(w, d.trace) && !d.raised
    ensures
      var end := DispatchAll(w, setting, style, calls, d);
      end.raised <==> HasUnusableReply(w, end.trace)
  {
    hide DispatchOne, HasUnusableReply;
    if calls != [] {
      DispatchOneRaises(w, setting, style, calls[0], d);
      var next := DispatchOne(w, setting, style, calls[0], d);
      if !next.raised {
        DispatchRaises(w, setting, style, calls[1..], next);
      }
    }
  }

  lemma BegunRaises(
    w: World, setting: Setting, style: Style, calls: seq<ToolCall>, trace: Trace, messages: seq<Message>)
    requires !HasUnusableReply(w, trace)
    ensures
      var end := DispatchAll(w, setting, style, calls, Begun(setting, trace, messages));
      end.raised <==> setting.sandbox.Malformed? || HasUnusableReply(w, end.trace)
  {
    hide HasUnusableReply;
    if !setting.sandbox.Malformed? {
      DispatchRaises(w, setting, style, calls, Begun(setting, trace, messages));
    }
  }

  lemma ParsedOneMore(log: seq<Saved>, s: Saved)
    ensures HasParsed(log + [s]) <==>
              HasParsed(log) || s.event in {InvocationWaitingTool, InvocationOverridden}
  {
    var longer := log + [s];
    assert longer[|log|] == s;
    assert forall k :: 0 <= k < |log| ==> longer[k] == log[k];
  }

  // A fresh invocation

  lemma ToolTurnRaises(w: World, setting: Setting, l: Loop, calls: seq<ToolCall>, text: ScalarText, turn: nat)
    requires l.phase.Going? && l.run.inv.status == Running && !IsDerailed(w, setting.sandbox, l.run)
    ensures RaisesExactly(w, setting.sandbox, ToolTurn(w, setting, l, calls, text, turn))
  {
    hide DispatchAll, AssistantMessage, HasUnusableReply, HasParsed;
    var waiting := Save(MoveTo(l.run, WaitingTool), InvocationWaitingTool);
    var said := l.messages + [AssistantMessage(text, calls)];
    BegunRaises(w, setting, TurnStyle(turn), calls, waiting.trace, said);
    ParsedOneMore(l.run.log, Saved(InvocationWaitingTool, waiting.inv));
    var next := ToolTurn(w, setting, l, calls, text, turn);
    if next.run.log != waiting.log {
      var last := next.run.log[|waiting.log|];
      assert next.run.log == waiting.log + [last];
      ParsedOneMore(waiting.log, last);
    }
  }

  lemma AnsweredRaises(w: World, cfg: Config, setting: Setting, l: Loop, reply: GatewayReply, turn: nat)
    requires reply.Response? && l.phase.Going? && l.run.inv.status == Running
    requires !IsDerailed(w, setting.sandbox, l.run)
    ensures RaisesExactly(w, setting.sandbox, Answered(w, cfg, setting, l, reply, turn))
  {
    hide ToolTurn, FirstGated, ValidCalls, HasUnusableReply, HasParsed;
    var calls := ValidCalls(reply.calls);
    var collected := l.(tally := l.tally.(calls := l.tally.calls + calls));
    ToolTurnRaises(w, setting, collected, calls, reply.outputText, turn);
    LastSaveParsesNothing(l.run, Answered(w, cfg, setting, l, reply, turn).run);
  }

  /** A save of another kind. */
  lemma LastSaveParsesNothing(r: Run, next: Run)
    ensures
      && |next.log| == |r.log| + 1 && next.log[..|r.log|] == r.log
      && next.log[|r.log|].event !in {InvocationWaitingTool, InvocationOverridden}
      ==> (HasParsed(next.log) <==> HasParsed(r.log))
  {
    hide HasParsed;
    if |next.log| == |r.log| + 1 && next.log[..|r.log|] == r.log {
      assert next.log == r.log + [next.log[|r.log|]];
      ParsedOneMore(r.log, next.log[|r.log|]);
    }
  }

  lemma TurnRaises(w: World, cfg: Config, setting: Setting, l: Loop, turn: nat)
    requires l.phase.Going? && l.run.inv.status == Running && RaisesExactly(w, setting.sandbox, l)
    ensures RaisesExactly(w, setting.sandbox, Turn(w, cfg, setting, l, turn))
  {
    hide Answered, HasUnusableReply, HasParsed;
    var remainingMs := setting.budgetMs - w.elapsed(l.run.trace.checks);
    var reply := w.gateway(|l.run.trace.sent|);
    var asked := Asked(Checked(l.run), l.messages, remainingMs);
    SameDispatched(w, l.run.trace, Checked(l.run).trace);
    SameDispatched(w, l.run.trace, asked.trace);
    LastSaveParsesNothing(l.run, Turn(w, cfg, setting, l, turn).run);
    if remainingMs > 0 && reply.Response? {
      AnsweredRaises(w, cfg, setting, l.(run := asked, tally := Counted(l.tally, reply)), reply, turn);
    }
  }

  lemma SameDispatched(w: World, t: Trace, u: Trace)
    requires t.dispatched == u.dispatched
    ensures HasUnusableReply(w, t) <==> HasUnusableReply(w, u)
  {
  }

  lemma {:induction false} TurnsRaise(w: World, cfg: Config, setting: Setting, l: Loop, turn: nat)
    requires IsBetweenTurns(l) && RaisesExactly(w, setting.sandbox, l)
    ensures RaisesExactly(w, setting.sandbox, Turns(w, cfg, setting, l, turn))
    decreases cfg.maxToolTurns - turn
  {
    hide Turn, RaisesExactly;
    if turn < cfg.maxToolTurns && l.phase.Going? {
      TurnRaises(w, cfg, setting, l, turn);
      TurnsRaise(w, cfg, setting, Turn(w, cfg, setting, l, turn), turn + 1);
    }
  }

  lemma FinishedRaises(w: World, sandbox: SandboxText, l: Loop)
    requires IsBetweenTurns(l)
    ensures IsDerailed(w, sandbox, Finished(l)) <==> IsDerailed(w, sandbox, l.run)
  {
    hide HasUnusableReply, HasParsed;
    if !HasLeft(l.phase) {
      LastSaveParsesNothing(l.run, Completion(l.run, l.tally));
    }
  }

  /** An execution settles, closed or on hold, exactly when every reply that it got from a tool
    * is usable and it did not come to use a sandbox id that does not parse. */
  lemma ExecuteStrandsExactly(w: World, cfg: Config, request: Request)
    ensures
      var r := Execute(w, cfg, request);
      && (IsStranded(r, 0) <==> IsDerailed(w, request.sandbox, r))
      && (IsOver(r, 0) || IsOnHold(r) <==> !IsDerailed(w, request.sandbox, r))
  {
    hide Turns, IsUnderway, IsStranded, IsOver, IsOnHold, StartedLoop;
    var setting, begun := ExecuteSetting(cfg, request), StartedLoop(request);
    StartIsUnderway(cfg.mode, request);
    StartRaisesNothing(w, request);
    TurnsRaise(w, cfg, setting, begun, 0);
    TurnsAreUnderway(w, cfg, setting, begun, 0);
    var l := ExecuteLoop(w, cfg, request);
    FinishedRaises(w, request.sandbox, l);
    FinishedSettles(cfg.mode, l);
  }

  lemma ExecuteStrandsWhenRaised(w: World, cfg: Config, request: Request)
    ensures ExecuteLoop(w, cfg, request).phase.Raised? <==> IsStranded(Execute(w, cfg, request), 0)
  {
    hide Turns, IsUnderway, IsStranded, IsOver, IsOnHold, StartedLoop;
    StartIsUnderway(cfg.mode, request);
    TurnsAreUnderway(w, cfg, ExecuteSetting(cfg, request), StartedLoop(request), 0);
    FinishedSettles(cfg.mode, ExecuteLoop(w, cfg, request));
  }

  lemma NothingIsValid()
    ensures ValidCalls([]) == []
  {
  }

  lemma StartRaisesNothing(w: World, request: Request)
    ensures RaisesExactly(w, request.sandbox, StartedLoop(request))
  {
    hide InputMessages;
  }

  lemma FinishedSettles(mode: ApprovalMode, l: Loop)
    requires IsBetweenTurns(l) && IsUnderway(mode, l)
    ensures l.phase.Raised? <==> IsStranded(Finished(l), 0)
    ensures !l.phase.Raised? <==> IsOver(Finished(l), 0) || IsOnHold(Finished(l))
  {
    hide IsSound, Pauses, KeepsGate, Completion;
    if !HasLeft(l.phase) {
      CompletionIsOver(l.run, l.tally, 0);
    }
  }

  // Resuming

  lemma ResumedAnsweredRaises(w: World, route: Route, setting: Setting, l: Loop, reply: GatewayReply)
    requires reply.Response? && l.phase.Going? && l.run.inv.status == Running
    requires !IsDerailed(w, setting.sandbox, l.run)
    ensures RaisesExactly(w, setting.sandbox, ResumedAnswered(w, route, setting, l, reply))
  {
    hide DispatchAll, AssistantMessage, HasUnusableReply, HasParsed, ValidCalls, RouteStyle;
    var waiting := Save(MoveTo(l.run, WaitingTool), InvocationWaitingTool);
    var calls := ValidCalls(reply.calls);
    var said := l.messages + [AssistantMessage(reply.outputText, calls)];
    BegunRaises(w, setting, RouteStyle(route), calls, waiting.trace, said);
    ParsedOneMore(l.run.log, Saved(InvocationWaitingTool, waiting.inv));
    LastSaveParsesNothing(l.run, ResumedAnswered(w, route, setting, l, reply).run);
  }

  lemma ResumedTurnRaises(w: World, route: Route, setting: Setting, l: Loop)
    requires l.phase.Going? && l.run.inv.status == Running && RaisesExactly(w, setting.sandbox, l)
    ensures RaisesExactly(w, setting.sandbox, ResumedTurn(w, route, setting, l))
  {
    hide ResumedAnswered, HasUnusableReply, HasParsed;
    var remainingMs := setting.budgetMs - w.elapsed(l.run.trace.checks);
    var reply := w.gateway(|l.run.trace.sent|);
    var asked := Asked(Checked(l.run), l.messages, remainingMs);
    SameDispatched(w, l.run.trace, Checked(l.run).trace);
    SameDispatched(w, l.run.trace, asked.trace);
    LastSaveParsesNothing(l.run, ResumedTurn(w, route, setting, l).run);
    if remainingMs > 0 && reply.Response? {
      ResumedAnsweredRaises(w, route, setting, l.(run := asked, tally := Counted(l.tally, reply)), reply);
    }
  }

  lemma {:induction false} ResumedTurnsRaise(
    w: World, cfg: Config, route: Route, setting: Setting, l: Loop, turn: nat)
    requires IsBetweenTurns(l) && RaisesExactly(w, setting.sandbox, l)
    ensures RaisesExactly(w, setting.sandbox, ResumedTurns(w, cfg, route, setting, l, turn))
    decreases cfg.maxToolTurns - turn
  {
    hide ResumedTurn, RaisesExactly;
    if turn < cfg.maxToolTurns - 1 && l.phase.Going? {
      ResumedTurnRaises(w, route, setting, l);
      ResumedTurnsRaise(w, cfg, route, setting, ResumedTurn(w, route, setting, l), turn + 1);
    }
  }

  lemma GatedTurnRaises(w: World, cfg: Config, r: Run, ctx: Pending)
    requires r.inv.status == WaitingHuman && !IsDerailed(w, ctx.sandbox, r)
    ensures RaisesExactly(w, ctx.sandbox, GatedTurn(w, cfg, r, ctx))
  {
    hide DispatchAll, AssistantMessage, HasUnusableReply, HasParsed;
    var reopened := Reopened(r, InvocationResumed);
    var waiting := Save(MoveTo(reopened, WaitingTool), InvocationWaitingTool);
    var said := ctx.messages + [AssistantMessage(ctx.outputText, ctx.calls)];
    BegunRaises(w, ResumeSetting(cfg, ctx), GATED_TURN_STYLE, ctx.calls, waiting.trace, said);
    ParsedOneMore(reopened.log, Saved(InvocationWaitingTool, waiting.inv));
    LastSaveParsesNothing(waiting, GatedTurn(w, cfg, r, ctx).run);
  }

  /** An override whose output cannot be encoded, though there are calls to answer. */
  predicate IsUnusable(decision: HumanDecision, ctx: Pending) {
    decision.Override? && ctx.calls != [] && !IsEncodable(decision.output)
  }

  lemma OverriddenTurnRaises(w: World, r: Run, ctx: Pending, decision: HumanDecision)
    requires decision.Override? && !IsUnusable(decision, ctx)
    requires r.inv.status == WaitingHuman && !IsDerailed(w, ctx.sandbox, r)
    ensures RaisesExactly(w, ctx.sandbox, OverriddenTurn(r, ctx, decision.output))
  {
    hide AssistantMessage, HasUnusableReply, HasParsed, SyntheticResults, IsEncodable;
    ParsedOneMore(r.log, Saved(InvocationOverridden, Reopened(r, InvocationOverridden).inv));
  }

  /** A decision on a pause ends it exactly when, in addition, it is usable itself. */
  lemma ResumeStrandsExactly(w: World, cfg: Config, r: Run, decision: HumanDecision)
    requires IsOnHold(r) && r.inv.pending.Some? && !IsDerailed(w, r.inv.pending.value.sandbox, r)
    ensures
      var next, ctx := Resume(w, cfg, r, decision), r.inv.pending.value;
      IsStranded(next, 1) <==> IsUnusable(decision, ctx) || IsDerailed(w, ctx.sandbox, next)
  {
    hide ResumedTurns, GatedTurn, OverriddenTurn, Finished, IsSound, Pauses, HasUnusableReply, HasParsed, IsEncodable;
    SoundAgrees(r.log);
    var ctx := r.inv.pending.value;
    var setting := ResumeSetting(cfg, ctx);
    if decision.Approved? {
      var begun := GatedTurn(w, cfg, r, ctx);
      GatedTurnRaises(w, cfg, r, ctx);
      GatedTurnIsResuming(w, cfg, r, ctx);
      ResumedRaises(w, cfg, AfterApproval, setting, begun);
    } else if decision.Override? && decision.output != [] {
      var begun := OverriddenTurn(r, ctx, decision.output);
      OverriddenTurnIsResuming(r, ctx, decision.output);
      if IsUnusable(decision, ctx) {
        UnusableOverrideStrands(w, cfg, setting, r, ctx, decision);
      } else {
        OverriddenTurnRaises(w, r, ctx, decision);
        ResumedRaises(w, cfg, AfterOverride, setting, begun);
      }
    } else {
      PlainDecisionStrandsNothing(w, cfg, r, decision);
    }
  }

  /** Decisions that call nothing. */
  lemma PlainDecisionStrandsNothing(w: World, cfg: Config, r: Run, decision: HumanDecision)
    requires IsOnHold(r) && r.inv.pending.Some? && !IsDerailed(w, r.inv.pending.value.sandbox, r)
    requires !decision.Approved? && (decision.Override? ==> decision.output == [])
    ensures
      var next, ctx := Resume(w, cfg, r, decision), r.inv.pending.value;
      !IsStranded(next, 1) && !IsUnusable(decision, ctx) && !IsDerailed(w, ctx.sandbox, next)
  {
    hide IsSound, Pauses, HasUnusableReply, HasParsed;
    SoundAgrees(r.log);
    var next := Resume(w, cfg, r, decision);
    LastSaveParsesNothing(r, next);
  }

  lemma UnusableOverrideStrands(
    w: World, cfg: Config, setting: Setting, r: Run, ctx: Pending, decision: HumanDecision)
    requires IsOnHold(r) && r.inv.status == WaitingHuman && IsUnusable(decision, ctx)
    ensures
      IsStranded(
        Finished(ResumedTurns(w, cfg, AfterOverride, setting, OverriddenTurn(r, ctx, decision.output), 0)), 1)
  {
    hide IsSound, Pauses, AssistantMessage, SyntheticResults, IsEncodable, Reopened, ResumedTurns;
    ReopenedIsActive(r, InvocationOverridden);
    RaisedIsFinished(w, cfg, setting, OverriddenTurn(r, ctx, decision.output));
  }

  lemma ResumedRaises(w: World, cfg: Config, route: Route, setting: Setting, begun: Loop)
    requires IsBetweenTurns(begun) && IsResuming(begun) && RaisesExactly(w, setting.sandbox, begun)
    ensures
      var next := Finished(ResumedTurns(w, cfg, route, setting, begun, 0));
      IsStranded(next, 1) <==> IsDerailed(w, setting.sandbox, next)
  {
    hide ResumedTurns, IsSound, Pauses, HasUnusableReply, HasParsed, Completion, IsDerailed;
    ResumedTurnsRaise(w, cfg, route, setting, begun, 0);
    ResumedTurnsAreResuming(w, cfg, route, setting, begun, 0);
    var end := ResumedTurns(w, cfg, route, setting, begun, 0);
    FinishedRaises(w, setting.sandbox, end);
    if !HasLeft(end.phase) {
      CompletionIsOver(end.run, end.tally, 1);
    }
  }

  lemma RaisedIsFinished(w: World, cfg: Config, setting: Setting, begun: Loop)
    requires begun.phase.Raised?
    ensures Finished(ResumedTurns(w, cfg, AfterOverride, setting, begun, 0)) == begun.run
  {
  }
}
