/** Conservation and bounded work: tokens, tool calls and model calls of whole lives. */
module Accounting {
  import opened Options
  import opened Utf8
  import opened Invocations
  import opened AgentLoop
  import opened Transcripts
  import opened InvocationHistory

  /** The prompt tokens of the answers to the questions from..to of the gateway; errors have none. */
  function PromptTokens(w: World, from: nat, to: nat): int
    requires from <= to
  {
    if from == to then 0
    else
      PromptTokens(w, from, to - 1)
      + (if w.gateway(to - 1).Response? then w.gateway(to - 1).promptTokens else 0)
  }

  function CompletionTokens(w: World, from: nat, to: nat): int
    requires from <= to
  {
    if from == to then 0
    else
      CompletionTokens(w, from, to - 1)
      + (if w.gateway(to - 1).Response? then w.gateway(to - 1).completionTokens else 0)
  }

  /** The text of the last of these answers. */
  function LastText(w: World, from: nat, to: nat): ScalarText {
    if to <= from || w.gateway(to - 1).GatewayError? then [] else w.gateway(to - 1).outputText
  }

  /** Tokens count from one question on, and the text comes from a question no earlier than another. */
  ghost predicate IsCounted(w: World, from: nat, textFrom: nat, l: Loop) {
    var asked := |l.run.trace.sent|;
    && from <= textFrom <= asked
    && l.tally.promptTokens == PromptTokens(w, from, asked)
    && l.tally.completionTokens == CompletionTokens(w, from, asked)
    && if HasLeft(l.phase) then l.run.inv.status != Completed
       else l.tally.outputText == LastText(w, textFrom, asked)
  }

  /** What a pause remembers of the response that it interrupts. */
  ghost predicate RemembersResponse(w: World, r: Run) {
    r.inv.status == WaitingHuman ==>
      && r.inv.pending.Some? && r.trace.sent != []
      && var reply := w.gateway(|r.trace.sent| - 1);
      && reply.Response? && reply.finishReason == "tool_calls"
      && r.inv.pending.value.calls == ValidCalls(reply.calls)
      && r.inv.pending.value.outputText == reply.outputText
      && r.inv.pending.value.promptTokens == reply.promptTokens
      && r.inv.pending.value.completionTokens == reply.completionTokens
      && r.inv.pending.value.messages == r.trace.sent[|r.trace.sent| - 1].messages
  }

  /** Every collected call has been called, except those that wait at the gate, or those of a
    * turn that an exception has cut short. */
  ghost predicate IsTallied(l: Loop) {
    && l.tally.toolFailures + l.tally.turns <= l.tally.toolsCalled
    && if l.phase.Raised? then l.tally.toolsCalled < |l.tally.calls| && l.run.inv.status != WaitingHuman
       else
         |l.tally.calls| == l.tally.toolsCalled
                         + (if l.run.inv.status == WaitingHuman && l.run.inv.pending.Some? then
                              |l.run.inv.pending.value.calls|
                            else 0)
  }

  // A fresh invocation

  lemma ToolTurnIsAccounted(
    w: World, setting: Setting, l: Loop, calls: seq<ToolCall>, text: ScalarText, turn: nat, from: nat, textFrom: nat)
    requires l.run.inv.status == Running && IsCounted(w, from, textFrom, l)
    requires calls != [] && l.phase.Going? && l.tally.turns == turn
    requires l.tally.toolFailures + turn <= l.tally.toolsCalled && |l.tally.calls| == l.tally.toolsCalled + |calls|
    ensures
      var next := ToolTurn(w, setting, l, calls, text, turn);
      && IsCounted(w, from, textFrom, next) && IsTallied(next) && next.run.trace.sent == l.run.trace.sent
      && next.run.inv.status != WaitingHuman
      && (next.phase.Going? ==> next.tally.turns == turn + 1)
  {
    hide DispatchAll, AnswersAll, PromptTokens, CompletionTokens, LastText, AssistantMessage;
    var waiting := Save(MoveTo(l.run, WaitingTool), InvocationWaitingTool);
    var d := Begun(setting, waiting.trace, l.messages + [AssistantMessage(text, calls)]);
    DispatchAnswersAll(w, setting, TurnStyle(turn), calls, d);
  }

  /** Between turns of a fresh invocation. */
  ghost predicate IsAccounted(w: World, l: Loop, turn: nat) {
    && IsCounted(w, 0, 0, l) && IsTallied(l) && RemembersResponse(w, l.run)
    && (l.phase.Going? ==> l.tally.turns == turn && l.run.inv.status == Running)
  }

  /** The last question has been answered, and the answer added to the totals. */
  ghost predicate HasAnswer(w: World, l: Loop, reply: GatewayReply) {
    && l.run.trace.sent != []
    && l.run.trace.sent[|l.run.trace.sent| - 1].messages == l.messages
    && w.gateway(|l.run.trace.sent| - 1) == reply
  }

  lemma AnsweredIsAccounted(w: World, cfg: Config, setting: Setting, l: Loop, reply: GatewayReply, turn: nat)
    requires reply.Response? && l.phase.Going? && HasAnswer(w, l, reply) && IsAccounted(w, l, turn)
    ensures
      var next := Answered(w, cfg, setting, l, reply, turn);
      && IsAccounted(w, next, turn + 1) && next.run.trace.sent == l.run.trace.sent
  {
    hide ToolTurn, FirstGated, ValidCalls, PromptTokens, CompletionTokens, LastText;
    var calls := ValidCalls(reply.calls);
    if calls != [] {
      ToolTurnIsAccounted(
        w, setting, l.(tally := l.tally.(calls := l.tally.calls + calls)), calls, reply.outputText, turn, 0, 0);
    }
  }

  lemma AskedIsCounted(w: World, l: Loop, remainingMs: int, from: nat, textFrom: nat)
    requires IsCounted(w, from, textFrom, l) && w.gateway(|l.run.trace.sent|).Response?
    ensures
      var reply := w.gateway(|l.run.trace.sent|);
      var next := l.(run := Asked(Checked(l.run), l.messages, remainingMs), tally := Counted(l.tally, reply));
      IsCounted(w, from, textFrom, next) && HasAnswer(w, next, reply)
  {
  }

  lemma TurnIsAccounted(w: World, cfg: Config, setting: Setting, l: Loop, turn: nat)
    requires l.phase.Going? && IsAccounted(w, l, turn)
    ensures
      var next := Turn(w, cfg, setting, l, turn);
      IsAccounted(w, next, turn + 1) && |next.run.trace.sent| <= |l.run.trace.sent| + 1
  {
    hide Answered, LastText, HasAnswer;
    var remainingMs := setting.budgetMs - w.elapsed(l.run.trace.checks);
    var reply := w.gateway(|l.run.trace.sent|);
    if remainingMs > 0 && reply.Response? {
      AskedIsCounted(w, l, remainingMs, 0, 0);
      var asked := l.(run := Asked(Checked(l.run), l.messages, remainingMs), tally := Counted(l.tally, reply));
      AnsweredIsAccounted(w, cfg, setting, asked, reply, turn);
    }
  }

  function AtLeastZero(n: int): nat {
    if n < 0 then 0 else n
  }

  lemma {:induction false} TurnsAreAccounted(w: World, cfg: Config, setting: Setting, l: Loop, turn: nat)
    requires IsBetweenTurns(l) && IsAccounted(w, l, turn)
    ensures
      var end := Turns(w, cfg, setting, l, turn);
      && IsCounted(w, 0, 0, end) && IsTallied(end) && RemembersResponse(w, end.run)
      && |end.run.trace.sent| <= |l.run.trace.sent| + AtLeastZero(cfg.maxToolTurns - turn)
    decreases cfg.maxToolTurns - turn
  {
    hide Turn, IsCounted, IsTallied, RemembersResponse;
    if turn < cfg.maxToolTurns && l.phase.Going? {
      TurnIsAccounted(w, cfg, setting, l, turn);
      TurnsAreAccounted(w, cfg, setting, Turn(w, cfg, setting, l, turn), turn + 1);
    }
  }

  lemma ExecuteIsAccounted(w: World, cfg: Config, request: Request)
    ensures
      var l := ExecuteLoop(w, cfg, request);
      && IsCounted(w, 0, 0, l) && IsTallied(l) && RemembersResponse(w, l.run)
      && |l.run.trace.sent| <= AtLeastZero(cfg.maxToolTurns)
  {
    hide Turns;
    TurnsAreAccounted(w, cfg, ExecuteSetting(cfg, request), StartedLoop(request), 0);
  }

  // Resuming

  lemma ResumedAnsweredIsCounted(
    w: World, route: Route, setting: Setting, l: Loop, reply: GatewayReply, from: nat, textFrom: nat)
    requires reply.Response? && l.run.inv.status == Running && l.phase.Going? && IsCounted(w, from, textFrom, l)
    ensures
      var next := ResumedAnswered(w, route, setting, l, reply);
      IsCounted(w, from, textFrom, next) && next.run.trace.sent == l.run.trace.sent
  {
    hide DispatchAll, ValidCalls, AnswersAll, PromptTokens, CompletionTokens, LastText, AssistantMessage, RouteStyle;
    var calls := ValidCalls(reply.calls);
    var waiting := Save(MoveTo(l.run, WaitingTool), InvocationWaitingTool);
    var d := Begun(setting, waiting.trace, l.messages + [AssistantMessage(reply.outputText, calls)]);
    DispatchAnswersAll(w, setting, RouteStyle(route), calls, d);
  }

  lemma ResumedTurnIsCounted(w: World, route: Route, setting: Setting, l: Loop, from: nat, textFrom: nat)
    requires l.phase.Going? && l.run.inv.status == Running && IsCounted(w, from, textFrom, l)
    ensures
      var next := ResumedTurn(w, route, setting, l);
      IsCounted(w, from, textFrom, next) && |next.run.trace.sent| <= |l.run.trace.sent| + 1
  {
    hide ResumedAnswered, LastText;
    var remainingMs := setting.budgetMs - w.elapsed(l.run.trace.checks);
    var reply := w.gateway(|l.run.trace.sent|);
    if remainingMs > 0 && reply.Response? {
      AskedIsCounted(w, l, remainingMs, from, textFrom);
      var asked := l.(run := Asked(Checked(l.run), l.messages, remainingMs), tally := Counted(l.tally, reply));
      ResumedAnsweredIsCounted(w, route, setting, asked, reply, from, textFrom);
    }
  }

  /** What a completed invocation stores. */
  ghost predicate StoresTotals(w: World, from: nat, textFrom: nat, r: Run) {
    var asked := |r.trace.sent|;
    r.inv.status == Completed ==>
      && from <= textFrom <= asked
      && r.inv.promptTokens == Some(PromptTokens(w, from, asked))
      && r.inv.completionTokens == Some(CompletionTokens(w, from, asked))
      && r.inv.outputText == Some(LastText(w, textFrom, asked))
  }

  lemma {:induction false} ResumedTurnsAreCounted(
    w: World, cfg: Config, route: Route, setting: Setting, l: Loop, turn: nat, from: nat, textFrom: nat)
    requires IsBetweenTurns(l) && IsCounted(w, from, textFrom, l)
    ensures
      var end := ResumedTurns(w, cfg, route, setting, l, turn);
      && IsCounted(w, from, textFrom, end)
      && |end.run.trace.sent| <= |l.run.trace.sent| + AtLeastZero(cfg.maxToolTurns - 1 - turn)
    decreases cfg.maxToolTurns - turn
  {
    hide ResumedTurn, IsCounted;
    if turn < cfg.maxToolTurns - 1 && l.phase.Going? {
      ResumedTurnIsCounted(w, route, setting, l, from, textFrom);
      ResumedTurnsAreCounted(
        w, cfg, route, setting, ResumedTurn(w, route, setting, l), turn + 1, from, textFrom);
    }
  }

  lemma TokensOfOne(w: World, n: nat)
    requires w.gateway(n).Response?
    ensures PromptTokens(w, n, n + 1) == w.gateway(n).promptTokens
    ensures CompletionTokens(w, n, n + 1) == w.gateway(n).completionTokens
  {
    assert PromptTokens(w, n, n) == 0 && CompletionTokens(w, n, n) == 0;
  }

  lemma GatedTurnIsCounted(w: World, cfg: Config, r: Run, ctx: Pending)
    requires r.inv.status == WaitingHuman && RemembersResponse(w, r) && r.inv.pending == Some(ctx)
    ensures
      var asked := |r.trace.sent|;
      var next := GatedTurn(w, cfg, r, ctx);
      next.run.trace.sent == r.trace.sent && asked > 0 && IsCounted(w, asked - 1, asked, next)
  {
    hide DispatchAll, AnswersAll, AssistantMessage, ResumeSetting, ValidCalls;
    var waiting := Save(MoveTo(Reopened(r, InvocationResumed), WaitingTool), InvocationWaitingTool);
    var setting := ResumeSetting(cfg, ctx);
    var d := Begun(setting, waiting.trace, ctx.messages + [AssistantMessage(ctx.outputText, ctx.calls)]);
    DispatchAnswersAll(w, setting, GATED_TURN_STYLE, ctx.calls, d);
    TokensOfOne(w, |r.trace.sent| - 1);
  }

  lemma OverriddenTurnIsCounted(w: World, r: Run, ctx: Pending, output: Text)
    requires r.inv.status == WaitingHuman && RemembersResponse(w, r) && r.inv.pending == Some(ctx)
    ensures
      var asked := |r.trace.sent|;
      var next := OverriddenTurn(r, ctx, output);
      next.run.trace.sent == r.trace.sent && asked > 0 && IsCounted(w, asked - 1, asked, next)
  {
    hide AssistantMessage, SyntheticResults, ValidCalls, IsEncodable;
    TokensOfOne(w, |r.trace.sent| - 1);
  }

  lemma FinishedStoresTotals(w: World, from: nat, textFrom: nat, l: Loop)
    requires IsBetweenTurns(l) && IsCounted(w, from, textFrom, l)
    ensures StoresTotals(w, from, textFrom, Finished(l)) && Finished(l).trace == l.run.trace
  {
    hide PromptTokens, CompletionTokens, LastText;
  }

  /** The continuation of a pause counts from the response that was interrupted. */
  lemma ResumeIsAccounted(w: World, cfg: Config, r: Run, decision: HumanDecision)
    requires IsOnHold(r) && RemembersResponse(w, r)
    ensures
      var asked := |r.trace.sent|;
      var next := Resume(w, cfg, r, decision);
      && asked > 0 && StoresTotals(w, asked - 1, asked, next)
      && |next.trace.sent| <= asked + AtLeastZero(cfg.maxToolTurns - 1)
  {
    hide ResumedTurns, GatedTurn, OverriddenTurn, Finished, IsSound, Pauses, ValidCalls, IsCounted;
    SoundAgrees(r.log);
    var ctx := r.inv.pending.value;
    var setting := ResumeSetting(cfg, ctx);
    var asked := |r.trace.sent|;
    if decision.Approved? || decision.Override? {
      var (route, begun) :=
        if decision.Approved? then (AfterApproval, GatedTurn(w, cfg, r, ctx))
        else (AfterOverride, OverriddenTurn(r, ctx, decision.output));
      GatedTurnIsCounted(w, cfg, r, ctx);
      if decision.Override? {
        OverriddenTurnIsCounted(w, r, ctx, decision.output);
      }
      ResumedTurnsAreCounted(w, cfg, route, setting, begun, 0, asked - 1, asked);
      FinishedStoresTotals(w, asked - 1, asked, ResumedTurns(w, cfg, route, setting, begun, 0));
    }
  }

  /** The question from which a life's tokens count: the start, or the interrupted response. */
  function CountedFrom(begun: Run): nat {
    if begun.inv.status == WaitingHuman && begun.trace.sent != [] then |begun.trace.sent| - 1 else 0
  }

  function TextFrom(begun: Run): nat {
    if begun.inv.status == WaitingHuman then |begun.trace.sent| else 0
  }

  lemma {:induction false} LifeIsAccounted(
    w: World, cfg: Config, request: Request, decisions: seq<HumanDecision>)
    ensures
      var begun := Execute(w, cfg, request);
      var r := Life(w, cfg, request, decisions);
      && StoresTotals(w, CountedFrom(begun), TextFrom(begun), r)
      && |begun.trace.sent| <= AtLeastZero(cfg.maxToolTurns)
      && (r == begun || (begun.trace.sent != []
                         && |r.trace.sent| <= |begun.trace.sent| + AtLeastZero(cfg.maxToolTurns - 1)))
    decreases |decisions|
  {
    hide ExecuteLoop, Resume, Finished, IsSound, Pauses, StoresTotals, IsTallied, HasEnded, IsOnHold;
    var begun := Execute(w, cfg, request);
    ExecuteStoresTotals(w, cfg, request);
    if decisions != [] {
      var n := |decisions| - 1;
      var before := Life(w, cfg, request, decisions[..n]);
      LifeIsAccounted(w, cfg, request, decisions[..n]);
      LifeSettles(w, cfg, request, decisions[..n]);
      if before == begun && begun.inv.status == WaitingHuman {
        ResumeIsAccounted(w, cfg, begun, decisions[n]);
      } else {
        ResumeKeepsEnded(w, cfg, before, if before == begun then 0 else 1, decisions[n]);
      }
    }
  }

  lemma ExecuteStoresTotals(w: World, cfg: Config, request: Request)
    ensures
      var begun := Execute(w, cfg, request);
      && StoresTotals(w, CountedFrom(begun), TextFrom(begun), begun) && RemembersResponse(w, begun)
      && |begun.trace.sent| <= AtLeastZero(cfg.maxToolTurns)
      && if begun.inv.status == WaitingHuman then IsOnHold(begun) else HasEnded(begun, 0)
  {
    hide ExecuteLoop, IsSound, Pauses, IsTallied, HasEnded, IsOnHold, PromptTokens, CompletionTokens, LastText;
    ExecuteIsAccounted(w, cfg, request);
    FinishedStoresTotals(w, 0, 0, ExecuteLoop(w, cfg, request));
    ExecuteSettles(w, cfg, request);
  }

  // The results

  /** A completed invocation stores the tokens of every response since the start, or since the
    * response that a human had to decide on, and the text of the last one. */
  lemma TokensAreConserved(
    w: World, cfg: Config, request: Request, decisions: seq<HumanDecision>, begun: Run, r: Run)
    requires begun == Execute(w, cfg, request) && r == Life(w, cfg, request, decisions)
    requires r.inv.status == Completed
    ensures
      var paused := begun.inv.status == WaitingHuman;
      var from := if paused then |begun.trace.sent| - 1 else 0;
      && 0 <= from <= |r.trace.sent|
      && r.inv.promptTokens == Some(PromptTokens(w, from, |r.trace.sent|))
      && r.inv.completionTokens == Some(CompletionTokens(w, from, |r.trace.sent|))
      && r.inv.outputText == Some(LastText(w, if paused then from + 1 else 0, |r.trace.sent|))
  {
    hide Life, Execute, HasEnded, IsOnHold, PromptTokens, CompletionTokens, LastText;
    LifeIsAccounted(w, cfg, request, decisions);
    ExecuteStoresTotals(w, cfg, request);
  }

  /** However many decisions come in, the model is asked at most so often. */
  lemma WorkIsBounded(w: World, cfg: Config, request: Request, decisions: seq<HumanDecision>)
    ensures
      |Life(w, cfg, request, decisions).trace.sent|
      <= if cfg.maxToolTurns >= 1 then 2 * cfg.maxToolTurns - 1 else 0
  {
    hide Life, Execute, StoresTotals;
    LifeIsAccounted(w, cfg, request, decisions);
  }

  /** The tallies of a fresh invocation: called is collected, unless a turn stopped at the gate. */
  lemma ToolsAreAccountedFor(w: World, cfg: Config, request: Request)
    ensures
      var l := ExecuteLoop(w, cfg, request);
      && l.tally.toolFailures + l.tally.turns <= l.tally.toolsCalled
      && (l.phase.Raised? <==> l.run.inv.status != WaitingHuman && l.tally.toolsCalled != |l.tally.calls|)
      && (l.run.inv.status == WaitingHuman ==>
            && l.run.inv.pending.Some?
            && l.tally.toolsCalled + |l.run.inv.pending.value.calls| == |l.tally.calls|)
  {
    hide ExecuteLoop, IsCounted;
    ExecuteIsAccounted(w, cfg, request);
  }

  // The loops take all their turns

  lemma TurnAsksOnce(w: World, cfg: Config, setting: Setting, l: Loop, turn: nat)
    requires l.phase.Going? && l.run.inv.status == Running && Turn(w, cfg, setting, l, turn).phase.Going?
    ensures |Turn(w, cfg, setting, l, turn).run.trace.sent| == |l.run.trace.sent| + 1
  {
    hide DispatchAll, ValidCalls, FirstGated, AssistantMessage, AnswersAll;
    var reply := w.gateway(|l.run.trace.sent|);
    if reply.Response? {
      var calls := ValidCalls(reply.calls);
      var asked := Asked(Checked(l.run), l.messages, setting.budgetMs - w.elapsed(l.run.trace.checks));
      var waiting := Save(MoveTo(asked, WaitingTool), InvocationWaitingTool);
      var said := l.messages + [AssistantMessage(reply.outputText, calls)];
      DispatchAnswersAll(w, setting, TurnStyle(turn), calls, Begun(setting, waiting.trace, said));
    }
  }

  lemma {:induction false} TurnsAskThroughout(w: World, cfg: Config, setting: Setting, l: Loop, turn: nat)
    requires l.phase.Going? && l.run.inv.status == Running && Turns(w, cfg, setting, l, turn).phase.Going?
    ensures |Turns(w, cfg, setting, l, turn).run.trace.sent|
         == |l.run.trace.sent| + AtLeastZero(cfg.maxToolTurns - turn)
    decreases cfg.maxToolTurns - turn
  {
    hide Turn;
    if turn < cfg.maxToolTurns {
      var next := Turn(w, cfg, setting, l, turn);
      if next.phase.Going? {
        TurnAsksOnce(w, cfg, setting, l, turn);
        TurnsAskThroughout(w, cfg, setting, next, turn + 1);
      }
    }
  }

  /** A fresh loop that neither stops nor leaves has asked the model once for each of its turns. */
  lemma LoopAsksThroughout(w: World, cfg: Config, request: Request)
    requires ExecuteLoop(w, cfg, request).phase.Going?
    ensures |ExecuteLoop(w, cfg, request).run.trace.sent| == AtLeastZero(cfg.maxToolTurns)
  {
    hide Turns;
    TurnsAskThroughout(w, cfg, ExecuteSetting(cfg, request), StartedLoop(request), 0);
  }

  lemma ResumedTurnAsksOnce(w: World, route: Route, setting: Setting, l: Loop)
    requires l.phase.Going? && l.run.inv.status == Running && ResumedTurn(w, route, setting, l).phase.Going?
    ensures |ResumedTurn(w, route, setting, l).run.trace.sent| == |l.run.trace.sent| + 1
  {
    hide DispatchAll, ValidCalls, AssistantMessage, AnswersAll, RouteStyle;
    var reply := w.gateway(|l.run.trace.sent|);
    if reply.Response? {
      var calls := ValidCalls(reply.calls);
      var asked := Asked(Checked(l.run), l.messages, setting.budgetMs - w.elapsed(l.run.trace.checks));
      var waiting := Save(MoveTo(asked, WaitingTool), InvocationWaitingTool);
      var said := l.messages + [AssistantMessage(reply.outputText, calls)];
      DispatchAnswersAll(w, setting, RouteStyle(route), calls, Begun(setting, waiting.trace, said));
    }
  }

  /** A resumed loop that neither stops nor leaves has asked once for each of one turn fewer. */
  lemma {:induction false} ResumedLoopAsksThroughout(
    w: World, cfg: Config, route: Route, setting: Setting, l: Loop, turn: nat)
    requires l.phase.Going? && l.run.inv.status == Running
    requires ResumedTurns(w, cfg, route, setting, l, turn).phase.Going?
    ensures |ResumedTurns(w, cfg, route, setting, l, turn).run.trace.sent|
         == |l.run.trace.sent| + AtLeastZero(cfg.maxToolTurns - 1 - turn)
    decreases cfg.maxToolTurns - turn
  {
    hide ResumedTurn;
    if turn < cfg.maxToolTurns - 1 {
      var next := ResumedTurn(w, route, setting, l);
      if next.phase.Going? {
        ResumedTurnAsksOnce(w, route, setting, l);
        ResumedLoopAsksThroughout(w, cfg, route, setting, next, turn + 1);
      }
    }
  }

  /** The response asks for tools, and at least one of its calls is valid. */
  predicate WantsTools(reply: GatewayReply) {
    reply.Response? && reply.finishReason == "tool_calls" && ValidCalls(reply.calls) != []
  }

  /** A loop that has stopped has had a last response that wanted no tools, or cannot send them. */
  predicate StoppedForAnswer(w: World, sends: bool, l: Loop) {
    l.phase.Stopped? ==>
      l.run.trace.sent != [] && (sends ==> !WantsTools(w.gateway(|l.run.trace.sent| - 1)))
  }

  lemma TurnStopsForAnswer(w: World, cfg: Config, setting: Setting, l: Loop, turn: nat)
    requires l.phase.Going? && l.run.inv.status == Running
    ensures StoppedForAnswer(w, setting.hasService, Turn(w, cfg, setting, l, turn))
  {
    hide ToolTurn, ValidCalls, FirstGated;
    assert ValidCalls([]) == [] by { NothingIsValid(); }
    var reply := w.gateway(|l.run.trace.sent|);
    if reply.Response? {
      var calls := ValidCalls(reply.calls);
      var asked := Asked(Checked(l.run), l.messages, setting.budgetMs - w.elapsed(l.run.trace.checks));
      var tally := Counted(l.tally, reply);
      var collected := l.(run := asked, tally := tally.(calls := tally.calls + calls));
      ToolTurnGoesOn(w, setting, collected, calls, reply.outputText, turn);
    }
  }

  lemma NothingIsValid()
    ensures ValidCalls([]) == []
  {
  }

  lemma ToolTurnGoesOn(w: World, setting: Setting, l: Loop, calls: seq<ToolCall>, text: ScalarText, turn: nat)
    requires l.run.inv.status == Running
    ensures !ToolTurn(w, setting, l, calls, text, turn).phase.Stopped?
  {
    hide DispatchAll;
  }

  lemma {:induction false} TurnsStopForAnswer(w: World, cfg: Config, setting: Setting, l: Loop, turn: nat)
    requires IsBetweenTurns(l) && StoppedForAnswer(w, setting.hasService, l)
    ensures StoppedForAnswer(w, setting.hasService, Turns(w, cfg, setting, l, turn))
    decreases cfg.maxToolTurns - turn
  {
    hide Turn, StoppedForAnswer;
    if turn < cfg.maxToolTurns && l.phase.Going? {
      TurnStopsForAnswer(w, cfg, setting, l, turn);
      TurnsStopForAnswer(w, cfg, setting, Turn(w, cfg, setting, l, turn), turn + 1);
    }
  }

  /** An execution with a service completes because the model wanted no more tools, or because it
    * has used all its turns. */
  lemma ExecutionUsesItsTurns(w: World, cfg: Config, request: Request)
    requires Execute(w, cfg, request).inv.status == Completed && cfg.hasExecutionService
    ensures
      var asked := |Execute(w, cfg, request).trace.sent|;
      asked == AtLeastZero(cfg.maxToolTurns) || (asked > 0 && !WantsTools(w.gateway(asked - 1)))
  {
    hide Turns, WantsTools, IsCounted, InputMessages;
    TurnsStopForAnswer(w, cfg, ExecuteSetting(cfg, request), StartedLoop(request), 0);
    ExecuteIsAccounted(w, cfg, request);
    var l := ExecuteLoop(w, cfg, request);
    LeftIsNotCompleted(w, 0, 0, l);
    if l.phase.Going? {
      LoopAsksThroughout(w, cfg, request);
    }
  }

  lemma LeftIsNotCompleted(w: World, from: nat, textFrom: nat, l: Loop)
    requires IsCounted(w, from, textFrom, l)
    ensures HasLeft(l.phase) ==> l.run.inv.status != Completed
  {
    hide PromptTokens, CompletionTokens, LastText;
  }

  /** The same after a pause, from the questions asked before it. */
  predicate StoppedLater(w: World, before: nat, l: Loop) {
    l.phase.Stopped? ==> |l.run.trace.sent| > before && !WantsTools(w.gateway(|l.run.trace.sent| - 1))
  }

  lemma ResumedTurnStopsForAnswer(w: World, route: Route, setting: Setting, l: Loop, before: nat)
    requires l.phase.Going? && l.run.inv.status == Running && setting.hasService && before <= |l.run.trace.sent|
    ensures
      var next := ResumedTurn(w, route, setting, l);
      StoppedLater(w, before, next) && before <= |next.run.trace.sent|
  {
    hide DispatchAll, ValidCalls, AssistantMessage, RouteStyle, AnswersAll;
    assert ValidCalls([]) == [] by { NothingIsValid(); }
    var reply := w.gateway(|l.run.trace.sent|);
    if reply.Response? {
      var calls := ValidCalls(reply.calls);
      var asked := Asked(Checked(l.run), l.messages, setting.budgetMs - w.elapsed(l.run.trace.checks));
      var waiting := Save(MoveTo(asked, WaitingTool), InvocationWaitingTool);
      var said := l.messages + [AssistantMessage(reply.outputText, calls)];
      DispatchAnswersAll(w, setting, RouteStyle(route), calls, Begun(setting, waiting.trace, said));
    }
  }

  lemma {:induction false} ResumedTurnsStopForAnswer(
    w: World, cfg: Config, route: Route, setting: Setting, l: Loop, turn: nat, before: nat)
    requires IsBetweenTurns(l) && setting.hasService && before <= |l.run.trace.sent| && StoppedLater(w, before, l)
    ensures StoppedLater(w, before, ResumedTurns(w, cfg, route, setting, l, turn))
    decreases cfg.maxToolTurns - turn
  {
    hide ResumedTurn, StoppedLater;
    if turn < cfg.maxToolTurns - 1 && l.phase.Going? {
      ResumedTurnStopsForAnswer(w, route, setting, l, before);
      ResumedTurnsStopForAnswer(w, cfg, route, setting, ResumedTurn(w, route, setting, l), turn + 1, before);
    }
  }

  /** After a pause, too: one turn fewer, or an answer that wanted no more tools. */
  lemma ResumeUsesItsTurns(w: World, cfg: Config, r: Run, decision: HumanDecision)
    requires IsOnHold(r) && RemembersResponse(w, r) && cfg.hasExecutionService
    requires Resume(w, cfg, r, decision).inv.status == Completed
    ensures
      var before, asked := |r.trace.sent|, |Resume(w, cfg, r, decision).trace.sent|;
      asked == before + AtLeastZero(cfg.maxToolTurns - 1)
      || (asked > before && !WantsTools(w.gateway(asked - 1)))
  {
    hide ResumedTurns, GatedTurn, OverriddenTurn, IsSound, Pauses, ValidCalls, IsCounted, WantsTools, Completion;
    SoundAgrees(r.log);
    var ctx := r.inv.pending.value;
    var setting, before := ResumeSetting(cfg, ctx), |r.trace.sent|;
    if decision.Approved? || decision.Override? {
      var (route, begun) :=
        if decision.Approved? then (AfterApproval, GatedTurn(w, cfg, r, ctx))
        else (AfterOverride, OverriddenTurn(r, ctx, decision.output));
      GatedTurnIsCounted(w, cfg, r, ctx);
      if decision.Override? {
        OverriddenTurnIsCounted(w, r, ctx, decision.output);
      }
      BeginningsDoNotStop(w, cfg, r, ctx, decision);
      var end := ResumedTurns(w, cfg, route, setting, begun, 0);
      ResumedTurnsAreCounted(w, cfg, route, setting, begun, 0, before - 1, before);
      LeftIsNotCompleted(w, before - 1, before, end);
      ResumedTurnsStopForAnswer(w, cfg, route, setting, begun, 0, before);
      CompletionAsksNothing(end);
      if end.phase.Going? {
        GoingBeganGoing(w, cfg, route, setting, begun);
        ResumedLoopAsksThroughout(w, cfg, route, setting, begun, 0);
      }
    }
  }

  lemma BeginningsDoNotStop(w: World, cfg: Config, r: Run, ctx: Pending, decision: HumanDecision)
    requires r.inv.status == WaitingHuman
    ensures !GatedTurn(w, cfg, r, ctx).phase.Stopped?
    ensures decision.Override? ==> !OverriddenTurn(r, ctx, decision.output).phase.Stopped?
  {
    hide DispatchAll, SyntheticResults, IsEncodable;
  }

  lemma CompletionAsksNothing(l: Loop)
    requires IsBetweenTurns(l)
    ensures Finished(l).trace == l.run.trace && (HasLeft(l.phase) ==> Finished(l) == l.run)
  {
  }

  lemma GoingBeganGoing(w: World, cfg: Config, route: Route, setting: Setting, l: Loop)
    requires IsBetweenTurns(l) && ResumedTurns(w, cfg, route, setting, l, 0).phase.Going?
    ensures l.phase.Going?
  {
  }
}
