/** Every list of messages handed to the model is a well-formed transcript: each assistant
  * message with tool calls is followed at once by one tool message per call, in order.
  */
module Transcripts {
  import opened Utf8
  import opened Invocations
  import opened AgentLoop

  ghost predicate AnswersAll(calls: seq<ToolCall>, answers: seq<Message>) {
    && |answers| == |calls|
    && forall i :: 0 <= i < |calls| ==> answers[i].ToolOutput? && answers[i].callId == calls[i].id
  }

  ghost predicate IsTranscript(ms: seq<Message>)
    decreases |ms|
  {
    ms == [] ||
    match ms[0]
    case User(_) => IsTranscript(ms[1..])
    case Assistant(_, calls) =>
      && 1 + |calls| <= |ms|
      && AnswersAll(calls, ms[1..1 + |calls|])
      && IsTranscript(ms[1 + |calls|..])
    case ToolOutput(_, _) => false
  }

  ghost predicate IsWellAsked(call: ModelCall) {
    IsTranscript(call.messages) && 1 <= call.timeoutMs <= MAX_MODEL_TIMEOUT_MS
  }

  ghost predicate RemembersTranscript(inv: Invocation) {
    inv.pending.Some? ==> IsTranscript(inv.pending.value.messages)
  }

  ghost predicate IsOrderly(r: Run) {
    && (forall k :: 0 <= k < |r.trace.sent| ==> IsWellAsked(r.trace.sent[k]))
    && (forall k :: 0 <= k < |r.log| ==> RemembersTranscript(r.log[k].invocation))
    && RemembersTranscript(r.inv)
  }

  ghost predicate IsOrderlyLoop(l: Loop) {
    (!l.phase.Raised? ==> IsTranscript(l.messages)) && IsOrderly(l.run)
  }

  lemma TurnIsTranscript(text: ScalarText, calls: seq<ToolCall>, answers: seq<Message>)
    requires AnswersAll(calls, answers)
    ensures IsTranscript([AssistantMessage(text, calls)] + answers)
  {
    hide AnswersAll;
    var turn := [AssistantMessage(text, calls)] + answers;
    assert turn[1..1 + |calls|] == answers by { AnswersHaveLength(calls, answers); }
    assert turn[1 + |calls|..] == [] by { AnswersHaveLength(calls, answers); }
  }

  lemma AnswersHaveLength(calls: seq<ToolCall>, answers: seq<Message>)
    requires AnswersAll(calls, answers)
    ensures |answers| == |calls|
  {
  }

  /** Transcripts one after the other are a transcript. */
  lemma {:induction false} TranscriptsConcatenate(ms: seq<Message>, more: seq<Message>)
    requires IsTranscript(ms) && IsTranscript(more)
    ensures IsTranscript(ms + more)
    decreases |ms|
  {
    hide AnswersAll;
    if ms == [] {
      assert ms + more == more;
    } else {
      var n := if ms[0].Assistant? then 1 + |ms[0].calls| else 1;
      TranscriptsConcatenate(ms[n..], more);
      assert (ms + more)[n..] == ms[n..] + more;
      assert (ms + more)[1..n] == ms[1..n];
    }
  }

  /** Whatever the tools and the clock do, a dispatch that does not raise adds one answer per
    * call, and none asks the model anything. */
  lemma {:induction false} DispatchAnswersAll(
    w: World, setting: Setting, style: Style, calls: seq<ToolCall>, d: Dispatching)
    ensures
      var end := DispatchAll(w, setting, style, calls, d);
      && end.trace.sent == d.trace.sent
      && d.failures <= end.failures <= d.failures + |calls|
      && (!end.raised ==>
            && |end.messages| == |d.messages| + |calls|
            && end.messages[..|d.messages|] == d.messages
            && AnswersAll(calls, end.messages[|d.messages|..]))
  {
    hide Content, ToolExecuted;
    if calls != [] && !d.raised {
      var next := DispatchOne(w, setting, style, calls[0], d);
      DispatchOneAnswers(w, setting, style, calls[0], d);
      DispatchAnswersAll(w, setting, style, calls[1..], next);
      hide DispatchOne;
      var end := DispatchAll(w, setting, style, calls[1..], next);
      if !end.raised {
        assert !next.raised;
        assert end.messages[..|d.messages|] == end.messages[..|next.messages|][..|d.messages|];
        assert end.messages[|d.messages|..] == [next.messages[|d.messages|]] + end.messages[|next.messages|..];
      }
    }
  }

  lemma DispatchOneAnswers(w: World, setting: Setting, style: Style, call: ToolCall, d: Dispatching)
    ensures
      var next := DispatchOne(w, setting, style, call, d);
      && next.trace.sent == d.trace.sent
      && d.failures <= next.failures <= d.failures + 1
      && (!next.raised ==>
            && |next.messages| == |d.messages| + 1
            && next.messages[..|d.messages|] == d.messages
            && next.messages[|d.messages|].ToolOutput? && next.messages[|d.messages|].callId == call.id)
  {
    hide Content, Rejection, ResultOfReply;
  }

  /** A dispatch after a transcript and its assistant message leaves a transcript. */
  lemma DispatchKeepsTranscript(
    w: World, setting: Setting, style: Style, calls: seq<ToolCall>, d: Dispatching, ms: seq<Message>, text: ScalarText)
    requires IsTranscript(ms) && d.messages == ms + [AssistantMessage(text, calls)]
    ensures
      var end := DispatchAll(w, setting, style, calls, d);
      (!end.raised ==> IsTranscript(end.messages)) && end.trace.sent == d.trace.sent
  {
    hide DispatchAll, IsTranscript, AnswersAll, AssistantMessage;
    DispatchAnswersAll(w, setting, style, calls, d);
    if !DispatchAll(w, setting, style, calls, d).raised {
      var end := DispatchAll(w, setting, style, calls, d).messages;
      var answers := end[|d.messages|..];
      TurnIsTranscript(text, calls, answers);
      TranscriptsConcatenate(ms, [AssistantMessage(text, calls)] + answers);
      assert end == end[..|d.messages|] + answers == ms + ([AssistantMessage(text, calls)] + answers);
    }
  }

  // A fresh invocation

  lemma ToolTurnIsOrderly(w: World, setting: Setting, l: Loop, calls: seq<ToolCall>, text: ScalarText, turn: nat)
    requires IsOrderlyLoop(l) && l.phase.Going? && l.run.inv.status == Running
    ensures IsOrderlyLoop(ToolTurn(w, setting, l, calls, text, turn))
  {
    hide DispatchAll, IsTranscript, AssistantMessage, IsWellAsked;
    var waiting := Save(MoveTo(l.run, WaitingTool), InvocationWaitingTool);
    var d := Begun(setting, waiting.trace, l.messages + [AssistantMessage(text, calls)]);
    DispatchKeepsTranscript(w, setting, TurnStyle(turn), calls, d, l.messages, text);
  }

  lemma AnsweredIsOrderly(w: World, cfg: Config, setting: Setting, l: Loop, reply: GatewayReply, turn: nat)
    requires reply.Response? && l.phase.Going? && l.run.inv.status == Running && IsOrderlyLoop(l)
    ensures IsOrderlyLoop(Answered(w, cfg, setting, l, reply, turn))
  {
    hide DispatchAll, ToolTurn, IsTranscript, AssistantMessage, IsWellAsked, ValidCalls, FirstGated;
    var calls := ValidCalls(reply.calls);
    var collected := l.(tally := l.tally.(calls := l.tally.calls + calls));
    ToolTurnIsOrderly(w, setting, collected, calls, reply.outputText, turn);
  }

  lemma TurnIsOrderly(w: World, cfg: Config, setting: Setting, l: Loop, turn: nat)
    requires l.phase.Going? && l.run.inv.status == Running && IsOrderlyLoop(l)
    ensures IsOrderlyLoop(Turn(w, cfg, setting, l, turn))
  {
    hide Answered, IsTranscript;
    var remainingMs := setting.budgetMs - w.elapsed(l.run.trace.checks);
    var reply := w.gateway(|l.run.trace.sent|);
    if remainingMs > 0 && reply.Response? {
      var asked := l.(run := Asked(Checked(l.run), l.messages, remainingMs), tally := Counted(l.tally, reply));
      AnsweredIsOrderly(w, cfg, setting, asked, reply, turn);
    }
  }

  lemma {:induction false} TurnsAreOrderly(w: World, cfg: Config, setting: Setting, l: Loop, turn: nat)
    requires IsBetweenTurns(l) && IsOrderlyLoop(l)
    ensures IsOrderlyLoop(Turns(w, cfg, setting, l, turn))
    decreases cfg.maxToolTurns - turn
  {
    hide IsOrderlyLoop, Turn;
    if turn < cfg.maxToolTurns && l.phase.Going? {
      TurnIsOrderly(w, cfg, setting, l, turn);
      TurnsAreOrderly(w, cfg, setting, Turn(w, cfg, setting, l, turn), turn + 1);
    }
  }

  lemma FinishedIsOrderly(l: Loop)
    requires IsBetweenTurns(l) && IsOrderlyLoop(l)
    ensures IsOrderly(Finished(l))
  {
    hide IsTranscript, IsWellAsked;
  }

  lemma ExecuteIsOrderly(w: World, cfg: Config, request: Request)
    ensures IsOrderly(Execute(w, cfg, request))
  {
    hide Turns;
    assert IsTranscript(InputMessages(request.instruction)) by {
      assert request.instruction != [] ==> InputMessages(request.instruction)[1..] == [];
    }
    assert IsOrderlyLoop(StartedLoop(request));
    TurnsAreOrderly(w, cfg, ExecuteSetting(cfg, request), StartedLoop(request), 0);
    FinishedIsOrderly(ExecuteLoop(w, cfg, request));
  }

  // Resuming

  lemma ResumedAnsweredIsOrderly(w: World, route: Route, setting: Setting, l: Loop, reply: GatewayReply)
    requires reply.Response? && l.phase.Going? && l.run.inv.status == Running && IsOrderlyLoop(l)
    ensures IsOrderlyLoop(ResumedAnswered(w, route, setting, l, reply))
  {
    hide DispatchAll, IsTranscript, AssistantMessage, IsWellAsked, ValidCalls, RouteStyle;
    var calls := ValidCalls(reply.calls);
    var waiting := Save(MoveTo(l.run, WaitingTool), InvocationWaitingTool);
    var d := Begun(setting, waiting.trace, l.messages + [AssistantMessage(reply.outputText, calls)]);
    DispatchKeepsTranscript(w, setting, RouteStyle(route), calls, d, l.messages, reply.outputText);
  }

  lemma ResumedTurnIsOrderly(w: World, route: Route, setting: Setting, l: Loop)
    requires l.phase.Going? && l.run.inv.status == Running && IsOrderlyLoop(l)
    ensures IsOrderlyLoop(ResumedTurn(w, route, setting, l))
  {
    hide ResumedAnswered, IsTranscript;
    var remainingMs := setting.budgetMs - w.elapsed(l.run.trace.checks);
    var reply := w.gateway(|l.run.trace.sent|);
    if remainingMs > 0 && reply.Response? {
      var asked := l.(run := Asked(Checked(l.run), l.messages, remainingMs), tally := Counted(l.tally, reply));
      ResumedAnsweredIsOrderly(w, route, setting, asked, reply);
    }
  }

  lemma {:induction false} ResumedTurnsAreOrderly(
    w: World, cfg: Config, route: Route, setting: Setting, l: Loop, turn: nat)
    requires IsBetweenTurns(l) && IsOrderlyLoop(l)
    ensures IsOrderlyLoop(ResumedTurns(w, cfg, route, setting, l, turn))
    decreases cfg.maxToolTurns - turn
  {
    hide IsOrderlyLoop, ResumedTurn;
    if turn < cfg.maxToolTurns - 1 && l.phase.Going? {
      ResumedTurnIsOrderly(w, route, setting, l);
      ResumedTurnsAreOrderly(w, cfg, route, setting, ResumedTurn(w, route, setting, l), turn + 1);
    }
  }

  lemma GatedTurnIsOrderly(w: World, cfg: Config, r: Run, ctx: Pending)
    requires r.inv.status == WaitingHuman && IsOrderly(r) && IsTranscript(ctx.messages)
    ensures IsOrderlyLoop(GatedTurn(w, cfg, r, ctx))
  {
    hide DispatchAll, IsTranscript, AssistantMessage, IsWellAsked;
    var waiting := Save(MoveTo(Reopened(r, InvocationResumed), WaitingTool), InvocationWaitingTool);
    var setting := ResumeSetting(cfg, ctx);
    var d := Begun(setting, waiting.trace, ctx.messages + [AssistantMessage(ctx.outputText, ctx.calls)]);
    DispatchKeepsTranscript(w, setting, GATED_TURN_STYLE, ctx.calls, d, ctx.messages, ctx.outputText);
  }

  lemma {:induction false} SyntheticResultsAnswerAll(calls: seq<ToolCall>, output: ScalarText)
    ensures AnswersAll(calls, SyntheticResults(calls, output))
  {
    if calls != [] {
      SyntheticResultsAnswerAll(calls[1..], output);
      var rest := SyntheticResults(calls[1..], output);
      var all := SyntheticResults(calls, output);
      assert forall i :: 1 <= i < |calls| ==> calls[i] == calls[1..][i - 1] && all[i] == rest[i - 1];
    }
  }

  lemma NothingAnswersNothing()
    ensures AnswersAll([], [])
  {
  }

  lemma OverriddenTurnIsOrderly(r: Run, ctx: Pending, output: Text)
    requires r.inv.status == WaitingHuman && IsOrderly(r) && IsTranscript(ctx.messages)
    ensures IsOrderlyLoop(OverriddenTurn(r, ctx, output))
  {
    hide IsTranscript, AssistantMessage, IsWellAsked, AnswersAll, SyntheticResults;
    var answers := if ctx.calls == [] || !IsEncodable(output) then [] else SyntheticResults(ctx.calls, output);
    if ctx.calls != [] && !IsEncodable(output) {
      return;
    }
    if ctx.calls == [] {
      assert AnswersAll(ctx.calls, answers) by { NothingAnswersNothing(); }
    } else {
      SyntheticResultsAnswerAll(ctx.calls, output);
    }
    TurnIsTranscript(ctx.outputText, ctx.calls, answers);
    TranscriptsConcatenate(ctx.messages, [AssistantMessage(ctx.outputText, ctx.calls)] + answers);
    assert ctx.messages + [AssistantMessage(ctx.outputText, ctx.calls)] + answers
        == ctx.messages + ([AssistantMessage(ctx.outputText, ctx.calls)] + answers);
  }

  lemma ResumeIsOrderly(w: World, cfg: Config, r: Run, decision: HumanDecision)
    requires IsOrderly(r)
    ensures IsOrderly(Resume(w, cfg, r, decision))
  {
    hide ResumedTurns, GatedTurn, OverriddenTurn, Finished, IsTranscript, IsWellAsked;
    if r.log != [] {
      var inv := r.log[|r.log| - 1].invocation;
      var loaded := r.(inv := inv);
      if inv.status == WaitingHuman && inv.pending.Some? {
        var ctx := inv.pending.value;
        var setting := ResumeSetting(cfg, ctx);
        if decision.Approved? {
          GatedTurnIsOrderly(w, cfg, loaded, ctx);
          ResumedTurnsAreOrderly(w, cfg, AfterApproval, setting, GatedTurn(w, cfg, loaded, ctx), 0);
          FinishedIsOrderly(ResumedTurns(w, cfg, AfterApproval, setting, GatedTurn(w, cfg, loaded, ctx), 0));
        } else if decision.Override? {
          var begun := OverriddenTurn(loaded, ctx, decision.output);
          OverriddenTurnIsOrderly(loaded, ctx, decision.output);
          ResumedTurnsAreOrderly(w, cfg, AfterOverride, setting, begun, 0);
          FinishedIsOrderly(ResumedTurns(w, cfg, AfterOverride, setting, begun, 0));
        }
      }
    }
  }

  lemma {:induction false} LifeIsOrderly(w: World, cfg: Config, request: Request, decisions: seq<HumanDecision>)
    ensures IsOrderly(Life(w, cfg, request, decisions))
    decreases |decisions|
  {
    hide IsOrderly, Execute, Resume;
    if decisions == [] {
      ExecuteIsOrderly(w, cfg, request);
    } else {
      var n := |decisions| - 1;
      LifeIsOrderly(w, cfg, request, decisions[..n]);
      ResumeIsOrderly(w, cfg, Life(w, cfg, request, decisions[..n]), decisions[n]);
    }
  }

  /** The transcript protocol, over whole lives and every world. */
  lemma ModelIsAlwaysSentATranscript(
    w: World, cfg: Config, request: Request, decisions: seq<HumanDecision>, k: nat)
    requires k < |Life(w, cfg, request, decisions).trace.sent|
    ensures
      var call := Life(w, cfg, request, decisions).trace.sent[k];
      IsTranscript(call.messages) && 1 <= call.timeoutMs <= 60000
  {
    LifeIsOrderly(w, cfg, request, decisions);
  }
}
