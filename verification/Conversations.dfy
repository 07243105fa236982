/** What the model is told: the answer to every tool call, what goes out for it, and how each turn
  * goes on from there.
  */
module Conversations {
  import opened Options
  import opened Utf8
  import opened Truncation
  import opened PythonStrings
  import opened Invocations
  import opened AgentLoop
  import opened Transcripts

  // Tool calls

  /** Exactly the well-formed entries become calls, each with its own id, name and arguments, and
    * in the order of the entries. */
  lemma {:induction false} ValidCallsOfConcat(a: seq<RawCall>, b: seq<RawCall>)
    ensures ValidCalls(a + b) == ValidCalls(a) + ValidCalls(b)
  {
    hide IsValidCall;
    if a == [] {
      assert a + b == b;
    } else {
      ValidCallsOfConcat(a[1..], b);
      assert (a + b)[0] == a[0] && (a + b)[1..] == a[1..] + b;
      assert ValidCalls(a) == ValidCalls([a[0]]) + ValidCalls(a[1..]) by { FirstIsValid(a); }
      assert ValidCalls(a + b) == ValidCalls([a[0]]) + ValidCalls(a[1..] + b) by { FirstIsValid(a + b); }
      hide ValidCalls;
    }
  }

  lemma FirstIsValid(a: seq<RawCall>)
    requires a != []
    ensures ValidCalls(a) == ValidCalls([a[0]]) + ValidCalls(a[1..])
  {
    assert [a[0]][1..] == [];
  }

  lemma ValidCallsOfOne(id: string, name: string, arguments: Arguments)
    ensures ValidCalls([Entry(id, Some(RawFunction(name, arguments)))])
         == if id != "" && name != "" then [ToolCall(id, name, arguments)] else []
    ensures ValidCalls([Entry(id, None)]) == [] && ValidCalls([NotADict]) == []
  {
    assert forall e: RawCall :: ValidCalls([e][1..]) == [];
  }

  /** The arguments as they are used: an empty object stands for what does not decode. */
  function InputSent(call: ToolCall): ToolInput {
    match call.arguments
    case NotDecodable => ToolInput(2, "", "")
    case Decoded(input) => input
  }

  predicate PassesGuardrails(name: string, input: ToolInput) {
    && input.jsonSize <= 65536
    && (name == "shell.exec" ==> !IsBlank(input.code) || (input.code == "" && !IsBlank(input.command)))
    && (name == "python.run_script" ==> !IsBlank(input.code))
  }

  /** What the guardrails refuse, and what they say about blank code. */
  lemma RejectionTells(name: string, input: ToolInput)
    ensures Rejection(name, input).None? <==> PassesGuardrails(name, input)
    ensures input.jsonSize <= 65536 && !PassesGuardrails(name, input) ==>
              Rejection(name, input)
              == Some(FromString(if name == "shell.exec" then "shell.exec: empty command"
                                 else "python.run_script: empty code"))
  {
  }

  function DigitValue(c: char): int {
    c as int - '0' as int
  }

  /** The number that a decimal numeral stands for. */
  function Value(s: string): int {
    if s == [] then 0 else Value(s[..|s| - 1]) * 10 + DigitValue(s[|s| - 1])
  }

  lemma {:induction false} DecimalIsNumeral(n: nat)
    ensures Value(Decimal(n)) == n && |Decimal(n)| > 0
    ensures forall i :: 0 <= i < |Decimal(n)| ==> '0' <= Decimal(n)[i] <= '9'
    ensures n > 0 ==> Decimal(n)[0] != '0'
  {
    var digit := [['0', '1', '2', '3', '4', '5', '6', '7', '8', '9'][n % 10]];
    assert digit[..0] == [];
    if n >= 10 {
      DecimalIsNumeral(n / 10);
      assert (Decimal(n / 10) + digit)[..|Decimal(n / 10)|] == Decimal(n / 10);
    }
  }

  lemma LimitInDigits()
    ensures Decimal(65536) == "65536"
  {
    assert Decimal(6) == "6";
    assert Decimal(65) == "65";
    assert Decimal(655) == "655";
    assert Decimal(6553) == "6553";
  }

  /** What the guardrails say about oversized input: how large it is, and how large it may be. */
  lemma OversizeTells(name: string, input: ToolInput)
    requires input.jsonSize > 65536
    ensures Rejection(name, input)
         == Some(FromString("Tool input too large (" + Decimal(input.jsonSize) + " chars, max 65536 bytes)"))
  {
    LimitInDigits();
    hide Decimal, FromString;
    var told := "Tool input too large (" + Decimal(input.jsonSize);
    assert " chars, max " + "65536" + " bytes)" == " chars, max 65536 bytes)";
    assert told + " chars, max " + "65536" + " bytes)" == told + (" chars, max " + "65536" + " bytes)");
  }

  // The answer to one call

  /** The text, or its longest prefix that fits in 32768 bytes and the marker. */
  ghost predicate IsCut(output: Text, text: Text) {
    && IsEncodable(text)
    && var kept := LongestFit(text, 32768);
       output == if kept == |text| then text else text[..kept] + FromString("\n[output truncated to 32KB]")
  }

  /** Missing, empty, or a value that counts as false. */
  predicate SaysNothing(stdout: Field) {
    stdout.Missing? || stdout == Characters([]) || stdout == NotText(false)
  }

  /** What the model is told of a reply: the output, or else the error, or else that it failed,
    * with the note that the service has cut it. */
  ghost predicate TellsReply(output: Text, reply: ToolReply, notes: bool) {
    match reply
    case ToolRaised(message) => IsCut(output, message)
    case ToolReturned(_, stdout, error, truncated) =>
      var note: Text :=
        if truncated && notes then FromString("\n[output truncated by execution-service]") else [];
      && (stdout.Characters? && stdout.text != [] ==> IsCut(output, stdout.text + note))
      && (SaysNothing(stdout) && error.Characters? ==> IsCut(output, error.text + note))
      && (SaysNothing(stdout) && error.Missing? ==> IsCut(output, FromString("Tool execution failed") + note))
  }

  predicate HasFailed(reply: ToolReply) {
    reply.ToolRaised? || reply.status != "completed"
  }

  /** The answer to a call, what has gone out for it, and whether it counts as a failure. */
  ghost predicate Answers(
    w: World, setting: Setting, style: Style, call: ToolCall, before: Trace, after: Trace, output: Text, failed: bool)
  {
    var input := InputSent(call);
    && after.sent == before.sent
    && after.checks == (if style.skipped.Some? then before.checks + 1 else before.checks)
    &&
    if style.skipped.Some? && setting.budgetMs <= w.elapsed(before.checks) then
      output == style.skipped.value && failed && after.dispatched == before.dispatched
    else if !PassesGuardrails(call.name, input) then
      && Rejection(call.name, input).Some? && IsCut(output, Rejection(call.name, input).value)
      && failed && after.dispatched == before.dispatched
    else if !setting.sandbox.Uuid? then
      IsCut(output, FromString("No sandbox_id available")) && failed && after.dispatched == before.dispatched
    else if !setting.hasService then
      IsCut(output, FromString("No execution service")) && failed && after.dispatched == before.dispatched
    else
      && after.dispatched == before.dispatched + [Dispatch(call.name, input, style.attempt)]
      && var reply := w.tool(|before.dispatched|);
         TellsReply(output, reply, style.notesTruncation) && (failed <==> HasFailed(reply))
  }

  lemma CutIsCut(text: ScalarText)
    ensures IsCut(TruncateToolResult(text), text)
  {
    hide Encode, LongestFit, DecodeIgnoringErrors, TruncateToolResult;
    TruncationKeepsLongestFit(text);
  }

  lemma ContentTellsReply(style: Style, reply: ToolReply)
    ensures
      var content := Content(style, ResultOfReply(reply));
      content.Some? ==> TellsReply(content.value, reply, style.notesTruncation)
  {
    hide TruncateToolResult, IsCut;
    var result := ResultOfReply(reply);
    var text := TextOf(result);
    if text.Some? {
      CutIsCut(text.value);
      CutIsCut(text.value + TRUNCATED_BY_SERVICE);
      assert text.value + [] == text.value;
    }
  }

  lemma ContentOfFailure(style: Style, message: ScalarText)
    ensures
      var content := Content(style, FailedTool(message));
      content.Some? && (message != [] ==> IsCut(content.value, message))
  {
    hide TruncateToolResult, IsCut;
    CutIsCut(message);
  }

  /** One dispatch answers as it should, and sends what it should. */
  lemma DispatchOneAnswersWith(w: World, setting: Setting, style: Style, call: ToolCall, d: Dispatching)
    requires !DispatchOne(w, setting, style, call, d).raised && !setting.sandbox.Malformed?
    ensures
      var next := DispatchOne(w, setting, style, call, d);
      && |next.messages| == |d.messages| + 1 && next.messages[|d.messages|].ToolOutput?
      && d.failures <= next.failures <= d.failures + 1
      && Answers(w, setting, style, call, d.trace, next.trace, next.messages[|d.messages|].output,
                 next.failures > d.failures)
  {
    hide Content, TellsReply, IsCut, Rejection, FailedTool, PassesGuardrails;
    var input := InputSent(call);
    assert input == InputOf(call);
    RejectionTells(call.name, input);
    RejectionIsText(call.name, input);
    var n := |d.trace.dispatched|;
    ContentTellsReply(style, w.tool(n));
    FailedToolFails(FromString("No sandbox_id available"));
    FailedToolFails(FromString("No execution service"));
    ContentOfFailure(style, FromString("No sandbox_id available"));
    ContentOfFailure(style, FromString("No execution service"));
    if !PassesGuardrails(call.name, input) {
      FailedToolFails(Rejection(call.name, input).value);
      ContentOfFailure(style, Rejection(call.name, input).value);
    }
    ReplyFails(w.tool(n));
  }

  lemma RejectionIsText(name: string, input: ToolInput)
    ensures Rejection(name, input).Some? ==> Rejection(name, input).value != []
  {
    hide Decimal, IsBlank;
  }

  lemma FailedToolFails(message: Text)
    ensures FailedTool(message).status != "completed"
  {
    assert "failed"[0] != "completed"[0];
  }

  lemma ReplyFails(reply: ToolReply)
    ensures ResultOfReply(reply).status != "completed" <==> HasFailed(reply)
  {
    if reply.ToolRaised? {
      FailedToolFails(reply.message);
    }
  }

  // The answers of a dispatch

  /** The dispatch after its first i calls. */
  function After(
    w: World, setting: Setting, style: Style, calls: seq<ToolCall>, d: Dispatching, i: nat): Dispatching
    requires i <= |calls|
  {
    DispatchAll(w, setting, style, calls[..i], d)
  }

  lemma {:induction false} AfterOneMore(
    w: World, setting: Setting, style: Style, calls: seq<ToolCall>, d: Dispatching, i: nat)
    requires i < |calls| && !After(w, setting, style, calls, d, i).raised
    ensures After(w, setting, style, calls, d, i + 1)
         == DispatchOne(w, setting, style, calls[i], After(w, setting, style, calls, d, i))
    decreases i
  {
    hide DispatchOne;
    var next := DispatchOne(w, setting, style, calls[0], d);
    assert calls[..i + 1][0] == calls[0] && calls[..i + 1][1..] == calls[1..][..i];
    if i == 0 {
      assert calls[..0] == [] && calls[1..][..0] == [];
      NothingToDispatch(w, setting, style, d);
      NothingToDispatch(w, setting, style, next);
    } else {
      assert calls[..i][0] == calls[0] && calls[..i][1..] == calls[1..][..i - 1];
      assert !d.raised;
      AfterOneMore(w, setting, style, calls[1..], next, i - 1);
    }
  }

  /** A dispatch that does not raise has not raised before, and keeps what it has said. */
  lemma {:induction false} AfterIsPrefix(
    w: World, setting: Setting, style: Style, calls: seq<ToolCall>, d: Dispatching, i: nat)
    requires i <= |calls| && !DispatchAll(w, setting, style, calls, d).raised
    ensures
      var before, end := After(w, setting, style, calls, d, i), DispatchAll(w, setting, style, calls, d);
      !before.raised && |before.messages| == |d.messages| + i && before.messages <= end.messages
    decreases |calls| - i
  {
    hide DispatchOne, DispatchAll;
    if i == |calls| {
      assert calls[..i] == calls;
      DispatchAnswersAll(w, setting, style, calls, d);
    } else {
      AfterIsPrefix(w, setting, style, calls, d, i + 1);
      var before := After(w, setting, style, calls, d, i);
      RaisedStays(w, setting, style, calls, d, i);
      AfterOneMore(w, setting, style, calls, d, i);
      DispatchOneAnswers(w, setting, style, calls[i], before);
      DispatchAnswersAll(w, setting, style, calls[..i], d);
      AfterKeeps(before.messages, After(w, setting, style, calls, d, i + 1).messages,
                 DispatchAll(w, setting, style, calls, d).messages);
    }
  }

  lemma AfterKeeps(a: seq<Message>, b: seq<Message>, c: seq<Message>)
    requires |a| <= |b| && b[..|a|] == a && b <= c
    ensures a <= c
  {
    assert c[..|a|] == c[..|b|][..|a|];
  }

  lemma {:induction false} RaisedStays(
    w: World, setting: Setting, style: Style, calls: seq<ToolCall>, d: Dispatching, i: nat)
    requires i < |calls| && !After(w, setting, style, calls, d, i + 1).raised
    ensures !After(w, setting, style, calls, d, i).raised
    decreases i
  {
    hide DispatchOne;
    if i > 0 && !d.raised {
      var next := DispatchOne(w, setting, style, calls[0], d);
      assert calls[..i + 1][0] == calls[0] && calls[..i + 1][1..] == calls[1..][..i];
      assert calls[..i][0] == calls[0] && calls[..i][1..] == calls[1..][..i - 1];
      RaisedStays(w, setting, style, calls[1..], next, i - 1);
    } else if i == 0 {
      assert calls[..1] == [calls[0]] && calls[..0] == [];
    }
  }

  /** This message answers the i-th call of a dispatch. */
  ghost predicate IsAnswerTo(
    w: World, setting: Setting, style: Style, calls: seq<ToolCall>, d: Dispatching, i: nat, m: Message)
    requires i < |calls|
  {
    var before, after := After(w, setting, style, calls, d, i), After(w, setting, style, calls, d, i + 1);
    && m.ToolOutput? && m.callId == calls[i].id
    && before.failures <= after.failures <= before.failures + 1
    && Answers(w, setting, style, calls[i], before.trace, after.trace, m.output, after.failures > before.failures)
  }

  /** The i-th message that a dispatch adds is the answer to its i-th call. */
  lemma DispatchAnswersWith(
    w: World, setting: Setting, style: Style, calls: seq<ToolCall>, d: Dispatching, end: Dispatching, i: nat)
    requires end == DispatchAll(w, setting, style, calls, d) && !end.raised && !setting.sandbox.Malformed?
    requires i < |calls|
    ensures |end.messages| == |d.messages| + |calls| && d.messages <= end.messages
    ensures IsAnswerTo(w, setting, style, calls, d, i, end.messages[|d.messages| + i])
  {
    hide DispatchAll, DispatchOne, Answers;
    DispatchAnswersAll(w, setting, style, calls, d);
    AfterIsPrefix(w, setting, style, calls, d, i);
    AfterIsPrefix(w, setting, style, calls, d, i + 1);
    AfterOneMore(w, setting, style, calls, d, i);
    var before := After(w, setting, style, calls, d, i);
    DispatchOneAnswersWith(w, setting, style, calls[i], before);
    DispatchOneAnswers(w, setting, style, calls[i], before);
    var after := After(w, setting, style, calls, d, i + 1);
    assert end.messages[|before.messages|] == after.messages[|before.messages|];
  }

  lemma {:induction false} FailuresAddUp(
    w: World, setting: Setting, style: Style, calls: seq<ToolCall>, d: Dispatching, n: nat)
    requires n <= |calls| && !After(w, setting, style, calls, d, n).raised
    ensures
      var end := After(w, setting, style, calls, d, n);
      && d.failures <= end.failures <= d.failures + n
      && (end.failures == d.failures + n <==>
            forall i :: 0 <= i < n ==>
              After(w, setting, style, calls, d, i).failures < After(w, setting, style, calls, d, i + 1).failures)
  {
    hide DispatchOne, DispatchAll;
    if n == 0 {
      assert calls[..0] == [];
      NothingToDispatch(w, setting, style, d);
    } else {
      RaisedStays(w, setting, style, calls, d, n - 1);
      FailuresAddUp(w, setting, style, calls, d, n - 1);
      AfterOneMore(w, setting, style, calls, d, n - 1);
      DispatchOneAnswers(w, setting, style, calls[n - 1], After(w, setting, style, calls, d, n - 1));
    }
  }

  lemma NothingToDispatch(w: World, setting: Setting, style: Style, d: Dispatching)
    ensures DispatchAll(w, setting, style, [], d) == d
  {
  }

  /** All calls have failed exactly if the answer to each is a failure. */
  lemma AllFailedExactly(w: World, setting: Setting, style: Style, calls: seq<ToolCall>, d: Dispatching)
    requires d.failures == 0 && !DispatchAll(w, setting, style, calls, d).raised
    ensures DispatchAll(w, setting, style, calls, d).failures == |calls| <==>
              forall i :: 0 <= i < |calls| ==>
                After(w, setting, style, calls, d, i).failures < After(w, setting, style, calls, d, i + 1).failures
  {
    hide DispatchAll;
    assert calls[..|calls|] == calls;
    FailuresAddUp(w, setting, style, calls, d, |calls|);
  }

  // Turns

  predicate AsksForTools(reply: GatewayReply) {
    reply.Response? && reply.finishReason == "tool_calls" && reply.calls != []
  }

  /** What the model said, when it has asked for tools. */
  function Said(text: ScalarText, calls: seq<ToolCall>): Message {
    Assistant(if text == [] then None else Some(text), calls)
  }

  function FailedWith(inv: Invocation, code: string): Invocation {
    inv.(status := Failed, error := Some(code))
  }

  const SKIPPED := FromString("Budget exhausted \U{2014} tool execution skipped")

  /** One question to the model and one look at the clock more. */
  function AfterAsking(t: Trace, messages: seq<Message>, remainingMs: int): Trace {
    t.(sent := t.sent + [ModelCall(messages, if remainingMs < 60000 then remainingMs else 60000)],
       checks := t.checks + 1)
  }

  /** A turn of a fresh invocation: what it asks, and what each answer of the model leads to. */
  lemma TurnDecides(w: World, cfg: Config, setting: Setting, l: Loop, turn: nat)
    requires l.phase.Going? && l.run.inv.status == Running
    ensures
      var next, inv := Turn(w, cfg, setting, l, turn), l.run.inv;
      var remainingMs, reply := setting.budgetMs - w.elapsed(l.run.trace.checks), w.gateway(|l.run.trace.sent|);
      var calls := if reply.Response? then ValidCalls(reply.calls) else [];
      var asked := AfterAsking(l.run.trace, l.messages, remainingMs);
      var dispatches := AsksForTools(reply) && setting.hasService && calls != [] && FirstGated(calls, cfg.mode).None?;
      if remainingMs <= 0 then
        && next.run.inv == inv.(status := TimedOut, error := Some("BUDGET_EXHAUSTED"))
        && next.run.trace == l.run.trace.(checks := l.run.trace.checks + 1)
      else
        && next.run.trace.sent == asked.sent && (!dispatches ==> next.run.trace == asked)
        && (reply.GatewayError? ==>
              next.run.inv == inv.(status := if reply.code == "TIMEOUT" then TimedOut else Failed,
                                   error := Some(reply.code)))
        && (reply.Response? && (!AsksForTools(reply) || !setting.hasService) ==>
              next.phase == Stopped && next.run.inv == inv && next.messages == l.messages)
        && (AsksForTools(reply) && setting.hasService && calls == [] ==>
              next.run.inv == FailedWith(inv, "MALFORMED_TOOL_CALLS"))
        && (AsksForTools(reply) && setting.hasService && calls != [] && FirstGated(calls, cfg.mode).Some? ==>
              next.run.inv
              == inv.(status := WaitingHuman,
                      pending := Some(Pending(calls, l.messages, reply.outputText, reply.promptTokens,
                                              reply.completionTokens, setting.sandbox,
                                              FirstGated(calls, cfg.mode).value.name))))
        && (dispatches ==>
              var dispatched := ToolTurn(w, setting, l.(run := l.run.(trace := asked)), calls, reply.outputText, turn);
              next.run == dispatched.run && next.messages == dispatched.messages && next.phase == dispatched.phase)
  {
    hide ToolTurn, ValidCalls, FirstGated;
    var reply := w.gateway(|l.run.trace.sent|);
    if reply.Response? {
      var calls := ValidCalls(reply.calls);
      var asked := Asked(Checked(l.run), l.messages, setting.budgetMs - w.elapsed(l.run.trace.checks));
      var tally := Counted(l.tally, reply);
      var collected := l.(run := asked, tally := tally.(calls := tally.calls + calls));
      ToolTurnAsksNothing(w, setting, collected, calls, reply.outputText, turn);
      ToolTurnIgnoresTally(w, setting, collected, l.tally, calls, reply.outputText, turn);
    }
  }

  lemma ToolTurnIgnoresTally(
    w: World, setting: Setting, l: Loop, tally: Tally, calls: seq<ToolCall>, text: ScalarText, turn: nat)
    requires l.run.inv.status == Running
    ensures
      var next, other := ToolTurn(w, setting, l, calls, text, turn),
                         ToolTurn(w, setting, l.(tally := tally), calls, text, turn);
      next.run == other.run && next.messages == other.messages && next.phase == other.phase
  {
    hide DispatchAll;
  }

  lemma ToolTurnAsksNothing(
    w: World, setting: Setting, l: Loop, calls: seq<ToolCall>, text: ScalarText, turn: nat)
    requires l.run.inv.status == Running
    ensures ToolTurn(w, setting, l, calls, text, turn).run.trace.sent == l.run.trace.sent
  {
    hide DispatchAll;
    var waiting := Save(MoveTo(l.run, WaitingTool), InvocationWaitingTool);
    var said := l.messages + [AssistantMessage(text, calls)];
    DispatchAnswersAll(w, setting, TurnStyle(turn), calls, Begun(setting, waiting.trace, said));
  }

  /** A turn with tools: it says what the model said, answers every call, and fails exactly when
    * every call has failed. */
  lemma ToolTurnDecides(w: World, setting: Setting, l: Loop, calls: seq<ToolCall>, text: ScalarText, turn: nat)
    requires l.run.inv.status == Running && calls != []
    ensures
      var next, inv := ToolTurn(w, setting, l, calls, text, turn), l.run.inv;
      var style := Style(Some(SKIPPED), true, turn);
      var begun := Begun(setting, l.run.trace, l.messages + [Said(text, calls)]);
      var end, waiting := DispatchAll(w, setting, style, calls, begun), inv.(status := WaitingTool);
      && next.messages == end.messages && next.run.trace == end.trace
      && l.run.log + [Saved(InvocationWaitingTool, waiting)] <= next.run.log
      && (next.phase.Raised? <==> end.raised)
      && (!end.raised && end.failures == |calls| ==> next.run.inv == FailedWith(inv, "ALL_TOOLS_FAILED"))
      && (!end.raised && end.failures < |calls| ==>
            && next.phase == Going && next.run.inv == inv
            && next.run.log == l.run.log + [Saved(InvocationWaitingTool, waiting)]
                               + [Saved(TurnCompleted(turn, |calls|, end.failures), inv)])
  {
    hide DispatchAll;
    assert Move(Move(l.run.inv, WaitingTool), Running) == l.run.inv;
  }

  /** A turn after a pause. An approval skips calls when the budget has run out and fails on
    * malformed calls; an override looks neither at the clock nor at the service, and stops. */
  lemma ResumedTurnDecides(w: World, route: Route, setting: Setting, l: Loop)
    requires l.phase.Going? && l.run.inv.status == Running
    ensures
      var next, inv := ResumedTurn(w, route, setting, l), l.run.inv;
      var remainingMs, reply := setting.budgetMs - w.elapsed(l.run.trace.checks), w.gateway(|l.run.trace.sent|);
      var calls := if reply.Response? then ValidCalls(reply.calls) else [];
      var goesOn := AsksForTools(reply) && (setting.hasService || route.AfterOverride?);
      var asked := AfterAsking(l.run.trace, l.messages, remainingMs);
      if remainingMs <= 0 then
        && next.run.inv == inv.(status := TimedOut, error := Some("BUDGET_EXHAUSTED"))
        && next.run.trace == l.run.trace.(checks := l.run.trace.checks + 1)
      else
        && next.run.trace.sent == asked.sent && (!goesOn || calls == [] ==> next.run.trace == asked)
        && (reply.GatewayError? ==> next.run.inv == FailedWith(inv, "GATEWAY_ERROR"))
        && (reply.Response? && !goesOn ==> next.phase == Stopped && next.run.inv == inv)
        && (goesOn && calls == [] && route.AfterApproval? ==>
              next.run.inv == FailedWith(inv, "MALFORMED_TOOL_CALLS"))
        && (goesOn && calls == [] && route.AfterOverride? ==> next.phase == Stopped && next.run.inv == inv)
        && (goesOn && calls != [] ==>
              var skipped := if route.AfterApproval? then Some(FromString("Budget exhausted")) else None;
              var begun := Begun(setting, asked, l.messages + [Said(reply.outputText, calls)]);
              var end := DispatchAll(w, setting, Style(skipped, false, 0), calls, begun);
              && next.messages == end.messages && next.run.trace == end.trace
              && next.run.log == l.run.log + [Saved(InvocationWaitingTool, inv.(status := WaitingTool))]
              && (next.phase.Raised? <==> end.raised) && (!end.raised ==> next.phase == Going && next.run.inv == inv))
  {
    hide DispatchAll, ValidCalls;
    assert Move(Move(l.run.inv, WaitingTool), Running) == l.run.inv;
    var reply := w.gateway(|l.run.trace.sent|);
    if reply.Response? {
      var calls := ValidCalls(reply.calls);
      var trace := Asked(Checked(l.run), l.messages, setting.budgetMs - w.elapsed(l.run.trace.checks)).trace;
      var begun := Begun(setting, trace, l.messages + [AssistantMessage(reply.outputText, calls)]);
      DispatchAnswersAll(w, setting, RouteStyle(route), calls, begun);
    }
  }

  /** The gated turn, after approval: as a turn of a fresh invocation, from what was remembered. */
  lemma GatedTurnDecides(w: World, cfg: Config, r: Run, ctx: Pending)
    requires r.inv.status == WaitingHuman
    ensures
      var next, running := GatedTurn(w, cfg, r, ctx), r.inv.(status := Running, pending := None);
      var setting := Setting(cfg.hasExecutionService, ctx.sandbox, cfg.budgetMs);
      var begun := Begun(setting, r.trace, ctx.messages + [Said(ctx.outputText, ctx.calls)]);
      var end := DispatchAll(w, setting, Style(Some(SKIPPED), true, 0), ctx.calls, begun);
      && next.messages == end.messages && next.run.trace == end.trace
      && r.log + [Saved(InvocationResumed, running)]
               + [Saved(InvocationWaitingTool, running.(status := WaitingTool))] <= next.run.log
      && (next.phase.Raised? <==> end.raised)
      && (!end.raised && end.failures == |ctx.calls| ==> next.run.inv == FailedWith(running, "ALL_TOOLS_FAILED"))
      && (!end.raised && end.failures != |ctx.calls| ==> next.phase == Going && next.run.inv == running)
  {
    hide DispatchAll;
    assert Move(Move(Move(r.inv, Running).(pending := None), WaitingTool), Running)
        == r.inv.(status := Running, pending := None);
  }

  lemma {:induction false} SyntheticResultsTell(calls: seq<ToolCall>, output: ScalarText, i: nat)
    requires i < |calls|
    ensures
      var results := SyntheticResults(calls, output);
      && |results| == |calls| && results[i].ToolOutput? && results[i].callId == calls[i].id
      && IsCut(results[i].output, output)
  {
    hide TruncateToolResult, IsCut;
    CutIsCut(output);
    SyntheticResultsAnswerAll(calls, output);
    if i > 0 {
      SyntheticResultsTell(calls[1..], output, i - 1);
    }
  }

  /** The gated turn, overridden: every call is answered with the operator's text. */
  lemma OverriddenTurnDecides(r: Run, ctx: Pending, output: ScalarText)
    requires r.inv.status == WaitingHuman && !ctx.sandbox.Malformed?
    ensures
      var next, said := OverriddenTurn(r, ctx, output), ctx.messages + [Said(ctx.outputText, ctx.calls)];
      && next.phase == Going && next.run.inv == r.inv.(status := Running, pending := None)
      && next.run.log == r.log + [Saved(InvocationOverridden, next.run.inv)] && next.run.trace == r.trace
      && |next.messages| == |said| + |ctx.calls| && next.messages[..|said|] == said
      && (forall i :: 0 <= i < |ctx.calls| ==>
            && next.messages[|said| + i].ToolOutput? && next.messages[|said| + i].callId == ctx.calls[i].id
            && IsCut(next.messages[|said| + i].output, output))
  {
    hide IsCut, SyntheticResults;
    SyntheticResultsAnswerAll(ctx.calls, output);
    forall i | 0 <= i < |ctx.calls|
      ensures
        var results := SyntheticResults(ctx.calls, output);
        && i < |results| && results[i].ToolOutput? && results[i].callId == ctx.calls[i].id
        && IsCut(results[i].output, output)
    {
      SyntheticResultsTell(ctx.calls, output, i);
    }
    var said := ctx.messages + [Said(ctx.outputText, ctx.calls)];
    var answers := if ctx.calls == [] then [] else SyntheticResults(ctx.calls, output);
    assert OverriddenTurn(r, ctx, output).messages == said + answers;
    assert |answers| == |ctx.calls|;
  }

  /** A rejection fails the invocation and a cancellation cancels it, each with its reason. */
  lemma RefusalsClose(w: World, cfg: Config, r: Run, ctx: Pending)
    requires r.log != [] && r.inv == r.log[|r.log| - 1].invocation
    requires r.inv.status == WaitingHuman && r.inv.pending == Some(ctx)
    ensures
      var rejected := FailedWith(r.inv, "TOOL_REJECTED").(pending := None);
      Resume(w, cfg, r, Rejected) == r.(inv := rejected, log := r.log + [Saved(InvocationFailed, rejected)])
    ensures
      var cancelled := r.inv.(status := Cancelled, error := Some("TOOL_CANCELLED"), pending := None);
      Resume(w, cfg, r, Cancel) == r.(inv := cancelled, log := r.log + [Saved(InvocationCancelled, cancelled)])
  {
  }

  /** A wait without its context fails; no decision touches anything but a wait, and an unknown
    * one, or an override without text, not even that. */
  lemma OtherwiseNothingIsDecided(w: World, cfg: Config, r: Run, decision: HumanDecision)
    requires r.log != [] && r.inv == r.log[|r.log| - 1].invocation
    ensures r.inv.status == WaitingHuman && r.inv.pending.None? ==>
              var failed := FailedWith(r.inv, "MISSING_PENDING_CONTEXT");
              Resume(w, cfg, r, decision) == r.(inv := failed, log := r.log + [Saved(InvocationFailed, failed)])
    ensures r.inv.status != WaitingHuman ==> Resume(w, cfg, r, decision) == r
    ensures r.inv.pending.Some? && (decision.Unknown? || decision == Override([])) ==>
              Resume(w, cfg, r, decision) == r
  {
    hide ResumedTurns, GatedTurn, OverriddenTurn, Finished;
  }

  /** An execution begins with the instruction, as what is stored and as the first question. */
  lemma ExecutionBegins(w: World, cfg: Config, request: Request)
    ensures
      var begun := StartedLoop(request);
      var question := if request.instruction == [] then [] else [User(request.instruction)];
      && begun.messages == question && begun.run.inv.inputMessages == question
      && begun.run.inv.status == Running && begun.run.log == [Saved(InvocationStarted, begun.run.inv)]
    ensures
      cfg.maxToolTurns >= 1 && w.elapsed(0) < ExecuteSetting(cfg, request).budgetMs
      ==> var first := Turn(w, cfg, ExecuteSetting(cfg, request), StartedLoop(request), 0);
          && first.run.trace.sent != []
          && first.run.trace.sent[0].messages == StartedLoop(request).messages
    ensures ExecuteSetting(cfg, request)
         == Setting(cfg.hasExecutionService, request.sandbox,
                    if request.timeoutMs > 0 then request.timeoutMs else cfg.budgetMs)
  {
    hide Turn;
    TurnDecides(w, cfg, ExecuteSetting(cfg, request), StartedLoop(request), 0);
  }
}
