/** Pausing at the gate and approving does to the conversation what not pausing does. */
module GateRefinement {
  import opened Utf8
  import opened Truncation
  import opened Invocations
  import opened AgentLoop
  import opened Transcripts

  /** The gate stops at the first gated call, and only in gate mode. */
  lemma {:induction false} GateFindsFirstGatedCall(calls: seq<ToolCall>, mode: ApprovalMode)
    ensures FirstGated(calls, mode).None? <==>
              mode != ModeGate || forall i :: 0 <= i < |calls| ==> !IsGatedTool(calls[i].name)
    ensures FirstGated(calls, mode).Some? ==>
              exists i :: && 0 <= i < |calls| && calls[i] == FirstGated(calls, mode).value
                          && IsGatedTool(calls[i].name)
                          && forall j :: 0 <= j < i ==> !IsGatedTool(calls[j].name)
  {
    hide IsGatedTool;
    if calls != [] {
      GateFindsFirstGatedCall(calls[1..], mode);
      assert forall i :: 0 < i < |calls| ==> calls[i] == calls[1..][i - 1];
      if FirstGated(calls, mode).Some? {
        if IsGatedTool(calls[0].name) {
          assert calls[0] == FirstGated(calls, mode).value;
        } else {
          var i :| && 0 <= i < |calls[1..]| && calls[1..][i] == FirstGated(calls[1..], mode).value
                   && IsGatedTool(calls[1..][i].name)
                   && forall j :: 0 <= j < i ==> !IsGatedTool(calls[1..][j].name);
          assert calls[i + 1] == FirstGated(calls, mode).value;
        }
      }
    }
  }

  /** From its n-th answer on, the execution service gives m answers alike in both worlds. */
  ghost predicate AnswersAlike(w: World, v: World, n: nat, m: nat) {
    forall k: nat :: n <= k < n + m ==> w.tool(k) == v.tool(k)
  }

  /** The next n looks at the clock find the budgets spent, or not, alike. */
  ghost predicate SkipsAlike(w: World, budget: int, v: World, otherBudget: int, from: nat, n: nat) {
    forall k: nat :: from <= k < from + n ==> (budget <= w.elapsed(k) <==> otherBudget <= v.elapsed(k))
  }

  /** The same calls went out, apart from the attempt number. */
  ghost predicate CalledAlike(d: seq<Dispatch>, e: seq<Dispatch>) {
    |d| == |e| && forall k :: 0 <= k < |d| ==> d[k].name == e[k].name && d[k].input == e[k].input
  }

  ghost predicate IsAlike(d: Dispatching, e: Dispatching) {
    && d.messages == e.messages && d.failures == e.failures && d.raised == e.raised
    && d.trace.checks == e.trace.checks && CalledAlike(d.trace.dispatched, e.trace.dispatched)
  }

  predicate SpeaksAlike(s: Style, t: Style) {
    s.skipped.Some? && s.skipped == t.skipped && s.notesTruncation == t.notesTruncation
  }

  predicate IsSamePlace(s: Setting, t: Setting) {
    s.hasService == t.hasService && s.sandbox == t.sandbox
  }

  lemma ExecutesAlike(
    w: World, v: World, s: Setting, t: Setting, a: Style, b: Style, call: ToolCall, d: Trace, e: Trace)
    requires IsSamePlace(s, t) && CalledAlike(d.dispatched, e.dispatched) && AnswersAlike(w, v, |d.dispatched|, 1)
    ensures
      var (result, next) := ToolExecuted(w, s.hasService, s.sandbox, call, a.attempt, d);
      var (other, following) := ToolExecuted(v, t.hasService, t.sandbox, call, b.attempt, e);
      && result == other && CalledAlike(next.dispatched, following.dispatched)
      && next.checks == d.checks && following.checks == e.checks
      && |d.dispatched| <= |next.dispatched| <= |d.dispatched| + 1
  {
    hide Rejection, FailedTool, ResultOfReply, InputOf;
    assert w.tool(|d.dispatched|) == v.tool(|e.dispatched|);
  }

  lemma DispatchesOneAlike(
    w: World, v: World, s: Setting, t: Setting, a: Style, b: Style, call: ToolCall, d: Dispatching, e: Dispatching)
    requires SpeaksAlike(a, b) && IsSamePlace(s, t) && IsAlike(d, e)
    requires AnswersAlike(w, v, |d.trace.dispatched|, 1)
    requires s.budgetMs <= w.elapsed(d.trace.checks) <==> t.budgetMs <= v.elapsed(d.trace.checks)
    ensures
      var next := DispatchOne(w, s, a, call, d);
      && IsAlike(next, DispatchOne(v, t, b, call, e))
      && next.trace.checks == d.trace.checks + 1
      && |d.trace.dispatched| <= |next.trace.dispatched| <= |d.trace.dispatched| + 1
  {
    hide ToolExecuted, CalledAlike, AnswersAlike, TruncateToolResult;
    var n := d.trace.checks + 1;
    ExecutesAlike(w, v, s, t, a, b, call, d.trace.(checks := n), e.trace.(checks := n));
  }

  lemma {:induction false} DispatchesAlike(
    w: World, v: World, s: Setting, t: Setting, a: Style, b: Style, calls: seq<ToolCall>,
    d: Dispatching, e: Dispatching)
    requires SpeaksAlike(a, b) && IsSamePlace(s, t) && IsAlike(d, e)
    requires AnswersAlike(w, v, |d.trace.dispatched|, |calls|)
    requires SkipsAlike(w, s.budgetMs, v, t.budgetMs, d.trace.checks, |calls|)
    ensures IsAlike(DispatchAll(w, s, a, calls, d), DispatchAll(v, t, b, calls, e))
  {
    hide DispatchOne, SpeaksAlike, IsAlike, IsSamePlace;
    AlikeChecks(d, e);
    if calls != [] && !d.raised {
      var next := DispatchOne(w, s, a, calls[0], d);
      DispatchesOneAlike(w, v, s, t, a, b, calls[0], d, e);
      DispatchesAlike(w, v, s, t, a, b, calls[1..], next, DispatchOne(v, t, b, calls[0], e));
    }
  }

  lemma AlikeChecks(d: Dispatching, e: Dispatching)
    requires IsAlike(d, e)
    ensures d.trace.checks == e.trace.checks && d.raised == e.raised
  {
  }

  lemma GatedTurnRefinesToolTurn(
    w: World, v: World, cfg: Config, setting: Setting, l: Loop, calls: seq<ToolCall>, turn: nat, r: Run, ctx: Pending)
    requires l.run.inv.status == Running && r.inv.status == WaitingHuman && r.trace == l.run.trace
    requires calls != [] && ctx.calls == calls && ctx.messages == l.messages
    requires IsSamePlace(setting, ResumeSetting(cfg, ctx))
    requires AnswersAlike(w, v, |l.run.trace.dispatched|, |calls|)
    requires SkipsAlike(w, setting.budgetMs, v, cfg.budgetMs, l.run.trace.checks, |calls|)
    ensures
      var straight := ToolTurn(w, setting, l, calls, ctx.outputText, turn);
      var resumed := GatedTurn(v, cfg, r, ctx);
      && resumed.messages == straight.messages && resumed.phase == straight.phase
      && resumed.run.inv.status == straight.run.inv.status
      && CalledAlike(resumed.run.trace.dispatched, straight.run.trace.dispatched)
      && resumed.run.trace.sent == straight.run.trace.sent == l.run.trace.sent
  {
    hide DispatchAll, AnswersAll, AssistantMessage, AnswersAlike, SkipsAlike;
    var said := l.messages + [AssistantMessage(ctx.outputText, calls)];
    var there := ResumeSetting(cfg, ctx);
    var d := Begun(setting, l.run.trace, said);
    assert d == Begun(there, l.run.trace, said);
    DispatchesAlike(w, v, setting, there, TurnStyle(turn), GATED_TURN_STYLE, calls, d, d);
    DispatchAnswersAll(w, setting, TurnStyle(turn), calls, d);
    DispatchAnswersAll(v, there, GATED_TURN_STYLE, calls, d);
  }

  /** The gated turn. `w` is the world of the pause and `v` that of the approval: they may
    * differ in every clock reading, as long as no call is skipped in one and not in the other
    * (as when neither budget runs out). */
  lemma ApprovedPauseRefinesNoPause(
    w: World, v: World, cfg: Config, setting: Setting, l: Loop, reply: GatewayReply, turn: nat)
    requires reply.Response? && l.phase.Going? && l.run.inv.status == Running
    requires setting.hasService == cfg.hasExecutionService
    requires Answered(w, cfg, setting, l, reply, turn).run.inv.status == WaitingHuman
    requires AnswersAlike(w, v, |l.run.trace.dispatched|, |ValidCalls(reply.calls)|)
    requires SkipsAlike(w, setting.budgetMs, v, cfg.budgetMs, l.run.trace.checks, |ValidCalls(reply.calls)|)
    ensures
      var paused := Answered(w, cfg, setting, l, reply, turn).run;
      var straight := Answered(w, cfg.(mode := ModeNone), setting, l, reply, turn);
      && paused.inv.pending.Some?
      && var resumed := GatedTurn(v, cfg, paused, paused.inv.pending.value);
      && resumed.messages == straight.messages
      && resumed.phase == straight.phase
      && resumed.run.inv.status == straight.run.inv.status
      && CalledAlike(resumed.run.trace.dispatched, straight.run.trace.dispatched)
      && resumed.run.trace.sent == straight.run.trace.sent == l.run.trace.sent
  {
    hide ToolTurn, GatedTurn, ValidCalls, FirstGated, AnswersAlike, SkipsAlike, CalledAlike;
    var calls := ValidCalls(reply.calls);
    var collected := l.(tally := l.tally.(calls := l.tally.calls + calls));
    var paused := Answered(w, cfg, setting, l, reply, turn).run;
    ToolTurnDoesNotPause(w, setting, collected, calls, reply.outputText, turn);
    GateFindsFirstGatedCall(calls, ModeNone);
    GatedTurnRefinesToolTurn(w, v, cfg, setting, collected, calls, turn, paused, paused.inv.pending.value);
  }

  lemma ToolTurnDoesNotPause(
    w: World, setting: Setting, l: Loop, calls: seq<ToolCall>, text: ScalarText, turn: nat)
    requires l.run.inv.status == Running
    ensures ToolTurn(w, setting, l, calls, text, turn).run.inv.status != WaitingHuman
  {
    hide DispatchAll;
  }
}
