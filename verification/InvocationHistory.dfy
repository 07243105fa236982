/** What is committed over the life of an invocation: legal moves, events that agree with the
  * status, one closing event at the end, at most one pause, and no gated tool before it.
  */
module InvocationHistory {
  import opened Options
  import opened Utf8
  import opened Invocations
  import opened AgentLoop

  predicate IsClosing(event: Event) {
    event in {InvocationCompleted, InvocationFailed, InvocationTimedOut, InvocationCancelled}
  }

  function StatusOf(event: Event): Status {
    match event
    case InvocationStarted => Running
    case InvocationWaitingTool => WaitingTool
    case InvocationWaitingHuman => WaitingHuman
    case TurnCompleted(_, _, _) => Running
    case InvocationResumed => Running
    case InvocationOverridden => Running
    case InvocationCompleted => Completed
    case InvocationFailed => Failed
    case InvocationTimedOut => TimedOut
    case InvocationCancelled => Cancelled
  }

  /** The event fits the status, and a context is pending exactly during the wait for a human. */
  predicate Agrees(s: Saved) {
    && s.invocation.status == StatusOf(s.event)
    && (s.invocation.pending.Some? <==> s.invocation.status == WaitingHuman)
  }

  /** From one saved status to the next: a legal move, or two with an unsaved Running between. */
  predicate IsLinked(from: Status, to: Status) {
    IsAllowed(from, to) || (IsAllowed(from, Running) && IsAllowed(Running, to))
  }

  predicate IsLast(log: seq<Saved>, s: Saved) {
    log != [] && log[|log| - 1] == s
  }

  /** Nothing follows a closing event, so there is at most one. */
  ghost predicate IsSound(log: seq<Saved>) {
    && (forall k :: 0 <= k < |log| ==> Agrees(log[k]))
    && (forall k :: 0 <= k < |log| - 1 ==>
          !IsClosing(log[k].event) && IsLinked(log[k].invocation.status, log[k + 1].invocation.status))
  }

  function Pauses(log: seq<Saved>): nat {
    if log == [] then 0
    else Pauses(log[..|log| - 1]) + (if log[|log| - 1].event.InvocationWaitingHuman? then 1 else 0)
  }

  /** Between two moves of a loop. */
  ghost predicate IsActive(r: Run, pauses: nat) {
    && IsSound(r.log) && Pauses(r.log) == pauses
    && r.log != [] && r.log[|r.log| - 1].invocation.status in {Running, WaitingTool}
    && r.inv.status == Running && r.inv.pending.None?
  }

  ghost predicate IsOver(r: Run, pauses: nat) {
    && IsSound(r.log) && Pauses(r.log) == pauses
    && r.log != [] && IsClosing(r.log[|r.log| - 1].event)
    && r.inv == r.log[|r.log| - 1].invocation
  }

  /** Left by an exception: what was saved last does not say how the run ended. */
  ghost predicate IsStranded(r: Run, pauses: nat) {
    && IsSound(r.log) && Pauses(r.log) == pauses
    && r.log != [] && r.log[|r.log| - 1].event in {InvocationWaitingTool, InvocationOverridden}
    && r.inv == r.log[|r.log| - 1].invocation
  }

  ghost predicate HasEnded(r: Run, pauses: nat) {
    IsOver(r, pauses) || IsStranded(r, pauses)
  }

  ghost predicate IsOnHold(r: Run) {
    && IsSound(r.log) && Pauses(r.log) == 1
    && r.log != [] && r.log[|r.log| - 1].event == InvocationWaitingHuman
    && r.inv == r.log[|r.log| - 1].invocation
  }

  /** In gate mode nothing of the gated set has been dispatched. */
  ghost predicate KeepsGate(mode: ApprovalMode, dispatched: seq<Dispatch>) {
    mode == ModeGate ==> forall k :: 0 <= k < |dispatched| ==> !IsGatedTool(dispatched[k].name)
  }

  ghost predicate IsUnderway(mode: ApprovalMode, l: Loop) {
    && KeepsGate(mode, l.run.trace.dispatched)
    && match l.phase
       case Exited => IsOver(l.run, 0) || IsOnHold(l.run)
       case Raised => IsStranded(l.run, 0)
       case _ => IsActive(l.run, 0)
  }

  ghost predicate IsResuming(l: Loop) {
    match l.phase
    case Exited => IsOver(l.run, 1)
    case Raised => IsStranded(l.run, 1)
    case _ => IsActive(l.run, 1)
  }

  // One more save

  lemma SaveKeepsSound(log: seq<Saved>, s: Saved)
    requires IsSound(log) && Agrees(s)
    requires log != [] ==>
               && !IsClosing(log[|log| - 1].event)
               && IsLinked(log[|log| - 1].invocation.status, s.invocation.status)
    ensures IsSound(log + [s])
    ensures Pauses(log + [s]) == Pauses(log) + (if s.event.InvocationWaitingHuman? then 1 else 0)
  {
    hide Agrees, IsLinked, IsClosing, Pauses;
    PausesOfSave(log, s);
    var longer := log + [s];
    forall k | 0 <= k < |longer|
      ensures Agrees(longer[k])
      ensures k < |longer| - 1 ==>
                !IsClosing(longer[k].event)
                && IsLinked(longer[k].invocation.status, longer[k + 1].invocation.status)
    {
      assert longer[k] == if k < |log| then log[k] else s;
      assert k < |longer| - 1 ==> longer[k + 1] == if k + 1 < |log| then log[k + 1] else s;
    }
  }

  lemma PausesOfSave(log: seq<Saved>, s: Saved)
    ensures Pauses(log + [s]) == Pauses(log) + (if s.event.InvocationWaitingHuman? then 1 else 0)
  {
    assert (log + [s])[..|log|] == log;
  }

  lemma ActiveIsOpen(r: Run, pauses: nat, to: Status)
    requires IsActive(r, pauses) && (IsAllowed(Running, to) || to == Running)
    ensures !IsClosing(r.log[|r.log| - 1].event)
    ensures to != Running || r.log[|r.log| - 1].invocation.status == WaitingTool ==>
              IsLinked(r.log[|r.log| - 1].invocation.status, to)
  {
    assert Agrees(r.log[|r.log| - 1]);
  }

  /** Closing an active run. */
  lemma ActiveCloses(r: Run, pauses: nat, s: Saved)
    requires IsActive(r, pauses) && Agrees(s) && IsClosing(s.event)
    ensures IsOver(r.(inv := s.invocation, log := r.log + [s]), pauses)
  {
    hide Pauses, IsSound, IsLinked;
    ActiveIsOpen(r, pauses, s.invocation.status);
    SaveKeepsSound(r.log, s);
  }

  lemma ActiveWaitsForTools(r: Run, pauses: nat)
    requires IsActive(r, pauses)
    ensures
      var waiting := Save(MoveTo(r, WaitingTool), InvocationWaitingTool);
      && IsSound(waiting.log) && Pauses(waiting.log) == pauses
      && IsLast(waiting.log, Saved(InvocationWaitingTool, waiting.inv))
  {
    hide Pauses, IsSound, IsLinked;
    ActiveIsOpen(r, pauses, WaitingTool);
    SaveKeepsSound(r.log, Saved(InvocationWaitingTool, Move(r.inv, WaitingTool)));
  }

  /** From waiting for tools the run goes on, saved or not, or fails. */
  lemma ToolsDone(waiting: Run, pauses: nat, turn: nat, tools: nat, failures: nat, code: string)
    requires IsSound(waiting.log) && Pauses(waiting.log) == pauses
    requires waiting.inv.status == WaitingTool && waiting.inv.pending.None?
    requires IsLast(waiting.log, Saved(InvocationWaitingTool, waiting.inv))
    ensures IsActive(MoveTo(waiting, Running), pauses)
    ensures IsActive(Save(MoveTo(waiting, Running), TurnCompleted(turn, tools, failures)), pauses)
    ensures IsOver(Closed(waiting, Failed, InvocationFailed, code), pauses)
    ensures IsStranded(waiting, pauses)
  {
    hide Pauses, IsSound;
    var running := Move(waiting.inv, Running);
    SaveKeepsSound(waiting.log, Saved(TurnCompleted(turn, tools, failures), running));
    SaveKeepsSound(waiting.log, Saved(InvocationFailed, Move(waiting.inv, Failed).(error := Some(code))));
  }

  // A fresh invocation

  lemma {:induction false} UngatedTurnKeepsGate(
    w: World, setting: Setting, style: Style, calls: seq<ToolCall>, d: Dispatching, mode: ApprovalMode)
    requires FirstGated(calls, mode).None? && KeepsGate(mode, d.trace.dispatched)
    ensures KeepsGate(mode, DispatchAll(w, setting, style, calls, d).trace.dispatched)
  {
    hide Content, Rejection, ResultOfReply, IsGatedTool;
    if calls != [] && !d.raised {
      UngatedTurnKeepsGate(w, setting, style, calls[1..], DispatchOne(w, setting, style, calls[0], d), mode);
    }
  }

  lemma ToolTurnIsUnderway(
    w: World, mode: ApprovalMode, setting: Setting, l: Loop, calls: seq<ToolCall>, text: ScalarText, turn: nat)
    requires l.phase.Going? && IsUnderway(mode, l) && FirstGated(calls, mode).None?
    ensures IsUnderway(mode, ToolTurn(w, setting, l, calls, text, turn))
  {
    hide DispatchAll, FirstGated, KeepsGate, IsSound, Pauses, AssistantMessage, IsLast;
    var waiting := Save(MoveTo(l.run, WaitingTool), InvocationWaitingTool);
    var begun := Begun(setting, waiting.trace, l.messages + [AssistantMessage(text, calls)]);
    var d := DispatchAll(w, setting, TurnStyle(turn), calls, begun);
    ActiveWaitsForTools(l.run, 0);
    UngatedTurnKeepsGate(w, setting, TurnStyle(turn), calls, begun, mode);
    ToolsDone(waiting.(trace := d.trace), 0, turn, |calls|, d.failures, "ALL_TOOLS_FAILED");
  }

  lemma PausedIsOnHold(
    mode: ApprovalMode, l: Loop, calls: seq<ToolCall>, reply: GatewayReply, sandbox: SandboxText, gated: ToolCall)
    requires reply.Response? && l.phase.Going? && IsUnderway(mode, l)
    ensures IsUnderway(mode, Paused(l, calls, reply, sandbox, gated))
  {
    hide KeepsGate, IsSound, Pauses, PendingFor;
    ActiveIsOpen(l.run, 0, WaitingHuman);
    var inv := Move(l.run.inv, WaitingHuman).(
      pending := Some(PendingFor(calls, l.messages, reply, sandbox, gated)));
    SaveKeepsSound(l.run.log, Saved(InvocationWaitingHuman, inv));
  }

  lemma AnsweredIsUnderway(w: World, cfg: Config, setting: Setting, l: Loop, reply: GatewayReply, turn: nat)
    requires reply.Response? && l.phase.Going? && IsUnderway(cfg.mode, l)
    ensures IsUnderway(cfg.mode, Answered(w, cfg, setting, l, reply, turn))
  {
    hide DispatchAll, ToolTurn, Paused, FirstGated, ValidCalls, KeepsGate, IsSound, Pauses, Closed;
    var calls := ValidCalls(reply.calls);
    var collected := l.(tally := l.tally.(calls := l.tally.calls + calls));
    var gated := FirstGated(calls, cfg.mode);
    ActiveFails(l.run, 0, "MALFORMED_TOOL_CALLS");
    if gated.Some? {
      PausedIsOnHold(cfg.mode, collected, calls, reply, setting.sandbox, gated.value);
    } else {
      ToolTurnIsUnderway(w, cfg.mode, setting, collected, calls, reply.outputText, turn);
    }
  }

  lemma ActiveFails(r: Run, pauses: nat, code: string)
    requires IsActive(r, pauses)
    ensures IsOver(Closed(r, Failed, InvocationFailed, code), pauses)
    ensures IsOver(Closed(r, TimedOut, InvocationTimedOut, code), pauses)
    ensures Closed(r, Failed, InvocationFailed, code).trace == r.trace
    ensures Closed(r, TimedOut, InvocationTimedOut, code).trace == r.trace
  {
    hide IsSound, Pauses;
    ActiveCloses(r, pauses, Saved(InvocationFailed, Move(r.inv, Failed).(error := Some(code))));
    ActiveCloses(r, pauses, Saved(InvocationTimedOut, Move(r.inv, TimedOut).(error := Some(code))));
  }

  lemma TurnIsUnderway(w: World, cfg: Config, setting: Setting, l: Loop, turn: nat)
    requires l.phase.Going? && IsUnderway(cfg.mode, l)
    ensures IsUnderway(cfg.mode, Turn(w, cfg, setting, l, turn))
  {
    hide Answered, KeepsGate, IsSound, Pauses, Closed;
    var remainingMs := setting.budgetMs - w.elapsed(l.run.trace.checks);
    var checked := Checked(l.run);
    if remainingMs <= 0 {
      ActiveFails(checked, 0, "BUDGET_EXHAUSTED");
    } else {
      var asked := Asked(checked, l.messages, remainingMs);
      var reply := w.gateway(|l.run.trace.sent|);
      if reply.GatewayError? {
        ActiveFails(asked, 0, reply.code);
      } else {
        AnsweredIsUnderway(w, cfg, setting, l.(run := asked, tally := Counted(l.tally, reply)), reply, turn);
      }
    }
  }

  lemma {:induction false} TurnsAreUnderway(w: World, cfg: Config, setting: Setting, l: Loop, turn: nat)
    requires IsBetweenTurns(l) && IsUnderway(cfg.mode, l)
    ensures IsUnderway(cfg.mode, Turns(w, cfg, setting, l, turn))
    decreases cfg.maxToolTurns - turn
  {
    hide IsUnderway, Turn;
    if turn < cfg.maxToolTurns && l.phase.Going? {
      TurnIsUnderway(w, cfg, setting, l, turn);
      TurnsAreUnderway(w, cfg, setting, Turn(w, cfg, setting, l, turn), turn + 1);
    }
  }

  lemma CompletionIsOver(r: Run, tally: Tally, pauses: nat)
    requires IsActive(r, pauses)
    ensures IsOver(Completion(r, tally), pauses)
  {
    hide IsSound, Pauses;
    var end := Completion(r, tally);
    ActiveCloses(r, pauses, Saved(InvocationCompleted, end.inv));
  }

  lemma StartIsUnderway(mode: ApprovalMode, request: Request)
    ensures IsUnderway(mode, StartedLoop(request)) && IsBetweenTurns(StartedLoop(request))
  {
    hide InputMessages;
    var started := StartedRun(request, NO_TRACE);
    SaveKeepsSound([], Saved(InvocationStarted, started.inv));
    assert started.log == [] + [Saved(InvocationStarted, started.inv)];
  }

  lemma ExecuteSettles(w: World, cfg: Config, request: Request)
    ensures
      var r := Execute(w, cfg, request);
      && KeepsGate(cfg.mode, r.trace.dispatched)
      && if r.inv.status == WaitingHuman then IsOnHold(r) else HasEnded(r, 0)
  {
    hide Turns, IsSound, Pauses, KeepsGate, StartedLoop, ExecuteSetting;
    StartIsUnderway(cfg.mode, request);
    TurnsAreUnderway(w, cfg, ExecuteSetting(cfg, request), StartedLoop(request), 0);
    var l := ExecuteLoop(w, cfg, request);
    if !HasLeft(l.phase) {
      CompletionIsOver(l.run, l.tally, 0);
    } else {
      SoundAgrees(l.run.log);
    }
  }

  lemma SoundAgrees(log: seq<Saved>)
    requires IsSound(log) && log != []
    ensures Agrees(log[|log| - 1])
  {
  }

  // Resuming

  lemma ResumedAnsweredIsResuming(w: World, route: Route, setting: Setting, l: Loop, reply: GatewayReply)
    requires reply.Response? && l.phase.Going? && IsResuming(l)
    ensures IsResuming(ResumedAnswered(w, route, setting, l, reply))
  {
    hide DispatchAll, ValidCalls, IsSound, Pauses, AssistantMessage, IsLast, RouteStyle, Closed;
    var calls := ValidCalls(reply.calls);
    ActiveFails(l.run, 1, "MALFORMED_TOOL_CALLS");
    var waiting := Save(MoveTo(l.run, WaitingTool), InvocationWaitingTool);
    var begun := Begun(setting, waiting.trace, l.messages + [AssistantMessage(reply.outputText, calls)]);
    var d := DispatchAll(w, setting, RouteStyle(route), calls, begun);
    ActiveWaitsForTools(l.run, 1);
    ToolsDone(waiting.(trace := d.trace), 1, 0, 0, 0, "");
  }

  lemma ResumedTurnIsResuming(w: World, route: Route, setting: Setting, l: Loop)
    requires l.phase.Going? && IsResuming(l)
    ensures IsResuming(ResumedTurn(w, route, setting, l))
  {
    hide ResumedAnswered, IsSound, Pauses, Closed;
    var remainingMs := setting.budgetMs - w.elapsed(l.run.trace.checks);
    var checked := Checked(l.run);
    if remainingMs <= 0 {
      ActiveFails(checked, 1, "BUDGET_EXHAUSTED");
    } else {
      var asked := Asked(checked, l.messages, remainingMs);
      var reply := w.gateway(|l.run.trace.sent|);
      if reply.GatewayError? {
        ActiveFails(asked, 1, "GATEWAY_ERROR");
      } else {
        ResumedAnsweredIsResuming(w, route, setting, l.(run := asked, tally := Counted(l.tally, reply)), reply);
      }
    }
  }

  lemma {:induction false} ResumedTurnsAreResuming(
    w: World, cfg: Config, route: Route, setting: Setting, l: Loop, turn: nat)
    requires IsBetweenTurns(l) && IsResuming(l)
    ensures IsResuming(ResumedTurns(w, cfg, route, setting, l, turn))
    decreases cfg.maxToolTurns - turn
  {
    hide ResumedTurn, IsResuming;
    if turn < cfg.maxToolTurns - 1 && l.phase.Going? {
      ResumedTurnIsResuming(w, route, setting, l);
      ResumedTurnsAreResuming(w, cfg, route, setting, ResumedTurn(w, route, setting, l), turn + 1);
    }
  }

  lemma ResumedTurnsEnd(w: World, cfg: Config, route: Route, setting: Setting, l: Loop)
    requires IsBetweenTurns(l) && IsResuming(l)
    ensures HasEnded(Finished(ResumedTurns(w, cfg, route, setting, l, 0)), 1)
  {
    hide ResumedTurns, IsOver, IsActive, IsStranded;
    ResumedTurnsAreResuming(w, cfg, route, setting, l, 0);
    var end := ResumedTurns(w, cfg, route, setting, l, 0);
    if !HasLeft(end.phase) {
      CompletionIsOver(end.run, end.tally, 1);
    }
  }

  lemma ReopenedIsActive(r: Run, event: Event)
    requires IsOnHold(r) && r.inv.status == WaitingHuman && event in {InvocationResumed, InvocationOverridden}
    ensures
      var next := Reopened(r, event);
      && IsSound(next.log) && Pauses(next.log) == 1
      && next.inv.status == Running && next.inv.pending.None? && IsLast(next.log, Saved(event, next.inv))
  {
    hide Pauses, IsSound;
    SaveKeepsSound(r.log, Saved(event, Move(r.inv, Running).(pending := None)));
  }

  lemma GatedTurnIsResuming(w: World, cfg: Config, r: Run, ctx: Pending)
    requires IsOnHold(r) && r.inv.status == WaitingHuman
    ensures IsResuming(GatedTurn(w, cfg, r, ctx))
  {
    hide DispatchAll, IsSound, Pauses, AssistantMessage, ResumeSetting, Reopened;
    var next := Reopened(r, InvocationResumed);
    ReopenedIsActive(r, InvocationResumed);
    var waiting := Save(MoveTo(next, WaitingTool), InvocationWaitingTool);
    SaveKeepsSound(next.log, Saved(InvocationWaitingTool, waiting.inv));
    var setting := ResumeSetting(cfg, ctx);
    var begun := Begun(setting, waiting.trace, ctx.messages + [AssistantMessage(ctx.outputText, ctx.calls)]);
    var d := DispatchAll(w, setting, GATED_TURN_STYLE, ctx.calls, begun);
    ToolsDone(waiting.(trace := d.trace), 1, 0, 0, 0, "ALL_TOOLS_FAILED");
  }

  lemma OverriddenTurnIsResuming(r: Run, ctx: Pending, output: Text)
    requires IsOnHold(r) && r.inv.status == WaitingHuman
    ensures IsResuming(OverriddenTurn(r, ctx, output))
  {
    hide IsSound, Pauses, AssistantMessage, SyntheticResults, IsEncodable, Reopened;
    ReopenedIsActive(r, InvocationOverridden);
  }

  /** A decision that changes anything; an override needs an output. */
  predicate Acts(decision: HumanDecision) {
    decision.Approved? || decision.Rejected? || decision.Cancel? || (decision.Override? && decision.output != [])
  }

  /** A decision on a waiting invocation ends it, without another pause, or changes nothing. */
  lemma ResumeEnds(w: World, cfg: Config, r: Run, decision: HumanDecision)
    requires IsOnHold(r)
    ensures
      var next := Resume(w, cfg, r, decision);
      if Acts(decision) then HasEnded(next, 1) else next == r
  {
    hide ResumedTurns, GatedTurn, OverriddenTurn, Finished, IsSound, Pauses, IsOver, IsStranded;
    SoundAgrees(r.log);
    var ctx := r.inv.pending.value;
    var setting := ResumeSetting(cfg, ctx);
    match decision
    case Approved =>
      GatedTurnIsResuming(w, cfg, r, ctx);
      ResumedTurnsEnd(w, cfg, AfterApproval, setting, GatedTurn(w, cfg, r, ctx));
    case Override(output) =>
      OverriddenTurnIsResuming(r, ctx, output);
      ResumedTurnsEnd(w, cfg, AfterOverride, setting, OverriddenTurn(r, ctx, output));
    case Rejected =>
      HoldCloses(r, Saved(InvocationFailed, Move(r.inv, Failed).(error := Some("TOOL_REJECTED"), pending := None)));
    case Cancel =>
      HoldCloses(
        r, Saved(InvocationCancelled, Move(r.inv, Cancelled).(error := Some("TOOL_CANCELLED"), pending := None)));
    case Unknown =>
  }

  lemma HoldCloses(r: Run, s: Saved)
    requires IsOnHold(r) && IsClosing(s.event) && IsAllowed(WaitingHuman, s.invocation.status)
    requires Agrees(s)
    ensures IsOver(r.(inv := s.invocation, log := r.log + [s]), 1)
  {
    hide IsSound, Pauses;
    SoundAgrees(r.log);
    SaveKeepsSound(r.log, s);
  }

  lemma ResumeKeepsEnded(w: World, cfg: Config, r: Run, pauses: nat, decision: HumanDecision)
    requires HasEnded(r, pauses)
    ensures Resume(w, cfg, r, decision) == r
  {
    hide ResumedTurns, GatedTurn, OverriddenTurn, Finished, IsSound, Pauses;
    SoundAgrees(r.log);
  }

  /** After any life: the execution as it was left, or its pause ended by one decision. */
  lemma {:induction false} LifeSettles(w: World, cfg: Config, request: Request, decisions: seq<HumanDecision>)
    ensures
      var begun := Execute(w, cfg, request);
      var r := Life(w, cfg, request, decisions);
      r == begun || (IsOnHold(begun) && HasEnded(r, 1))
    decreases |decisions|
  {
    hide Execute, Resume, IsOnHold, HasEnded;
    if decisions != [] {
      var n := |decisions| - 1;
      var before := Life(w, cfg, request, decisions[..n]);
      LifeSettles(w, cfg, request, decisions[..n]);
      ExecuteSettles(w, cfg, request);
      if IsOnHold(before) {
        ResumeEnds(w, cfg, before, decisions[n]);
      } else {
        ResumeKeepsEnded(w, cfg, before, if before == Execute(w, cfg, request) then 0 else 1, decisions[n]);
      }
    }
  }

  /** The lifecycle, over whole lives and every world. */
  lemma LifecycleIsSound(w: World, cfg: Config, request: Request, decisions: seq<HumanDecision>, r: Run)
    requires r == Life(w, cfg, request, decisions)
    ensures r.log != [] && IsSound(r.log) && r.inv == r.log[|r.log| - 1].invocation
    ensures IsClosing(r.log[|r.log| - 1].event) || r.inv.status == WaitingHuman || IsStranded(r, Pauses(r.log))
    ensures Pauses(r.log) <= 1
  {
    hide Life, Execute, IsSound, Pauses, IsClosing;
    LifeSettles(w, cfg, request, decisions);
    ExecuteSettles(w, cfg, request);
    if IsOnHold(Execute(w, cfg, request)) {
      SoundAgrees(Execute(w, cfg, request).log);
    }
  }

  /** Before a human has decided, gate mode lets nothing of the gated set through. */
  lemma GatedToolsWaitForAHuman(w: World, cfg: Config, request: Request, k: nat)
    requires cfg.mode == ModeGate && k < |Execute(w, cfg, request).trace.dispatched|
    ensures Execute(w, cfg, request).trace.dispatched[k].name !in ["shell.exec", "python.run_script"]
  {
    hide Execute, IsOnHold, HasEnded;
    ExecuteSettles(w, cfg, request);
  }
}
