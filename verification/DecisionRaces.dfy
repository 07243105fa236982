/** Decisions on one invocation that overlap. A decision loads the invocation without a lock and
  * saves it several times, with slow calls in between; its saves depend only on what it loaded
  * and on the answers it gets. Loads and single saves of any decisions interleave freely, and a
  * decision can be abandoned, as by a crash, between any two of its saves.
  */
module DecisionRaces {
  import opened Options
  import opened Utf8
  import opened Invocations
  import opened AgentLoop
  import opened InvocationHistory

  // What a run adds to another

  /** The two kinds of events of which an invocation should see at most one. */
  datatype Kind = Opening | Closing

  /** An opening event ends the pause and lets the gated calls go ahead. */
  predicate IsOf(kind: Kind, event: Event) {
    match kind
    case Opening => event == InvocationResumed || event == InvocationOverridden
    case Closing => IsClosing(event)
  }

  /** Nothing saved or dispatched is taken back, and nothing saved in addition opens. */
  predicate Extends(r: Run, next: Run) {
    && r.log <= next.log
    && (forall k :: |r.log| <= k < |next.log| ==> !IsOf(Opening, next.log[k].event))
    && r.trace.dispatched <= next.trace.dispatched
  }

  lemma ExtendsOn(r: Run, s: Run, t: Run)
    requires Extends(r, s) && Extends(s, t)
    ensures Extends(r, t)
  {
  }

  lemma {:induction false} DispatchOnlyAdds(
    w: World, setting: Setting, style: Style, calls: seq<ToolCall>, d: Dispatching)
    ensures d.trace.dispatched <= DispatchAll(w, setting, style, calls, d).trace.dispatched
  {
    hide Rejection, InputOf, Content, ResultOfReply;
    if calls != [] && !d.raised {
      DispatchOnlyAdds(w, setting, style, calls[1..], DispatchOne(w, setting, style, calls[0], d));
    }
  }

  lemma FinishedExtends(l: Loop)
    requires IsBetweenTurns(l)
    ensures Extends(l.run, Finished(l))
  {
  }

  // A fresh invocation

  lemma TurnExtends(w: World, cfg: Config, setting: Setting, l: Loop, turn: nat)
    requires l.phase.Going? && l.run.inv.status == Running
    ensures Extends(l.run, Turn(w, cfg, setting, l, turn).run)
  {
    hide Answered;
    var remainingMs := setting.budgetMs - w.elapsed(l.run.trace.checks);
    var reply := w.gateway(|l.run.trace.sent|);
    if remainingMs > 0 && reply.Response? {
      var asked := l.(run := Asked(Checked(l.run), l.messages, remainingMs), tally := Counted(l.tally, reply));
      AnsweredExtends(w, cfg, setting, asked, reply, turn);
    }
  }

  lemma AnsweredExtends(w: World, cfg: Config, setting: Setting, l: Loop, reply: GatewayReply, turn: nat)
    requires reply.Response? && l.run.inv.status == Running
    ensures Extends(l.run, Answered(w, cfg, setting, l, reply, turn).run)
  {
    hide DispatchAll, AssistantMessage, ValidCalls, FirstGated;
    var calls := ValidCalls(reply.calls);
    var waiting := Save(MoveTo(l.run, WaitingTool), InvocationWaitingTool);
    var said := l.messages + [AssistantMessage(reply.outputText, calls)];
    DispatchOnlyAdds(w, setting, TurnStyle(turn), calls, Begun(setting, waiting.trace, said));
  }

  lemma {:induction false} TurnsExtend(w: World, cfg: Config, setting: Setting, l: Loop, turn: nat)
    requires IsBetweenTurns(l)
    ensures Extends(l.run, Turns(w, cfg, setting, l, turn).run)
    decreases cfg.maxToolTurns - turn
  {
    hide Turn;
    if turn < cfg.maxToolTurns && l.phase.Going? {
      var next := Turn(w, cfg, setting, l, turn);
      TurnExtends(w, cfg, setting, l, turn);
      TurnsExtend(w, cfg, setting, next, turn + 1);
      ExtendsOn(l.run, next.run, Turns(w, cfg, setting, next, turn + 1).run);
    }
  }

  // Decisions

  lemma {:induction false} ResumedTurnsExtend(
    w: World, cfg: Config, route: Route, setting: Setting, l: Loop, turn: nat)
    requires IsBetweenTurns(l)
    ensures Extends(l.run, Finished(ResumedTurns(w, cfg, route, setting, l, turn)))
    decreases cfg.maxToolTurns - turn
  {
    hide ResumedTurn, Finished;
    if turn < cfg.maxToolTurns - 1 && l.phase.Going? {
      var next := ResumedTurn(w, route, setting, l);
      ResumedTurnExtends(w, route, setting, l);
      ResumedTurnsExtend(w, cfg, route, setting, next, turn + 1);
      ExtendsOn(l.run, next.run, Finished(ResumedTurns(w, cfg, route, setting, next, turn + 1)));
    } else {
      FinishedExtends(l);
    }
  }

  lemma ResumedTurnExtends(w: World, route: Route, setting: Setting, l: Loop)
    requires l.phase.Going? && l.run.inv.status == Running
    ensures Extends(l.run, ResumedTurn(w, route, setting, l).run)
  {
    hide ResumedAnswered;
    var remainingMs := setting.budgetMs - w.elapsed(l.run.trace.checks);
    var reply := w.gateway(|l.run.trace.sent|);
    if remainingMs > 0 && reply.Response? {
      var asked := l.(run := Asked(Checked(l.run), l.messages, remainingMs), tally := Counted(l.tally, reply));
      ResumedAnsweredExtends(w, route, setting, asked, reply);
    }
  }

  lemma ResumedAnsweredExtends(w: World, route: Route, setting: Setting, l: Loop, reply: GatewayReply)
    requires reply.Response? && l.run.inv.status == Running
    ensures Extends(l.run, ResumedAnswered(w, route, setting, l, reply).run)
  {
    hide DispatchAll, AssistantMessage, ValidCalls, RouteStyle;
    var calls := ValidCalls(reply.calls);
    var waiting := Save(MoveTo(l.run, WaitingTool), InvocationWaitingTool);
    var said := l.messages + [AssistantMessage(reply.outputText, calls)];
    DispatchOnlyAdds(w, setting, RouteStyle(route), calls, Begun(setting, waiting.trace, said));
  }

  /** The run of an approval when it has saved that it waits for the gated tools. */
  function ApprovedWaiting(r: Run): Run
    requires r.inv.status == WaitingHuman
  {
    Save(MoveTo(Reopened(r, InvocationResumed), WaitingTool), InvocationWaitingTool)
  }

  lemma GatedTurnExtends(w: World, cfg: Config, r: Run, ctx: Pending)
    requires r.inv.status == WaitingHuman
    ensures Extends(ApprovedWaiting(r), GatedTurn(w, cfg, r, ctx).run)
  {
    hide DispatchAll, AssistantMessage;
    var setting := ResumeSetting(cfg, ctx);
    var said := ctx.messages + [AssistantMessage(ctx.outputText, ctx.calls)];
    DispatchOnlyAdds(w, setting, GATED_TURN_STYLE, ctx.calls, Begun(setting, ApprovedWaiting(r).trace, said));
  }

  /** What is saved first when an acting decision goes ahead. */
  function FirstEvent(decision: HumanDecision): Event {
    match decision
    case Approved => InvocationResumed
    case Override(_) => InvocationOverridden
    case Cancel => InvocationCancelled
    case _ => InvocationFailed
  }

  /** A decision that acts adds saves, of which only the first can open; an approval saves that
    * it waits for the gated tools. */
  lemma ResumeExtends(w: World, cfg: Config, r: Run, decision: HumanDecision)
    requires IsOnHold(r) && Acts(decision)
    ensures
      var next, n := Resume(w, cfg, r, decision), |r.log|;
      && r.log < next.log && next.log[n].event == FirstEvent(decision)
      && (forall k :: n < k < |next.log| ==> !IsOf(Opening, next.log[k].event))
      && (decision.Approved? ==> n + 1 < |next.log| && next.log[n + 1].event == InvocationWaitingTool)
  {
    hide ResumedTurns, GatedTurn, Finished, IsSound, Pauses, SyntheticResults, IsEncodable;
    SoundAgrees(r.log);
    var ctx := r.inv.pending.value;
    var setting := ResumeSetting(cfg, ctx);
    if decision.Approved? {
      var begun := GatedTurn(w, cfg, r, ctx);
      GatedTurnExtends(w, cfg, r, ctx);
      ResumedTurnsExtend(w, cfg, AfterApproval, setting, begun, 0);
      ExtendsOn(ApprovedWaiting(r), begun.run, Resume(w, cfg, r, decision));
    } else if decision.Override? {
      ResumedTurnsExtend(w, cfg, AfterOverride, setting, OverriddenTurn(r, ctx, decision.output), 0);
    }
  }

  // Counting events

  function Count(kind: Kind, log: seq<Saved>): nat {
    if log == [] then 0 else (if IsOf(kind, log[0].event) then 1 else 0) + Count(kind, log[1..])
  }

  lemma {:induction false} CountOfConcat(kind: Kind, log: seq<Saved>, more: seq<Saved>)
    ensures Count(kind, log + more) == Count(kind, log) + Count(kind, more)
  {
    hide IsOf;
    if log == [] {
      assert log + more == more;
    } else {
      assert (log + more)[1..] == log[1..] + more;
      CountOfConcat(kind, log[1..], more);
    }
  }

  lemma {:induction false} CountOfNone(kind: Kind, log: seq<Saved>)
    requires forall k :: 0 <= k < |log| ==> !IsOf(kind, log[k].event)
    ensures Count(kind, log) == 0
  {
    hide IsOf;
    if log != [] {
      CountOfNone(kind, log[1..]);
    }
  }

  lemma CountOfOne(kind: Kind, s: Saved)
    ensures Count(kind, [s]) == if IsOf(kind, s.event) then 1 else 0
  {
    assert [s][1..] == [];
  }

  /** A sound log has at most one closing event, and then it is the last. */
  lemma SoundLogCloses(log: seq<Saved>)
    requires IsSound(log)
    ensures Count(Closing, log) == if log != [] && IsClosing(log[|log| - 1].event) then 1 else 0
  {
    if log != [] {
      var n := |log| - 1;
      CountOfNone(Closing, log[..n]);
      CountOfConcat(Closing, log[..n], [log[n]]);
      CountOfOne(Closing, log[n]);
      assert log == log[..n] + [log[n]];
    }
  }

  // Overlapping decisions

  type CallId = nat

  /** The log of the invocation, and for each decision under way the saves it has still to make. */
  datatype Race = Race(log: seq<Saved>, calls: map<CallId, seq<Saved>>)

  datatype Action =
    | Load(call: CallId, w: World, decision: HumanDecision)
    | SaveNext(call: CallId)
    | Abandon(call: CallId)

  /** What a decision does when it loads the invocation from this log. */
  function Deciding(cfg: Config, log: seq<Saved>, w: World, decision: HumanDecision): Run {
    Resume(w, cfg, Run(NEW_INVOCATION, log, NO_TRACE), decision)
  }

  /** The saves that it makes. */
  function Plan(cfg: Config, log: seq<Saved>, w: World, decision: HumanDecision): seq<Saved> {
    var after := Deciding(cfg, log, w, decision).log;
    if |log| <= |after| then after[|log|..] else []
  }

  function Next(cfg: Config, s: Race, a: Action): Race {
    match a
    case Load(call, w, decision) =>
      var plan := Plan(cfg, s.log, w, decision);
      if call in s.calls || plan == [] then s else s.(calls := s.calls[call := plan])
    case SaveNext(call) =>
      if call !in s.calls || s.calls[call] == [] then s
      else
        var plan := s.calls[call];
        Race(s.log + [plan[0]], if |plan| == 1 then s.calls - {call} else s.calls[call := plan[1..]])
    case Abandon(call) => s.(calls := s.calls - {call})
  }

  function RunRace(cfg: Config, log: seq<Saved>, actions: seq<Action>): Race {
    if actions == [] then Race(log, map[])
    else Next(cfg, RunRace(cfg, log, actions[..|actions| - 1]), actions[|actions| - 1])
  }

  /** A plan never pauses again, and opens and closes at most once. */
  ghost predicate IsPlan(plan: seq<Saved>) {
    && plan != []
    && (forall k :: 0 <= k < |plan| ==> plan[k].invocation.status != WaitingHuman)
    && (forall kind :: Count(kind, plan) <= 1)
  }

  lemma {:induction false} PausesSplit(log: seq<Saved>, n: nat, k: nat)
    requires n <= k < |log| && Pauses(log) == Pauses(log[..n])
    ensures !log[k].event.InvocationWaitingHuman?
    decreases |log|
  {
    var m := |log| - 1;
    PausesGrow(log[..m], n);
    assert log[..m][..n] == log[..n];
    if k < m {
      PausesSplit(log[..m], n, k);
    }
  }

  lemma {:induction false} PausesGrow(log: seq<Saved>, n: nat)
    requires n <= |log|
    ensures Pauses(log[..n]) <= Pauses(log)
  {
    if n < |log| {
      PausesGrow(log[..|log| - 1], n);
      assert log[..|log| - 1][..n] == log[..n];
    } else {
      assert log[..n] == log;
    }
  }

  /** The log of an invocation that waits for a human. */
  ghost predicate IsHeld(log: seq<Saved>) {
    log != [] && IsOnHold(Run(log[|log| - 1].invocation, log, NO_TRACE))
  }

  lemma SoundAt(log: seq<Saved>, k: nat)
    requires IsSound(log) && k < |log|
    ensures log[k].event.InvocationWaitingHuman? <==> log[k].invocation.status == WaitingHuman
  {
    hide IsClosing, IsLinked;
    assert Agrees(log[k]);
  }

  lemma ExtensionDoesNotPause(log: seq<Saved>, more: seq<Saved>, k: nat)
    requires IsSound(log + more) && Pauses(log + more) == Pauses(log) && k < |more|
    ensures more[k].invocation.status != WaitingHuman
  {
    hide IsSound, Pauses;
    assert (log + more)[..|log|] == log;
    PausesSplit(log + more, |log|, |log| + k);
    SoundAt(log + more, |log| + k);
  }

  lemma ExtensionOpensOnce(more: seq<Saved>)
    requires more != [] && forall k :: 0 < k < |more| ==> !IsOf(Opening, more[k].event)
    ensures Count(Opening, more) <= 1
  {
    CountOfNone(Opening, more[1..]);
  }

  lemma ExtensionIsPlan(log: seq<Saved>, more: seq<Saved>)
    requires IsSound(log + more) && more != [] && Pauses(log + more) == Pauses(log)
    requires forall k :: 0 < k < |more| ==> !IsOf(Opening, more[k].event)
    ensures IsPlan(more)
  {
    hide IsClosing, IsSound, Pauses, Count, IsOf;
    forall k | 0 <= k < |more| ensures more[k].invocation.status != WaitingHuman {
      ExtensionDoesNotPause(log, more, k);
    }
    SoundLogCloses(log + more);
    CountOfConcat(Closing, log, more);
    ExtensionOpensOnce(more);
    forall kind ensures Count(kind, more) <= 1 {
      assert kind == Opening || kind == Closing;
    }
  }

  /** A decision has a plan exactly when it finds the invocation waiting, and acts. */
  lemma PlanOfHeld(cfg: Config, held: seq<Saved>, w: World, decision: HumanDecision)
    requires IsHeld(held)
    ensures
      var plan := Plan(cfg, held, w, decision);
      if Acts(decision) then
        && IsPlan(plan) && plan[0].event == FirstEvent(decision) && IsSound(held + plan)
        && (decision.Approved? ==> |plan| > 1 && plan[1].event == InvocationWaitingTool)
      else plan == []
  {
    hide Resume, Acts, IsClosing, IsLinked, IsOf, Count;
    var r := Run(held[|held| - 1].invocation, held, NO_TRACE);
    var next := Resume(w, cfg, r, decision);
    ResumeEnds(w, cfg, r, decision);
    LoadedRun(cfg, held, w, decision);
    if Acts(decision) {
      ResumeExtends(w, cfg, r, decision);
      assert held + next.log[|held|..] == next.log;
      ExtensionIsPlan(held, next.log[|held|..]);
    }
  }

  lemma NoPlanUnlessWaiting(cfg: Config, log: seq<Saved>, w: World, decision: HumanDecision)
    requires log != [] && log[|log| - 1].invocation.status != WaitingHuman
    ensures Plan(cfg, log, w, decision) == []
  {
    hide ResumedTurns, GatedTurn, OverriddenTurn, Finished;
  }

  /** The entity before a load does not matter. */
  lemma LoadedRun(cfg: Config, log: seq<Saved>, w: World, decision: HumanDecision)
    requires log != []
    ensures Deciding(cfg, log, w, decision)
         == Resume(w, cfg, Run(log[|log| - 1].invocation, log, NO_TRACE), decision)
  {
    hide ResumedTurns, GatedTurn, OverriddenTurn, Finished;
  }

  // Counting what decisions do

  ghost predicate IsRacing(held: seq<Saved>, s: Race) {
    && (s.log == held || (s.log != [] && s.log[|s.log| - 1].invocation.status != WaitingHuman))
    && forall c :: c in s.calls ==> IsPlan(s.calls[c])
  }

  /** The decisions under way that have still to save an event of this kind. */
  function Owing(kind: Kind, s: Race): set<CallId> {
    set c | c in s.calls && Count(kind, s.calls[c]) > 0
  }

  /** This action loads the pause for a decision whose run saves an event of this kind. */
  predicate IsLoadOf(kind: Kind, cfg: Config, s: Race, a: Action) {
    a.Load? && a.call !in s.calls && Count(kind, Plan(cfg, s.log, a.w, a.decision)) > 0
  }

  /** This action abandons a decision that has still to save one. */
  predicate IsLossOf(kind: Kind, s: Race, a: Action) {
    a.Abandon? && a.call in Owing(kind, s)
  }

  function Loads(kind: Kind, cfg: Config, held: seq<Saved>, actions: seq<Action>): nat {
    if actions == [] then 0
    else
      var before := actions[..|actions| - 1];
      Loads(kind, cfg, held, before)
      + (if IsLoadOf(kind, cfg, RunRace(cfg, held, before), actions[|actions| - 1]) then 1 else 0)
  }

  function Losses(kind: Kind, cfg: Config, held: seq<Saved>, actions: seq<Action>): nat {
    if actions == [] then 0
    else
      var before := actions[..|actions| - 1];
      Losses(kind, cfg, held, before)
      + (if IsLossOf(kind, RunRace(cfg, held, before), actions[|actions| - 1]) then 1 else 0)
  }

  lemma OwingWithCall(kind: Kind, s: Race, call: CallId, plan: seq<Saved>)
    requires call !in s.calls
    ensures |Owing(kind, s.(calls := s.calls[call := plan]))|
         == |Owing(kind, s)| + (if Count(kind, plan) > 0 then 1 else 0)
  {
    hide Count;
    var next := s.(calls := s.calls[call := plan]);
    assert Owing(kind, next) == Owing(kind, s) + if Count(kind, plan) > 0 then {call} else {};
  }

  lemma OwingWithoutCall(kind: Kind, s: Race, call: CallId, log: seq<Saved>)
    ensures |Owing(kind, Race(log, s.calls - {call}))|
         == |Owing(kind, s)| - (if call in Owing(kind, s) then 1 else 0)
  {
    hide Count;
    assert Owing(kind, Race(log, s.calls - {call})) == Owing(kind, s) - {call};
  }

  lemma LoadedPlanIsPlan(cfg: Config, held: seq<Saved>, s: Race, w: World, decision: HumanDecision)
    requires IsHeld(held) && IsRacing(held, s)
    ensures Plan(cfg, s.log, w, decision) == [] || IsPlan(Plan(cfg, s.log, w, decision))
  {
    hide Plan, IsHeld, Acts, IsSound, IsPlan, FirstEvent;
    if s.log == held {
      PlanOfHeld(cfg, held, w, decision);
    } else {
      NoPlanUnlessWaiting(cfg, s.log, w, decision);
    }
  }

  lemma LoadCounts(kind: Kind, cfg: Config, held: seq<Saved>, s: Race, a: Action)
    requires IsHeld(held) && IsRacing(held, s) && a.Load?
    ensures
      var next := Next(cfg, s, a);
      && IsRacing(held, next) && next.log == s.log
      && |Owing(kind, next)| == |Owing(kind, s)| + (if IsLoadOf(kind, cfg, s, a) then 1 else 0)
  {
    hide Plan, IsHeld, IsPlan, Owing;
    LoadedPlanIsPlan(cfg, held, s, a.w, a.decision);
    if a.call !in s.calls {
      OwingWithCall(kind, s, a.call, Plan(cfg, s.log, a.w, a.decision));
    }
  }

  lemma PlansArePlans(held: seq<Saved>, s: Race, call: CallId)
    requires IsRacing(held, s) && call in s.calls
    ensures IsPlan(s.calls[call])
  {
  }

  lemma RestOfPlan(kind: Kind, plan: seq<Saved>)
    requires IsPlan(plan)
    ensures Count(kind, plan) == (if IsOf(kind, plan[0].event) then 1 else 0) + Count(kind, plan[1..])
    ensures |plan| > 1 ==> IsPlan(plan[1..])
    ensures Count(kind, plan) <= 1
  {
    hide IsOf;
    if |plan| > 1 {
      forall k: Kind ensures Count(k, plan[1..]) <= 1 {
        assert Count(k, plan[1..]) <= Count(k, plan);
      }
    }
  }

  lemma SaveKeepsRacing(cfg: Config, held: seq<Saved>, s: Race, a: Action)
    requires IsRacing(held, s) && !a.Load?
    ensures IsRacing(held, Next(cfg, s, a))
  {
    hide Plan, Count, IsPlan;
    if a.SaveNext? && a.call in s.calls {
      PlansArePlans(held, s, a.call);
      RestOfPlan(Closing, s.calls[a.call]);
      PlanDoesNotPause(s.calls[a.call]);
    }
  }

  lemma PlanDoesNotPause(plan: seq<Saved>)
    requires IsPlan(plan)
    ensures plan != [] && plan[0].invocation.status != WaitingHuman
  {
  }

  lemma SaveCounts(kind: Kind, cfg: Config, held: seq<Saved>, s: Race, a: Action)
    requires IsRacing(held, s) && a.SaveNext?
    ensures
      var next := Next(cfg, s, a);
      Count(kind, next.log) + |Owing(kind, next)| == Count(kind, s.log) + |Owing(kind, s)|
  {
    hide Plan, IsOf, IsRacing, Owing, Count, IsPlan;
    if a.call in s.calls {
      var plan := s.calls[a.call];
      PlansArePlans(held, s, a.call);
      PlanDoesNotPause(plan);
      RestOfPlan(kind, plan);
      CountOfConcat(kind, s.log, [plan[0]]);
      CountOfOne(kind, plan[0]);
      var without := Race(s.log + [plan[0]], s.calls - {a.call});
      OwingWithoutCall(kind, s, a.call, without.log);
      IsOwing(kind, s, a.call);
      if |plan| == 1 {
        CountOfNone(kind, plan[1..]);
      } else {
        OwingWithCall(kind, without, a.call, plan[1..]);
        assert without.calls[a.call := plan[1..]] == s.calls[a.call := plan[1..]];
      }
    }
  }

  lemma IsOwing(kind: Kind, s: Race, call: CallId)
    requires call in s.calls
    ensures call in Owing(kind, s) <==> Count(kind, s.calls[call]) > 0
  {
  }

  lemma AbandonCounts(kind: Kind, cfg: Config, s: Race, a: Action)
    requires a.Abandon?
    ensures
      var next := Next(cfg, s, a);
      && next.log == s.log
      && |Owing(kind, next)| + (if IsLossOf(kind, s, a) then 1 else 0) == |Owing(kind, s)|
  {
    hide Owing;
    OwingWithoutCall(kind, s, a.call, s.log);
  }

  /** However decisions on a pause overlap and crash, for both kinds: the events written, those
    * still to come and those that crashes have prevented are as many as the decisions that loaded
    * the pause and were to write one. */
  lemma {:induction false} EventsCountLoads(kind: Kind, cfg: Config, held: seq<Saved>, actions: seq<Action>, s: Race)
    requires IsHeld(held) && s == RunRace(cfg, held, actions)
    ensures IsRacing(held, s)
    ensures Count(kind, s.log) + |Owing(kind, s)| + Losses(kind, cfg, held, actions)
         == Count(kind, held) + Loads(kind, cfg, held, actions)
    decreases |actions|
  {
    hide Next, IsLoadOf, IsLossOf, Count, IsPlan;
    if actions == [] {
      assert Owing(kind, s) == {};
    } else {
      var n := |actions| - 1;
      var before, a := RunRace(cfg, held, actions[..n]), actions[n];
      EventsCountLoads(kind, cfg, held, actions[..n], before);
      OneKindOfStep(kind, cfg, before, a);
      if a.Load? {
        LoadCounts(kind, cfg, held, before, a);
      } else {
        SaveKeepsRacing(cfg, held, before, a);
        if a.SaveNext? {
          SaveCounts(kind, cfg, held, before, a);
        } else {
          AbandonCounts(kind, cfg, before, a);
        }
      }
    }
  }

  lemma OneKindOfStep(kind: Kind, cfg: Config, s: Race, a: Action)
    ensures IsLoadOf(kind, cfg, s, a) ==> a.Load?
    ensures IsLossOf(kind, s, a) ==> a.Abandon?
  {
  }

  // Decisions one after the other

  /** No decision loads the invocation while another is under way; a crash ends one. */
  predicate IsSerial(cfg: Config, held: seq<Saved>, actions: seq<Action>) {
    actions == []
    || (&& IsSerial(cfg, held, actions[..|actions| - 1])
        && (actions[|actions| - 1].Load? ==> RunRace(cfg, held, actions[..|actions| - 1]).calls == map[]))
  }

  /** What has been saved, with what is still to come, is as the lifecycle promises. */
  ghost predicate IsOneLife(held: seq<Saved>, log: seq<Saved>) {
    IsSound(log) && Count(Opening, log) <= Count(Opening, held) + 1
  }

  /** At most one decision is under way. */
  ghost predicate IsSerialState(held: seq<Saved>, s: Race) {
    (s.calls == map[] && IsOneLife(held, s.log))
    || (exists c :: c in s.calls && s.calls == map[c := s.calls[c]] && IsOneLife(held, s.log + s.calls[c]))
  }

  lemma OneLifePrefix(held: seq<Saved>, log: seq<Saved>, more: seq<Saved>)
    requires IsOneLife(held, log + more)
    ensures IsOneLife(held, log)
  {
    hide Agrees, IsClosing, IsLinked, Count;
    CountOfConcat(Opening, log, more);
    assert forall k :: 0 <= k < |log| ==> log[k] == (log + more)[k];
  }

  lemma LoadIsSerial(cfg: Config, held: seq<Saved>, s: Race, a: Action)
    requires IsHeld(held) && IsRacing(held, s) && IsSerialState(held, s)
    requires a.Load? && s.calls == map[]
    ensures IsSerialState(held, Next(cfg, s, a))
  {
    hide Plan, IsOnHold, IsOf, Acts, IsSound, IsHeld, FirstEvent, Count;
    var next := Next(cfg, s, a);
    if next != s {
      var plan := Plan(cfg, s.log, a.w, a.decision);
      assert next.calls == map[a.call := plan];
      if s.log == held {
        PlanOfHeld(cfg, held, a.w, a.decision);
        CountOfConcat(Opening, held, plan);
        assert next.calls[a.call] == plan;
      } else {
        NoPlanUnlessWaiting(cfg, s.log, a.w, a.decision);
      }
    }
  }

  lemma LaterStepIsSerial(cfg: Config, held: seq<Saved>, s: Race, a: Action)
    requires IsSerialState(held, s) && !a.Load?
    ensures IsSerialState(held, Next(cfg, s, a))
  {
    hide Plan, IsOneLife;
    var next := Next(cfg, s, a);
    if a.call in s.calls {
      var c :| c in s.calls && s.calls == map[c := s.calls[c]] && IsOneLife(held, s.log + s.calls[c]);
      var plan := s.calls[c];
      assert a.call == c;
      if a.Abandon? {
        assert next.calls == map[];
        OneLifePrefix(held, s.log, plan);
      } else if |plan| == 1 {
        assert next.calls == map[] && next.log == s.log + plan;
      } else if |plan| > 1 {
        assert next.calls == map[c := plan[1..]];
        assert next.log + plan[1..] == s.log + plan;
      }
    } else {
      assert next.calls == s.calls;
    }
  }

  lemma {:induction false} SerialRace(cfg: Config, held: seq<Saved>, actions: seq<Action>, s: Race)
    requires IsHeld(held) && IsSerial(cfg, held, actions) && s == RunRace(cfg, held, actions)
    ensures IsSerialState(held, s)
    decreases |actions|
  {
    hide Next, Count, IsSound, IsHeld, IsRacing;
    if actions == [] {
      HeldIsSound(held);
    } else {
      var n := |actions| - 1;
      var before := RunRace(cfg, held, actions[..n]);
      SerialRace(cfg, held, actions[..n], before);
      EventsCountLoads(Closing, cfg, held, actions[..n], before);
      if actions[n].Load? {
        LoadIsSerial(cfg, held, before, actions[n]);
      } else {
        LaterStepIsSerial(cfg, held, before, actions[n]);
      }
    }
  }

  lemma HeldIsSound(held: seq<Saved>)
    requires IsHeld(held)
    ensures IsSound(held)
  {
  }

  /** When decisions do not overlap, the log stays as the lifecycle promises, and the invocation
    * is opened at most once more and closed at most once, whatever crashes. */
  lemma SerialDecisionsActOnce(cfg: Config, held: seq<Saved>, actions: seq<Action>, s: Race)
    requires IsHeld(held) && IsSerial(cfg, held, actions) && s == RunRace(cfg, held, actions)
    ensures IsSound(s.log) && Count(Closing, s.log) <= 1
    ensures Count(Opening, s.log) <= Count(Opening, held) + 1
  {
    hide RunRace, IsSerial, Count, IsSound, IsHeld;
    SerialRace(cfg, held, actions, s);
    if s.calls != map[] {
      var c :| c in s.calls && s.calls == map[c := s.calls[c]] && IsOneLife(held, s.log + s.calls[c]);
      OneLifePrefix(held, s.log, s.calls[c]);
    }
    SoundLogCloses(s.log);
  }

  /** The pause of an execution has neither been opened nor closed. */
  lemma ExecutionIsHeld(w: World, cfg: Config, request: Request)
    requires Execute(w, cfg, request).inv.status == WaitingHuman
    ensures
      var held := Execute(w, cfg, request).log;
      IsHeld(held) && forall kind :: Count(kind, held) == 0
  {
    hide Turns, IsSound, Pauses, InputMessages, Count, IsOf, KeepsGate, IsOver, IsStranded;
    var r := Execute(w, cfg, request);
    ExecuteSettles(w, cfg, request);
    SoundLogCloses(r.log);
    ExecutionOpensNothing(w, cfg, request);
    assert !IsClosing(r.log[|r.log| - 1].event);
    forall kind ensures Count(kind, r.log) == 0 {
      assert kind == Opening || kind == Closing;
    }
  }

  lemma ExecutionOpensNothing(w: World, cfg: Config, request: Request)
    ensures Count(Opening, Execute(w, cfg, request).log) == 0
  {
    hide Turns, InputMessages, Finished, Count;
    var begun, l := StartedLoop(request), ExecuteLoop(w, cfg, request);
    TurnsExtend(w, cfg, ExecuteSetting(cfg, request), begun, 0);
    FinishedExtends(l);
    ExtendsOn(begun.run, l.run, Finished(l));
    CountOfNone(Opening, Finished(l).log);
  }

  /** For the pause of an execution: the gated calls are let go as often as decisions that were
    * to do so loaded the pause, less those that crashed first; and the same for closing. */
  lemma PauseCountsLoads(
    kind: Kind, w: World, cfg: Config, request: Request, actions: seq<Action>, held: seq<Saved>, s: Race)
    requires Execute(w, cfg, request).inv.status == WaitingHuman && held == Execute(w, cfg, request).log
    requires s == RunRace(cfg, held, actions)
    ensures Count(kind, s.log) + |Owing(kind, s)| + Losses(kind, cfg, held, actions) == Loads(kind, cfg, held, actions)
    ensures IsSerial(cfg, held, actions) ==> IsSound(s.log) && Count(kind, s.log) <= 1
  {
    hide Execute, RunRace, IsSerial, Count, IsSound, IsHeld;
    ExecutionIsHeld(w, cfg, request);
    EventsCountLoads(kind, cfg, held, actions, s);
    if IsSerial(cfg, held, actions) {
      SerialDecisionsActOnce(cfg, held, actions, s);
      assert kind == Opening || kind == Closing;
      assert Count(Opening, held) == 0;
    }
  }

  // What overlapping decisions can do

  lemma RunOneMore(cfg: Config, held: seq<Saved>, actions: seq<Action>, a: Action)
    ensures RunRace(cfg, held, actions + [a]) == Next(cfg, RunRace(cfg, held, actions), a)
  {
    assert (actions + [a])[..|actions|] == actions;
  }

  lemma PlanIsNotEmpty(plan: seq<Saved>)
    requires IsPlan(plan)
    ensures plan != []
  {
  }

  /** Two decisions load the pause before either has saved anything. */
  function BothLoad(w: World, first: HumanDecision, v: World, second: HumanDecision): seq<Action> {
    [Load(0, w, first), Load(1, v, second)]
  }

  lemma BothHavePlans(
    cfg: Config, held: seq<Saved>, w: World, first: HumanDecision, v: World, second: HumanDecision)
    requires IsHeld(held) && Acts(first) && Acts(second)
    ensures
      var p, q := Plan(cfg, held, w, first), Plan(cfg, held, v, second);
      && p != [] && q != [] && p[0].event == FirstEvent(first) && q[0].event == FirstEvent(second)
      && RunRace(cfg, held, BothLoad(w, first, v, second)) == Race(held, map[0 := p, 1 := q])
  {
    hide Plan, IsHeld, IsSound, IsPlan, Acts, FirstEvent;
    PlanOfHeld(cfg, held, w, first);
    PlanOfHeld(cfg, held, v, second);
    var p, q := Plan(cfg, held, w, first), Plan(cfg, held, v, second);
    PlanIsNotEmpty(p);
    PlanIsNotEmpty(q);
    RunOneMore(cfg, held, [], Load(0, w, first));
    RunOneMore(cfg, held, [Load(0, w, first)], Load(1, v, second));
    assert [] + [Load(0, w, first)] == [Load(0, w, first)];
    assert [Load(0, w, first)] + [Load(1, v, second)] == BothLoad(w, first, v, second);
  }

  /** A cancellation and a rejection that overlap close the invocation twice, in two ways. */
  lemma OverlappingDecisionsCloseTwice(cfg: Config, held: seq<Saved>, w: World, v: World)
    requires IsHeld(held)
    ensures
      var s := RunRace(cfg, held, BothLoad(w, Cancel, v, Rejected) + [SaveNext(0)] + [SaveNext(1)]);
      && |s.log| == |held| + 2 && Count(Closing, s.log) == 2
      && s.log[|held|].event == InvocationCancelled && s.log[|held| + 1].event == InvocationFailed
  {
    hide Plan, IsHeld, RunRace, Count, BothLoad;
    BothHavePlans(cfg, held, w, Cancel, v, Rejected);
    var p, q := Plan(cfg, held, w, Cancel), Plan(cfg, held, v, Rejected);
    var loaded := BothLoad(w, Cancel, v, Rejected);
    RunOneMore(cfg, held, loaded, SaveNext(0));
    RunOneMore(cfg, held, loaded + [SaveNext(0)], SaveNext(1));
    HeldIsOpen(held);
    CountOfConcat(Closing, held, [p[0]]);
    CountOfConcat(Closing, held + [p[0]], [q[0]]);
    CountOfOne(Closing, p[0]);
    CountOfOne(Closing, q[0]);
  }

  lemma HeldIsOpen(held: seq<Saved>)
    requires IsHeld(held)
    ensures Count(Closing, held) == 0
  {
    hide Count;
    SoundLogCloses(held);
  }

  /** Two approvals that overlap both resume and both wait for the gated tools. */
  lemma OverlappingApprovalsBothResume(cfg: Config, held: seq<Saved>, w: World, v: World)
    requires IsHeld(held)
    ensures
      var saves := [SaveNext(0)] + [SaveNext(0)] + [SaveNext(1)] + [SaveNext(1)];
      var log := RunRace(cfg, held, BothLoad(w, Approved, v, Approved) + saves).log;
      && |log| == |held| + 4
      && log[|held|].event == log[|held| + 2].event == InvocationResumed
      && log[|held| + 1].event == log[|held| + 3].event == InvocationWaitingTool
  {
    hide Plan, IsHeld, RunRace, Count, BothLoad, IsSound, IsPlan;
    BothHavePlans(cfg, held, w, Approved, v, Approved);
    PlanOfHeld(cfg, held, w, Approved);
    PlanOfHeld(cfg, held, v, Approved);
    var loaded := BothLoad(w, Approved, v, Approved);
    RunOneMore(cfg, held, loaded, SaveNext(0));
    RunOneMore(cfg, held, loaded + [SaveNext(0)], SaveNext(0));
    RunOneMore(cfg, held, loaded + [SaveNext(0)] + [SaveNext(0)], SaveNext(1));
    RunOneMore(cfg, held, loaded + [SaveNext(0)] + [SaveNext(0)] + [SaveNext(1)], SaveNext(1));
    var saves := [SaveNext(0)] + [SaveNext(0)] + [SaveNext(1)] + [SaveNext(1)];
    assert loaded + saves == loaded + [SaveNext(0)] + [SaveNext(0)] + [SaveNext(1)] + [SaveNext(1)];
  }

  /** The first gated call passes the guardrails and can be sent, and the budget has not run out. */
  predicate CanSendFirst(w: World, cfg: Config, ctx: Pending) {
    && ctx.calls != [] && Rejection(ctx.calls[0].name, InputOf(ctx.calls[0])).None?
    && ctx.sandbox.Uuid? && cfg.hasExecutionService && w.elapsed(0) < cfg.budgetMs
  }

  /** Each of them sends the first gated call, so overlapping approvals send it twice. */
  lemma ApprovalSendsFirstCall(cfg: Config, held: seq<Saved>, w: World, ctx: Pending)
    requires IsHeld(held) && held[|held| - 1].invocation.pending == Some(ctx) && CanSendFirst(w, cfg, ctx)
    ensures
      var sent := Deciding(cfg, held, w, Approved).trace.dispatched;
      sent != [] && sent[0] == Dispatch(ctx.calls[0].name, InputOf(ctx.calls[0]), 0)
  {
    hide ResumedTurns, GatedTurn, Finished, IsSound, Pauses;
    var r := Run(held[|held| - 1].invocation, held, NO_TRACE);
    SoundAgrees(held);
    LoadedRun(cfg, held, w, Approved);
    var begun := GatedTurn(w, cfg, r, ctx);
    GatedTurnSendsFirstCall(w, cfg, r, ctx);
    ResumedTurnsExtend(w, cfg, AfterApproval, ResumeSetting(cfg, ctx), begun, 0);
  }

  lemma GatedTurnSendsFirstCall(w: World, cfg: Config, r: Run, ctx: Pending)
    requires r.inv.status == WaitingHuman && r.trace == NO_TRACE && CanSendFirst(w, cfg, ctx)
    ensures
      var sent := GatedTurn(w, cfg, r, ctx).run.trace.dispatched;
      sent != [] && sent[0] == Dispatch(ctx.calls[0].name, InputOf(ctx.calls[0]), 0)
  {
    hide Rejection, InputOf, Content, ResultOfReply, AssistantMessage;
    var setting := ResumeSetting(cfg, ctx);
    var said := ctx.messages + [AssistantMessage(ctx.outputText, ctx.calls)];
    var begun := Begun(setting, ApprovedWaiting(r).trace, said);
    var first := DispatchOne(w, setting, GATED_TURN_STYLE, ctx.calls[0], begun);
    DispatchOnlyAdds(w, setting, GATED_TURN_STYLE, ctx.calls[1..], first);
  }

  // When no later decision can do harm

  /** Whatever is loaded, saved or abandoned from here on, there is at most one event of the kind. */
  ghost predicate StaysSingle(kind: Kind, cfg: Config, held: seq<Saved>, actions: seq<Action>) {
    forall more :: Count(kind, RunRace(cfg, held, actions + more).log) <= 1
  }

  lemma {:induction false} LogGrows(cfg: Config, held: seq<Saved>, actions: seq<Action>)
    ensures
      var log := RunRace(cfg, held, actions).log;
      |held| <= |log| && (|log| == |held| ==> log == held)
  {
    hide Plan;
    if actions != [] {
      LogGrows(cfg, held, actions[..|actions| - 1]);
    }
  }

  /** After the first save, a step can only turn an event that is owed into one that is written. */
  lemma MovedStep(kind: Kind, cfg: Config, held: seq<Saved>, s: Race, a: Action)
    requires IsHeld(held) && IsRacing(held, s) && |s.log| > |held|
    ensures
      var next := Next(cfg, s, a);
      |next.log| > |held| && Count(kind, next.log) + |Owing(kind, next)| <= Count(kind, s.log) + |Owing(kind, s)|
  {
    hide Plan, Owing, Count, IsPlan, IsHeld;
    if a.Load? {
      NoPlanUnlessWaiting(cfg, s.log, a.w, a.decision);
    } else if a.SaveNext? {
      SaveCounts(kind, cfg, held, s, a);
    } else {
      AbandonCounts(kind, cfg, s, a);
    }
  }

  lemma {:induction false} MovedRun(
    kind: Kind, cfg: Config, held: seq<Saved>, actions: seq<Action>, more: seq<Action>, s: Race)
    requires IsHeld(held) && s == RunRace(cfg, held, actions) && |s.log| > |held|
    ensures
      var end := RunRace(cfg, held, actions + more);
      |end.log| > |held| && Count(kind, end.log) + |Owing(kind, end)| <= Count(kind, s.log) + |Owing(kind, s)|
    decreases |more|
  {
    hide RunRace, Owing, Count, IsHeld, Next;
    if more == [] {
      assert actions + more == actions;
    } else {
      var n := |more| - 1;
      var before := RunRace(cfg, held, actions + more[..n]);
      MovedRun(kind, cfg, held, actions, more[..n], s);
      EventsCountLoads(kind, cfg, held, actions + more[..n], before);
      MovedStep(kind, cfg, held, before, more[n]);
      RunOneMore(cfg, held, actions + more[..n], more[n]);
      assert actions + more == actions + more[..n] + [more[n]];
    }
  }

  /** A decision under way can make all the saves that it has still to make. */
  lemma {:induction false} Drain(cfg: Config, held: seq<Saved>, actions: seq<Action>, call: CallId)
    returns (more: seq<Action>)
    requires call in RunRace(cfg, held, actions).calls && RunRace(cfg, held, actions).calls[call] != []
    ensures
      var s := RunRace(cfg, held, actions);
      RunRace(cfg, held, actions + more) == Race(s.log + s.calls[call], s.calls - {call})
    decreases |RunRace(cfg, held, actions).calls[call]|
  {
    hide RunRace, Plan;
    var s := RunRace(cfg, held, actions);
    var plan := s.calls[call];
    RunOneMore(cfg, held, actions, SaveNext(call));
    if |plan| == 1 {
      more := [SaveNext(call)];
      assert plan == [plan[0]];
    } else {
      var later := Drain(cfg, held, actions + [SaveNext(call)], call);
      more := [SaveNext(call)] + later;
      assert actions + more == actions + [SaveNext(call)] + later;
      assert s.log + [plan[0]] + plan[1..] == s.log + plan;
      assert s.calls[call := plan[1..]] - {call} == s.calls - {call};
    }
  }

  /** All events that are owed can come to be written. */
  lemma {:induction false} DrainAll(kind: Kind, cfg: Config, held: seq<Saved>, actions: seq<Action>, s: Race)
    returns (more: seq<Action>)
    requires IsHeld(held) && s == RunRace(cfg, held, actions)
    ensures Count(kind, RunRace(cfg, held, actions + more).log) == Count(kind, s.log) + |Owing(kind, s)|
    decreases |Owing(kind, s)|
  {
    hide RunRace, Count, IsHeld, IsPlan, Owing;
    EventsCountLoads(kind, cfg, held, actions, s);
    if Owing(kind, s) == {} {
      more := [];
      assert actions + more == actions;
    } else {
      var call :| call in Owing(kind, s);
      OwingIsUnderWay(kind, s, call);
      PlansArePlans(held, s, call);
      PlanIsNotEmpty(s.calls[call]);
      RestOfPlan(kind, s.calls[call]);
      var first := Drain(cfg, held, actions, call);
      var next := RunRace(cfg, held, actions + first);
      CountOfConcat(kind, s.log, s.calls[call]);
      OwingWithoutCall(kind, s, call, next.log);
      var later := DrainAll(kind, cfg, held, actions + first, next);
      more := first + later;
      assert actions + more == actions + first + later;
    }
  }

  lemma OwingIsUnderWay(kind: Kind, s: Race, call: CallId)
    requires call in Owing(kind, s)
    ensures call in s.calls && Count(kind, s.calls[call]) > 0
  {
  }

  lemma FreshCall(calls: map<CallId, seq<Saved>>) returns (call: CallId)
    ensures call !in calls
  {
    call := 0;
    var keys := calls.Keys;
    while keys != {}
      invariant forall c :: c in calls ==> c in keys || c < call
      decreases keys
    {
      var c :| c in keys;
      keys := keys - {c};
      if c >= call {
        call := c + 1;
      }
    }
  }

  const SILENT_WORLD := World(_ => GatewayError(""), _ => ToolRaised([]), _ => 0)

  /** While the pause stands, one more decision can come to owe an event of either kind. */
  lemma OneMoreOwes(kind: Kind, cfg: Config, held: seq<Saved>, actions: seq<Action>) returns (a: Action)
    requires IsHeld(held) && RunRace(cfg, held, actions).log == held
    ensures
      var s, next := RunRace(cfg, held, actions), RunRace(cfg, held, actions + [a]);
      next.log == held && |Owing(kind, next)| == |Owing(kind, s)| + 1
  {
    hide RunRace, Plan, IsHeld, Owing, IsSound;
    var s := RunRace(cfg, held, actions);
    var call := FreshCall(s.calls);
    var decision := if kind == Opening then Approved else Cancel;
    a := Load(call, SILENT_WORLD, decision);
    PlanOfHeld(cfg, held, SILENT_WORLD, decision);
    var plan := Plan(cfg, held, SILENT_WORLD, decision);
    assert Count(kind, plan) > 0;
    RunOneMore(cfg, held, actions, a);
    OwingWithCall(kind, s, call, plan);
  }

  /** The exact condition on a moment: the gated calls go, or the invocation closes, at most once
    * from there on if and only if a decision has made its first save, and at most one event of
    * the kind has been written or is still to come from a decision under way. */
  lemma StaysSingleExactly(kind: Kind, cfg: Config, held: seq<Saved>, actions: seq<Action>, s: Race)
    requires IsHeld(held) && Count(kind, held) == 0 && s == RunRace(cfg, held, actions)
    ensures StaysSingle(kind, cfg, held, actions) <==>
              s.log != held && Count(kind, s.log) + |Owing(kind, s)| <= 1
  {
    hide RunRace, Count, IsHeld, Owing;
    LogGrows(cfg, held, actions);
    if s.log == held {
      var a := OneMoreOwes(kind, cfg, held, actions);
      var b := OneMoreOwes(kind, cfg, held, actions + [a]);
      var later := DrainAll(kind, cfg, held, actions + [a] + [b], RunRace(cfg, held, actions + [a] + [b]));
      var more := [a] + [b] + later;
      assert actions + more == actions + [a] + [b] + later;
      assert Count(kind, RunRace(cfg, held, actions + more).log) >= 2;
    } else if Count(kind, s.log) + |Owing(kind, s)| <= 1 {
      forall more ensures Count(kind, RunRace(cfg, held, actions + more).log) <= 1 {
        MovedRun(kind, cfg, held, actions, more, s);
      }
    } else {
      var more := DrainAll(kind, cfg, held, actions, s);
      assert Count(kind, RunRace(cfg, held, actions + more).log) >= 2;
    }
  }
}
