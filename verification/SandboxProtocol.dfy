/** The execution service as a transition system. A call is split into transactions with a
  * slow backend call between them; every transaction is one atomic action, an action that is
  * refused commits nothing, and any interleaving of the actions of any calls is a run.
  */
module SandboxProtocol {
  import opened Options
  import opened Results
  import opened Sandboxes

  type SandboxId = nat
  type CallId = nat

  /** A call between two of its transactions, with the copy it carries across the gap. */
  datatype Call =
    | Provisions(sandbox: SandboxId, copy: Row)
    | Executes(sandbox: SandboxId)
    | Terminates(sandbox: SandboxId, copy: Row)

  datatype Event =
    | ProvisionRequested(sandbox: SandboxId)
    | Provisioned(sandbox: SandboxId)
    | ProvisionFailed(sandbox: SandboxId)
    | TerminationRequested(sandbox: SandboxId)
    | SandboxTerminated(sandbox: SandboxId)
    | ToolRequested(sandbox: SandboxId, execution: CallId)
    | ToolSucceeded(sandbox: SandboxId, execution: CallId)
    | ToolFailed(sandbox: SandboxId, execution: CallId)
    | Recovered(sandbox: SandboxId)

  datatype State = State(rows: map<SandboxId, Row>, calls: map<CallId, Call>, outbox: seq<Event>)

  const NOTHING := State(map[], map[], [])

  datatype Action =
    | ProvisionBegin(call: CallId, sandbox: SandboxId, sandboxType: SandboxType, now: int)
    | ProvisionFinish(call: CallId, backendWorked: bool, now: int)
    | Claim(call: CallId, sandbox: SandboxId, allowedTypes: set<SandboxType>, now: int)
    | ExecuteFinish(call: CallId, succeeded: bool, now: int)
    | TerminateBegin(call: CallId, sandbox: SandboxId, reason: Reason, now: int)
    | TerminateFinish(call: CallId, now: int)
    | Sweep(sandbox: SandboxId, now: int)
    | Abort(call: CallId)

  const PROVISION_ERROR := "PROVISION_ERROR"
  const RECOVERY_SWEEP := "RECOVERY_SWEEP"

  /** A commit: one row is saved and one event written. */
  function Committed(s: State, sandbox: SandboxId, r: Row, e: Event): State {
    s.(rows := s.rows[sandbox := r], outbox := s.outbox + [e])
  }

  function Started(s: State, call: CallId, c: Call): State {
    s.(calls := s.calls[call := c])
  }

  function Ended(s: State, call: CallId): State {
    s.(calls := s.calls - {call})
  }

  predicate IsClaimable(r: Row, allowedTypes: set<SandboxType>) {
    r.status in {Ready, Idle} && r.sandboxType in allowedTypes
  }

  /** The statuses in which the sweep may find a sandbox stuck. */
  predicate IsSweepable(status: Status) {
    status in {Provisioning, Executing}
  }

  /** A second transaction that saves the copy it carries, whatever is stored by now. */
  function SaveCarried(s: State, call: CallId, moved: Result<Row, TransitionError>, e: Event): State
    requires call in s.calls
  {
    var ended := Ended(s, call);
    if moved.Ok? then Committed(ended, s.calls[call].sandbox, moved.value, e) else ended
  }

  /** Identifiers are fresh: a call or sandbox that exists is not begun again. Abort is a crash
    * of a call, or a transaction of it that fails to commit. */
  function Next(s: State, a: Action): State {
    match a
    case ProvisionBegin(call, sandbox, sandboxType, now) =>
      if call in s.calls || sandbox in s.rows then s
      else
        var r := NewRow(sandboxType, now);
        Started(Committed(s, sandbox, r, ProvisionRequested(sandbox)), call, Provisions(sandbox, r))
    case ProvisionFinish(call, backendWorked, now) =>
      if call !in s.calls || !s.calls[call].Provisions? then s
      else
        var Provisions(sandbox, copy) := s.calls[call];
        if backendWorked then SaveCarried(s, call, Moved(copy, Ready, now), Provisioned(sandbox))
        else SaveCarried(s, call, MarkedFailed(copy, PROVISION_ERROR, now), ProvisionFailed(sandbox))
    case Claim(call, sandbox, allowedTypes, now) =>
      if call in s.calls || sandbox !in s.rows || !IsClaimable(s.rows[sandbox], allowedTypes) then s
      else
        var moved := Moved(s.rows[sandbox], Executing, now);
        if moved.Err? then s
        else Started(Committed(s, sandbox, moved.value, ToolRequested(sandbox, call)), call, Executes(sandbox))
    case ExecuteFinish(call, succeeded, now) =>
      if call !in s.calls || !s.calls[call].Executes? then s
      else
        var sandbox, ended := s.calls[call].sandbox, Ended(s, call);
        var e := if succeeded then ToolSucceeded(sandbox, call) else ToolFailed(sandbox, call);
        if sandbox !in s.rows then ended.(outbox := s.outbox + [e])
        else
          var moved := Moved(s.rows[sandbox], Idle, now);
          if moved.Err? then ended else Committed(ended, sandbox, moved.value, e)
    case TerminateBegin(call, sandbox, reason, now) =>
      if call in s.calls || sandbox !in s.rows then s
      else
        var moved := MarkedTerminating(s.rows[sandbox], reason, now);
        if moved.Err? then s
        else
          Started(Committed(s, sandbox, moved.value, TerminationRequested(sandbox)),
                  call, Terminates(sandbox, moved.value))
    case TerminateFinish(call, now) =>
      if call !in s.calls || !s.calls[call].Terminates? then s
      else
        var Terminates(sandbox, copy) := s.calls[call];
        SaveCarried(s, call, Moved(copy, Terminated, now), SandboxTerminated(sandbox))
    case Sweep(sandbox, now) =>
      if sandbox !in s.rows || !IsSweepable(s.rows[sandbox].status) then s
      else
        var moved := MarkedFailed(s.rows[sandbox], RECOVERY_SWEEP, now);
        if moved.Err? then s else Committed(s, sandbox, moved.value, Recovered(sandbox))
    case Abort(call) => Ended(s, call)
  }

  /** A run: the actions of all calls in the order in which they commit. */
  function RunFrom(s: State, actions: seq<Action>): State {
    if actions == [] then s
    else Next(RunFrom(s, actions[..|actions| - 1]), actions[|actions| - 1])
  }

  function Run(actions: seq<Action>): State {
    RunFrom(NOTHING, actions)
  }

  // Mutual exclusion

  const STOPPED := {Terminating, Terminated, Failed}

  /** What the stored row can be while a call is in its gap. */
  predicate Fits(rows: map<SandboxId, Row>, c: Call) {
    && c.sandbox in rows
    && match c
       case Provisions(b, copy) => copy.status == Provisioning && rows[b].status in STOPPED + {Provisioning}
       case Executes(b) => rows[b].status in STOPPED + {Executing}
       case Terminates(_, copy) => copy.status == Terminating
  }

  /** Inductive: calls fit their rows, and a sandbox has at most one call that provisions it
    * or executes in it. */
  ghost predicate Exclusive(s: State) {
    && (forall c :: c in s.calls ==> Fits(s.rows, s.calls[c]))
    && (forall c, d :: c in s.calls && d in s.calls && c != d ==> !Excludes(s.calls[c], s.calls[d]))
  }

  /** Two calls that must not be in their gaps at the same time. */
  predicate Excludes(c: Call, d: Call) {
    c.sandbox == d.sandbox && !c.Terminates? && !d.Terminates?
  }

  predicate IsFirst(a: Action) {
    a.ProvisionBegin? || a.Claim? || a.TerminateBegin?
  }

  lemma ClaimIsExclusive(s: State, a: Action)
    requires Exclusive(s) && a.Claim?
    ensures Exclusive(Next(s, a))
  {
  }

  lemma BeginIsExclusive(s: State, a: Action)
    requires Exclusive(s) && IsFirst(a) && !a.Claim?
    ensures Exclusive(Next(s, a))
  {
  }

  lemma LaterStepIsExclusive(s: State, a: Action)
    requires Exclusive(s) && !IsFirst(a)
    ensures Exclusive(Next(s, a))
  {
  }

  lemma StepIsExclusive(s: State, a: Action)
    requires Exclusive(s)
    ensures Exclusive(Next(s, a))
  {
    if a.Claim? {
      ClaimIsExclusive(s, a);
    } else if IsFirst(a) {
      BeginIsExclusive(s, a);
    } else {
      LaterStepIsExclusive(s, a);
    }
  }

  lemma {:induction false} RunIsExclusive(actions: seq<Action>)
    ensures Exclusive(Run(actions))
  {
    if actions != [] {
      RunIsExclusive(actions[..|actions| - 1]);
      StepIsExclusive(Run(actions[..|actions| - 1]), actions[|actions| - 1]);
    }
  }

  function InFlight(s: State, sandbox: SandboxId): set<CallId> {
    set c | c in s.calls && s.calls[c] == Executes(sandbox)
  }

  /** In every interleaving at most one tool execution is in flight in a sandbox, and none is
    * while the stored status is READY, IDLE or PROVISIONING. */
  lemma AtMostOneExecution(actions: seq<Action>, sandbox: SandboxId)
    ensures var s := Run(actions);
            && |InFlight(s, sandbox)| <= 1
            && (InFlight(s, sandbox) != {} ==> sandbox in s.rows)
            && (sandbox in s.rows && s.rows[sandbox].status in {Ready, Idle, Provisioning}
                ==> InFlight(s, sandbox) == {})
  {
    var s := Run(actions);
    RunIsExclusive(actions);
    var flying := InFlight(s, sandbox);
    if flying != {} {
      var c :| c in flying;
      assert flying == {c};
    }
  }

  // Carried copies

  /** The transitions made on a carried copy are always legal, so a second transaction of a
    * provision or a termination never refuses. */
  lemma CarriedCopiesCanMove(actions: seq<Action>, call: CallId, now: int)
    requires call in Run(actions).calls
    ensures var c := Run(actions).calls[call];
            && (c.Provisions? ==> Moved(c.copy, Ready, now).Ok? && MarkedFailed(c.copy, PROVISION_ERROR, now).Ok?)
            && (c.Terminates? ==> Moved(c.copy, Terminated, now).Ok?)
  {
    RunIsExclusive(actions);
    assert Fits(Run(actions).rows, Run(actions).calls[call]);
  }

  /** An action that saves an existing row. */
  predicate Saves(s: State, a: Action, sandbox: SandboxId) {
    sandbox in s.rows && sandbox in Next(s, a).rows && |Next(s, a).outbox| > |s.outbox|
    && Next(s, a).outbox[|s.outbox|].sandbox == sandbox
  }

  predicate FollowsTable(s: State, a: Action, sandbox: SandboxId)
    requires Saves(s, a, sandbox)
  {
    Next(s, a).rows[sandbox].status in NextStatuses(s.rows[sandbox].status)
  }

  /** A second transaction that overwrites a status other than the one its copy was made from. */
  predicate OverwritesOther(s: State, a: Action) {
    match a
    case ProvisionFinish(call, _, _) =>
      call in s.calls && s.calls[call].Provisions? && s.calls[call].sandbox in s.rows
      && s.rows[s.calls[call].sandbox].status != Provisioning
    case TerminateFinish(call, _) =>
      call in s.calls && s.calls[call].Terminates? && s.calls[call].sandbox in s.rows
      && s.rows[s.calls[call].sandbox].status != Terminating
    case _ => false
  }

  /** Not every committed change follows the transition table. It does exactly when the action
    * is not a carried save over a row that has meanwhile changed. */
  lemma FollowsTableUnlessOverwriting(actions: seq<Action>, a: Action, sandbox: SandboxId)
    requires Saves(Run(actions), a, sandbox)
    ensures FollowsTable(Run(actions), a, sandbox) <==> !OverwritesOther(Run(actions), a)
  {
    var s := Run(actions);
    RunIsExclusive(actions);
    if (a.ProvisionFinish? || a.TerminateFinish?) && a.call in s.calls {
      assert Fits(s.rows, s.calls[a.call]);
    }
  }

  /** The run that shows it: a sweep gives up on a slow provision, and the provision then
    * saves READY over FAILED. */
  lemma ProvisionOverwritesSweep()
    ensures var actions := [ProvisionBegin(0, 0, Container, 0), Sweep(0, 20)];
            var a := ProvisionFinish(0, true, 21);
            && Run(actions).rows.Keys == {0} && Run(actions).rows[0].status == Failed
            && Run(actions + [a]).rows.Keys == {0} && Run(actions + [a]).rows[0].status == Ready
  {
    var first, second, third := ProvisionBegin(0, 0, Container, 0), Sweep(0, 20), ProvisionFinish(0, true, 21);
    assert Run([]) == NOTHING;
    RunOneMore([], first);
    RunOneMore([first], second);
    RunOneMore([first, second], third);
    assert [] + [first] == [first] && [first] + [second] == [first, second];
  }

  lemma RunOneMore(actions: seq<Action>, a: Action)
    ensures Run(actions + [a]) == Next(Run(actions), a)
  {
    assert (actions + [a])[..|actions|] == actions;
  }

  // The end of a sandbox

  predicate NothingProvisions(s: State, sandbox: SandboxId) {
    forall c :: c in s.calls && s.calls[c].Provisions? ==> s.calls[c].sandbox != sandbox
  }

  predicate IsGone(s: State, sandbox: SandboxId) {
    sandbox in s.rows && s.rows[sandbox].status == Terminated
  }

  lemma StepKeepsGone(s: State, a: Action, sandbox: SandboxId)
    requires Exclusive(s) && IsGone(s, sandbox) && NothingProvisions(s, sandbox)
    ensures IsGone(Next(s, a), sandbox) && NothingProvisions(Next(s, a), sandbox)
  {
    if a.TerminateFinish? && a.call in s.calls {
      assert Fits(s.rows, s.calls[a.call]);
    }
  }

  lemma {:induction false} RunKeepsGone(s: State, actions: seq<Action>, sandbox: SandboxId)
    requires Exclusive(s) && IsGone(s, sandbox) && NothingProvisions(s, sandbox)
    ensures Exclusive(RunFrom(s, actions))
    ensures IsGone(RunFrom(s, actions), sandbox) && NothingProvisions(RunFrom(s, actions), sandbox)
  {
    if actions != [] {
      RunKeepsGone(s, actions[..|actions| - 1], sandbox);
      var t, a := RunFrom(s, actions[..|actions| - 1]), actions[|actions| - 1];
      StepIsExclusive(t, a);
      StepKeepsGone(t, a, sandbox);
    }
  }

  ghost predicate StaysGone(s: State, sandbox: SandboxId) {
    forall more :: IsGone(RunFrom(s, more), sandbox)
  }

  /** TERMINATED is final exactly when the provision of the sandbox is no longer under way. */
  lemma GoneForGoodExactlyWhenProvisioned(actions: seq<Action>, sandbox: SandboxId)
    requires IsGone(Run(actions), sandbox)
    ensures StaysGone(Run(actions), sandbox) <==> NothingProvisions(Run(actions), sandbox)
  {
    var s := Run(actions);
    RunIsExclusive(actions);
    if NothingProvisions(s, sandbox) {
      forall more ensures IsGone(RunFrom(s, more), sandbox) {
        RunKeepsGone(s, more, sandbox);
      }
    } else {
      var c :| c in s.calls && s.calls[c].Provisions? && s.calls[c].sandbox == sandbox;
      assert Fits(s.rows, s.calls[c]);
      var finish := ProvisionFinish(c, true, 0);
      assert RunFrom(s, []) == s && [finish][..0] == [];
      assert RunFrom(s, [finish]) == Next(s, finish);
      assert !IsGone(RunFrom(s, [finish]), sandbox);
    }
  }

  /** A provision that a sweep has given up on. */
  function SweptProvision(r: Row): State {
    State(map[0 := r], map[0 := Provisions(0, NewRow(Container, 0))], [ProvisionRequested(0), Recovered(0)])
  }

  lemma ProvisionIsSwept()
    ensures var s := Next(Next(NOTHING, ProvisionBegin(0, 0, Container, 0)), Sweep(0, 20));
            exists r: Row :: r.status == Failed && s == SweptProvision(r)
  {
    var s := Next(NOTHING, ProvisionBegin(0, 0, Container, 0));
    assert s == State(map[0 := NewRow(Container, 0)], map[0 := Provisions(0, NewRow(Container, 0))],
                      [ProvisionRequested(0)]);
    var r := MarkedFailed(NewRow(Container, 0), RECOVERY_SWEEP, 20).value;
    assert Next(s, Sweep(0, 20)) == SweptProvision(r);
  }

  lemma SweptProvisionTerminates(r: Row)
    requires r.status == Failed
    ensures var s := Next(Next(SweptProvision(r), TerminateBegin(1, 0, Manual, 21)), TerminateFinish(1, 22));
            && IsGone(s, 0) && s.calls == SweptProvision(r).calls
            && s.outbox == SweptProvision(r).outbox + [TerminationRequested(0), SandboxTerminated(0)]
  {
    var t := Next(SweptProvision(r), TerminateBegin(1, 0, Manual, 21));
    assert 1 !in SweptProvision(r).calls;
    assert t.calls - {1} == SweptProvision(r).calls;
  }

  /** The run that shows that the condition can fail: a sweep gives up on a slow provision, the
    * sandbox is terminated, and the provision then saves READY over TERMINATED. */
  lemma ProvisionRevivesTerminated()
    ensures var actions := [ProvisionBegin(0, 0, Container, 0), Sweep(0, 20),
                            TerminateBegin(1, 0, Manual, 21), TerminateFinish(1, 22)];
            var revived := Run(actions + [ProvisionFinish(0, true, 23)]);
            && IsGone(Run(actions), 0) && !NothingProvisions(Run(actions), 0)
            && 0 in revived.rows && revived.rows[0].status == Ready
  {
    hide RunFrom, Run, Next;
    var begin, sweep := ProvisionBegin(0, 0, Container, 0), Sweep(0, 20);
    var terminate, terminated := TerminateBegin(1, 0, Manual, 21), TerminateFinish(1, 22);
    RunOfFour(begin, sweep, terminate, terminated);
    RunOneMore([begin, sweep, terminate, terminated], ProvisionFinish(0, true, 23));
    ProvisionIsSwept();
    var r: Row :| r.status == Failed && Next(Next(NOTHING, begin), sweep) == SweptProvision(r);
    SweptProvisionTerminates(r);
    var s := Next(Next(SweptProvision(r), terminate), terminated);
    CarriedReadyIsSaved(s, 0, 0, NewRow(Container, 0), 23);
  }

  lemma CarriedReadyIsSaved(s: State, call: CallId, sandbox: SandboxId, copy: Row, now: int)
    requires call in s.calls && s.calls[call] == Provisions(sandbox, copy) && copy.status == Provisioning
    ensures var t := Next(s, ProvisionFinish(call, true, now));
            sandbox in t.rows && t.rows[sandbox].status == Ready && !NothingProvisions(s, sandbox)
  {
  }

  lemma RunOfFour(a: Action, b: Action, c: Action, d: Action)
    ensures Run([a, b, c, d]) == Next(Next(Next(Next(NOTHING, a), b), c), d)
  {
    hide Next;
    assert Run([]) == NOTHING;
    RunOneMore([], a);
    RunOneMore([a], b);
    RunOneMore([a, b], c);
    RunOneMore([a, b, c], d);
    assert [] + [a] == [a] && [a] + [b] == [a, b];
    assert [a, b] + [c] == [a, b, c] && [a, b, c] + [d] == [a, b, c, d];
  }

  // The outbox

  function StatusAfter(e: Event): Status {
    match e
    case ProvisionRequested(_) => Provisioning
    case Provisioned(_) => Ready
    case ProvisionFailed(_) => Failed
    case TerminationRequested(_) => Terminating
    case SandboxTerminated(_) => Terminated
    case ToolRequested(_, _) => Executing
    case ToolSucceeded(_, _) => Idle
    case ToolFailed(_, _) => Idle
    case Recovered(_) => Failed
  }

  /** The status that the last event of a sandbox announces. */
  function Replay(outbox: seq<Event>, sandbox: SandboxId): Option<Status> {
    if outbox == [] then None
    else
      var last := outbox[|outbox| - 1];
      if last.sandbox == sandbox then Some(StatusAfter(last)) else Replay(outbox[..|outbox| - 1], sandbox)
  }

  function StoredStatus(s: State, sandbox: SandboxId): Option<Status> {
    if sandbox in s.rows then Some(s.rows[sandbox].status) else None
  }

  lemma ReplayWithEvent(outbox: seq<Event>, e: Event, sandbox: SandboxId)
    ensures Replay(outbox + [e], sandbox)
            == if e.sandbox == sandbox then Some(StatusAfter(e)) else Replay(outbox, sandbox)
  {
    assert (outbox + [e])[..|outbox|] == outbox;
  }

  lemma StepReplays(s: State, a: Action, sandbox: SandboxId)
    requires Exclusive(s) && Replay(s.outbox, sandbox) == StoredStatus(s, sandbox)
    ensures Replay(Next(s, a).outbox, sandbox) == StoredStatus(Next(s, a), sandbox)
  {
    var t := Next(s, a);
    if t.outbox != s.outbox {
      var e := t.outbox[|s.outbox|];
      assert t.outbox == s.outbox + [e];
      ReplayWithEvent(s.outbox, e, sandbox);
      if a.ExecuteFinish? {
        assert Fits(s.rows, s.calls[a.call]);
      }
    }
  }

  /** In every interleaving, carried copies included, the outbox alone says which sandboxes
    * exist and in which status each is stored. */
  lemma {:induction false} OutboxDeterminesStatus(actions: seq<Action>, sandbox: SandboxId)
    ensures Replay(Run(actions).outbox, sandbox) == StoredStatus(Run(actions), sandbox)
  {
    if actions != [] {
      var before := actions[..|actions| - 1];
      RunIsExclusive(before);
      OutboxDeterminesStatus(before, sandbox);
      StepReplays(Run(before), actions[|actions| - 1], sandbox);
    }
  }

  /** The execution that was last requested in a sandbox and has not been answered. */
  function Unanswered(outbox: seq<Event>, sandbox: SandboxId): Option<CallId> {
    if outbox == [] then None
    else
      var before, last := Unanswered(outbox[..|outbox| - 1], sandbox), outbox[|outbox| - 1];
      if last.sandbox != sandbox then before
      else if last.ToolRequested? then Some(last.execution)
      else if last.ToolSucceeded? || last.ToolFailed? then None
      else before
  }

  /** Every request comes when none is unanswered; every answer answers the open request. */
  predicate Alternates(outbox: seq<Event>, sandbox: SandboxId) {
    outbox == []
    || (&& Alternates(outbox[..|outbox| - 1], sandbox)
        && var before, last := Unanswered(outbox[..|outbox| - 1], sandbox), outbox[|outbox| - 1];
           && (last.sandbox == sandbox && last.ToolRequested? ==> before.None?)
           && (last.sandbox == sandbox && (last.ToolSucceeded? || last.ToolFailed?)
               ==> before == Some(last.execution)))
  }

  /** Inductive: an unanswered request keeps its sandbox from being claimed again, and a call
    * in flight is the one that is unanswered. */
  ghost predicate LogFits(s: State, sandbox: SandboxId) {
    var open := Unanswered(s.outbox, sandbox);
    && Alternates(s.outbox, sandbox)
    && (open.Some? ==>
          && sandbox in s.rows && s.rows[sandbox].status in STOPPED + {Executing}
          && NothingProvisions(s, sandbox))
    && (forall c :: c in s.calls && s.calls[c] == Executes(sandbox) ==> open == Some(c))
  }

  lemma LogWithEvent(outbox: seq<Event>, e: Event)
    ensures (outbox + [e])[..|outbox + [e]| - 1] == outbox && (outbox + [e])[|outbox + [e]| - 1] == e
  {
  }

  lemma LogOfStep(s: State, a: Action)
    ensures var t := Next(s, a);
            t.outbox == s.outbox
            || (|t.outbox| == |s.outbox| + 1 && t.outbox[..|t.outbox| - 1] == s.outbox)
  {
    if Next(s, a).outbox != s.outbox {
      LogWithEvent(s.outbox, Next(s, a).outbox[|s.outbox|]);
      assert Next(s, a).outbox == s.outbox + [Next(s, a).outbox[|s.outbox|]];
    }
  }

  lemma LogAfterStep(s: State, a: Action, sandbox: SandboxId)
    requires Alternates(s.outbox, sandbox)
    ensures
      var t, open := Next(s, a), Unanswered(s.outbox, sandbox);
      if t.outbox == s.outbox then Alternates(t.outbox, sandbox) && Unanswered(t.outbox, sandbox) == open
      else
        && |t.outbox| == |s.outbox| + 1
        && var e := t.outbox[|s.outbox|];
        && (e.sandbox != sandbox || !(e.ToolRequested? || e.ToolSucceeded? || e.ToolFailed?) ==>
              Alternates(t.outbox, sandbox) && Unanswered(t.outbox, sandbox) == open)
        && (e.sandbox == sandbox && e.ToolRequested? ==>
              (Alternates(t.outbox, sandbox) <==> open.None?) && Unanswered(t.outbox, sandbox) == Some(e.execution))
        && (e.sandbox == sandbox && (e.ToolSucceeded? || e.ToolFailed?) ==>
              (Alternates(t.outbox, sandbox) <==> open == Some(e.execution)) && Unanswered(t.outbox, sandbox) == None)
  {
    LogOfStep(s, a);
    hide Next;
  }

  lemma ClaimFitsLog(s: State, a: Action, sandbox: SandboxId)
    requires Exclusive(s) && LogFits(s, sandbox) && a.Claim?
    ensures LogFits(Next(s, a), sandbox)
  {
    hide Unanswered, Alternates;
    LogAfterStep(s, a, sandbox);
  }

  lemma BeginFitsLog(s: State, a: Action, sandbox: SandboxId)
    requires Exclusive(s) && LogFits(s, sandbox) && IsFirst(a) && !a.Claim?
    ensures LogFits(Next(s, a), sandbox)
  {
    hide Unanswered, Alternates;
    LogAfterStep(s, a, sandbox);
  }

  lemma ExecuteFinishFitsLog(s: State, a: Action, sandbox: SandboxId)
    requires Exclusive(s) && LogFits(s, sandbox) && a.ExecuteFinish?
    ensures LogFits(Next(s, a), sandbox)
  {
    hide Unanswered, Alternates;
    LogAfterStep(s, a, sandbox);
    if a.call in s.calls {
      assert Fits(s.rows, s.calls[a.call]);
    }
  }

  lemma LaterStepFitsLog(s: State, a: Action, sandbox: SandboxId)
    requires Exclusive(s) && LogFits(s, sandbox) && !IsFirst(a) && !a.ExecuteFinish?
    ensures LogFits(Next(s, a), sandbox)
  {
    hide Unanswered, Alternates;
    LogAfterStep(s, a, sandbox);
    if (a.ProvisionFinish? || a.TerminateFinish?) && a.call in s.calls {
      assert Fits(s.rows, s.calls[a.call]);
    }
  }

  lemma {:induction false} RunFitsLog(actions: seq<Action>, sandbox: SandboxId)
    ensures LogFits(Run(actions), sandbox)
  {
    if actions != [] {
      var before, a := actions[..|actions| - 1], actions[|actions| - 1];
      RunIsExclusive(before);
      RunFitsLog(before, sandbox);
      if a.Claim? {
        ClaimFitsLog(Run(before), a, sandbox);
      } else if IsFirst(a) {
        BeginFitsLog(Run(before), a, sandbox);
      } else if a.ExecuteFinish? {
        ExecuteFinishFitsLog(Run(before), a, sandbox);
      } else {
        LaterStepFitsLog(Run(before), a, sandbox);
      }
    }
  }

  /** An answer in the outbox was written by the finish of that execution, and says how it ended. */
  lemma {:induction false} AnswersComeFromFinishes(actions: seq<Action>, k: nat)
    requires k < |Run(actions).outbox|
    ensures
      match Run(actions).outbox[k]
      case ToolSucceeded(_, execution) => exists now :: ExecuteFinish(execution, true, now) in actions
      case ToolFailed(_, execution) => exists now :: ExecuteFinish(execution, false, now) in actions
      case _ => true
  {
    hide Moved, MarkedFailed, MarkedTerminating;
    if actions != [] {
      var before, a := actions[..|actions| - 1], actions[|actions| - 1];
      LogOfStep(Run(before), a);
      assert a in actions && forall b :: b in before ==> b in actions;
      if k < |Run(before).outbox| {
        AnswersComeFromFinishes(before, k);
        assert Run(actions).outbox[k] == Run(before).outbox[k];
      } else {
        StepAnswers(Run(before), a);
      }
    }
  }

  /** The event of a step is one of its own action. */
  lemma StepAnswers(s: State, a: Action)
    requires |Next(s, a).outbox| > |s.outbox|
    ensures
      match Next(s, a).outbox[|s.outbox|]
      case ToolSucceeded(_, execution) => a.ExecuteFinish? && a.call == execution && a.succeeded
      case ToolFailed(_, execution) => a.ExecuteFinish? && a.call == execution && !a.succeeded
      case _ => true
  {
  }

  predicate IsAnswerTo(e: Event, sandbox: SandboxId, execution: CallId) {
    e == ToolSucceeded(sandbox, execution) || e == ToolFailed(sandbox, execution)
  }

  lemma {:induction false} StaysUnanswered(outbox: seq<Event>, sandbox: SandboxId, i: nat, execution: CallId)
    requires Alternates(outbox, sandbox)
    requires i < |outbox| && outbox[i] == ToolRequested(sandbox, execution)
    requires forall k :: i < k < |outbox| ==> !IsAnswerTo(outbox[k], sandbox, execution)
    ensures Unanswered(outbox, sandbox) == Some(execution)
  {
    if i < |outbox| - 1 {
      StaysUnanswered(outbox[..|outbox| - 1], sandbox, i, execution);
    }
  }

  lemma {:induction false} PrefixAlternates(outbox: seq<Event>, sandbox: SandboxId, n: nat)
    requires Alternates(outbox, sandbox) && n <= |outbox|
    ensures Alternates(outbox[..n], sandbox)
  {
    if n < |outbox| {
      PrefixAlternates(outbox[..|outbox| - 1], sandbox, n);
      assert outbox[..|outbox| - 1][..n] == outbox[..n];
    } else {
      assert outbox[..n] == outbox;
    }
  }

  /** Mutual exclusion as the outbox shows it: between two execution requests of a sandbox
    * there is always the answer to the first. */
  lemma ExecutionsNeverOverlapInOutbox(actions: seq<Action>, sandbox: SandboxId, i: nat, j: nat)
    requires i < j < |Run(actions).outbox|
    requires var e := Run(actions).outbox[i]; e.ToolRequested? && e.sandbox == sandbox
    requires var e := Run(actions).outbox[j]; e.ToolRequested? && e.sandbox == sandbox
    ensures exists k :: i < k < j
              && IsAnswerTo(Run(actions).outbox[k], sandbox, Run(actions).outbox[i].execution)
  {
    var outbox := Run(actions).outbox;
    var execution := outbox[i].execution;
    RunFitsLog(actions, sandbox);
    PrefixAlternates(outbox, sandbox, j + 1);
    var before := outbox[..j];
    assert outbox[..j + 1][..j] == before && outbox[..j + 1][j] == outbox[j];
    if forall k :: i < k < j ==> !IsAnswerTo(outbox[k], sandbox, execution) {
      StaysUnanswered(before, sandbox, i, execution);
      assert false;
    }
  }
}
