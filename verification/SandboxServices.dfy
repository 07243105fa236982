/** The calls of the execution service as they run, each in its own transactions. What other
  * calls commit while one of them waits for the backend is a parameter: any sequence of
  * actions of other calls.
  */
module SandboxServices {
  import opened Options
  import opened Sandboxes
  import opened SandboxProtocol

  /** Whether an action belongs to a call. */
  predicate IsOf(a: Action, call: CallId) {
    !a.Sweep? && a.call == call
  }

  predicate LeaveAlone(others: seq<Action>, call: CallId) {
    forall i :: 0 <= i < |others| ==> !IsOf(others[i], call)
  }

  lemma {:induction false} OthersKeepCall(s: State, others: seq<Action>, call: CallId)
    requires LeaveAlone(others, call)
    ensures call in RunFrom(s, others).calls <==> call in s.calls
    ensures call in s.calls ==> RunFrom(s, others).calls[call] == s.calls[call]
  {
    if others != [] {
      OthersKeepCall(s, others[..|others| - 1], call);
      assert !IsOf(others[|others| - 1], call);
    }
  }

  lemma RunOfThree(s: State, first: Action, others: seq<Action>, last: Action)
    ensures RunFrom(s, [first] + others + [last]) == Next(RunFrom(Next(s, first), others), last)
  {
    var actions := [first] + others + [last];
    assert actions[..|actions| - 1] == [first] + others;
    RunAfterFirst(s, first, others);
  }

  lemma {:induction false} RunAfterFirst(s: State, first: Action, others: seq<Action>)
    ensures RunFrom(s, [first] + others) == RunFrom(Next(s, first), others)
  {
    var actions := [first] + others;
    if others == [] {
      assert actions == [first] && actions[..0] == [];
    } else {
      assert actions[..|actions| - 1] == [first] + others[..|others| - 1];
      RunAfterFirst(s, first, others[..|others| - 1]);
    }
  }

  lemma TerminateBeginCommits(s: State, call: CallId, id: SandboxId, reason: Reason, now: int)
    requires call !in s.calls && id in s.rows && MarkedTerminating(s.rows[id], reason, now).Ok?
    ensures var r := MarkedTerminating(s.rows[id], reason, now).value;
            Next(s, TerminateBegin(call, id, reason, now))
            == State(s.rows[id := r], s.calls[call := Terminates(id, r)], s.outbox + [TerminationRequested(id)])
  {
  }

  lemma TerminateFinishCommits(s: State, call: CallId, now: int)
    requires call in s.calls && s.calls[call].Terminates? && Moved(s.calls[call].copy, Terminated, now).Ok?
    ensures var c := s.calls[call];
            Next(s, TerminateFinish(call, now))
            == State(s.rows[c.sandbox := Moved(c.copy, Terminated, now).value], s.calls - {call},
                     s.outbox + [SandboxTerminated(c.sandbox)])
  {
  }

  datatype ProvisionResult = SandboxReady | SandboxFailed(code: string)

  datatype TerminateResult = TerminateDone | TerminateNotFound | TerminateRefused(error: TransitionError)

  /** What became of the command in the container. */
  datatype BackendOutcome = Exited(code: int) | TimedOut | Raised

  datatype ToolResult =
    | ToolCompleted
    | ToolNonZeroExit(code: int)
    | ToolTimedOut
    | ToolErrored
    | ToolInvalidRequest
    | ToolNotFound
    | ToolSandboxBusy(current: Status)
    | ToolTypeNotAllowed
    | ToolFinishRefused(error: TransitionError)

  /** The command has run, and its answer has been committed. */
  predicate HasRun(result: ToolResult) {
    result.ToolCompleted? || result.ToolNonZeroExit? || result.ToolTimedOut? || result.ToolErrored?
  }

  /** Why a claim of a sandbox is refused. */
  function Refusal(rows: map<SandboxId, Row>, id: SandboxId): ToolResult {
    if id !in rows then ToolNotFound
    else if rows[id].status !in {Ready, Idle} then ToolSandboxBusy(rows[id].status)
    else ToolTypeNotAllowed
  }

  function ResultOf(outcome: BackendOutcome): ToolResult {
    match outcome
    case Exited(code) => if code == 0 then ToolCompleted else ToolNonZeroExit(code)
    case TimedOut => ToolTimedOut
    case Raised => ToolErrored
  }

  datatype RecoveryAction = MarkedAsFailed | SkippedAlreadyTerminal | SkippedNoLongerStuck | ReconciliationFailed

  datatype Recovery = Recovery(sandbox: SandboxId, previous: Status, action: RecoveryAction)

  /** How long a sandbox may stay in a status before the sweep gives up on it. */
  datatype Timeouts = Timeouts(provisioning: int, executing: int) {
    function Shorter(): int {
      if provisioning < executing then provisioning else executing
    }

    function For(status: Status): int {
      if status == Provisioning then provisioning else executing
    }
  }

  /** What the sweep's query looks for. */
  predicate IsCandidate(r: Row, stuckBefore: int) {
    IsSweepable(r.status) && r.updatedAt < stuckBefore
  }

  /** An entity of the snapshot that the query returns. */
  datatype Found = Found(sandbox: SandboxId, row: Row)

  const SWEEP_LIMIT := 100

  /** The candidates, oldest first; those left out are no older, and are left out only when the
    * limit is reached. */
  ghost predicate IsListing(listed: seq<Found>, rows: map<SandboxId, Row>, stuckBefore: int) {
    && |listed| <= 100
    && (forall i :: 0 <= i < |listed| ==>
          && listed[i].sandbox in rows && listed[i].row == rows[listed[i].sandbox]
          && IsCandidate(listed[i].row, stuckBefore))
    && (forall i, j :: 0 <= i < j < |listed| ==>
          listed[i].sandbox != listed[j].sandbox && listed[i].row.updatedAt <= listed[j].row.updatedAt)
    && (forall id :: id in rows && IsCandidate(rows[id], stuckBefore) && id !in Ids(listed) ==>
          && |listed| == 100
          && forall i :: 0 <= i < |listed| ==> listed[i].row.updatedAt <= rows[id].updatedAt)
  }

  function Ids(found: seq<Found>): set<SandboxId> {
    set f | f in found :: f.sandbox
  }

  /** Those that have also been in their status for the timeout of that status. */
  function Overdue(listed: seq<Found>, timeouts: Timeouts, now: int): seq<Found> {
    if listed == [] then []
    else
      var before, last := Overdue(listed[..|listed| - 1], timeouts, now), listed[|listed| - 1];
      if last.row.updatedAt <= now - timeouts.For(last.row.status) then before + [last] else before
  }

  /** In PROVISIONING or EXECUTING for the timeout of that status, and longer than the shorter one. */
  predicate IsStuck(r: Row, timeouts: Timeouts, now: int) {
    && (r.updatedAt < now - timeouts.provisioning || r.updatedAt < now - timeouts.executing)
    && match r.status
       case Provisioning => r.updatedAt <= now - timeouts.provisioning
       case Executing => r.updatedAt <= now - timeouts.executing
       case _ => false
  }

  /** What the database does in the transaction of a recovery. */
  datatype Database = Works | LoadFails | CommitFails

  class ExecutionService {
    var rows: map<SandboxId, Row>
    var outbox: seq<Event>
    /** The calls in their gaps; the copies they carry are theirs, not the database's. */
    var calls: map<CallId, Call>

    ghost function View(): State
      reads this
    {
      State(rows, calls, outbox)
    }

    constructor ()
      ensures View() == NOTHING
    {
      rows, calls, outbox := map[], map[], [];
    }

    method Interleave(others: seq<Action>)
      modifies this
      ensures View() == RunFrom(old(View()), others)
    {
      var s := RunFrom(State(rows, calls, outbox), others);
      rows, calls, outbox := s.rows, s.calls, s.outbox;
    }

    method ProvisionSandbox(
      call: CallId, id: SandboxId, sandboxType: SandboxType, start: int,
      others: seq<Action>, backendWorks: bool, finish: int) returns (result: ProvisionResult)
      requires call !in calls && id !in rows && LeaveAlone(others, call)
      modifies this
      ensures View() == RunFrom(old(View()), [ProvisionBegin(call, id, sandboxType, start)] + others
                                             + [ProvisionFinish(call, backendWorks, finish)])
      ensures result == if backendWorks then SandboxReady else SandboxFailed(PROVISION_ERROR)
      ensures call !in calls && id in rows
      ensures rows[id] == if backendWorks then Row(sandboxType, Ready, finish, None, None)
                          else Row(sandboxType, Failed, finish, None, Some("PROVISION_ERROR"))
      ensures |outbox| > 0 && outbox[|outbox| - 1] == if backendWorks then Provisioned(id) else ProvisionFailed(id)
    {
      ghost var s := View();
      var sandbox := new Sandbox(NewRow(sandboxType, start));
      rows := rows[id := sandbox.View()];
      outbox := outbox + [ProvisionRequested(id)];
      calls := calls[call := Provisions(id, sandbox.View())];
      Interleave(others);
      OthersKeepCall(Next(s, ProvisionBegin(call, id, sandboxType, start)), others, call);
      RunOfThree(s, ProvisionBegin(call, id, sandboxType, start), others, ProvisionFinish(call, backendWorks, finish));
      if !backendWorks {
        var error := sandbox.MarkFailed(PROVISION_ERROR, finish);
        assert error.None?;
        rows := rows[id := sandbox.View()];
        outbox := outbox + [ProvisionFailed(id)];
        calls := calls - {call};
        return SandboxFailed(PROVISION_ERROR);
      }
      var error := sandbox.Transition(Ready, finish);
      assert error.None?;
      rows := rows[id := sandbox.View()];
      outbox := outbox + [Provisioned(id)];
      calls := calls - {call};
      return SandboxReady;
    }

    method TerminateSandbox(
      call: CallId, id: SandboxId, reason: Reason, start: int,
      others: seq<Action>, finish: int) returns (result: TerminateResult)
      requires call !in calls && LeaveAlone(others, call)
      modifies this
      ensures result == TerminateDone ==>
        && View() == RunFrom(old(View()), [TerminateBegin(call, id, reason, start)] + others
                                          + [TerminateFinish(call, finish)])
        && id in rows && id in old(rows)
        && rows[id] == old(rows)[id].(status := Terminated, updatedAt := finish, terminationReason := Some(reason))
        && |outbox| > 0 && outbox[|outbox| - 1] == SandboxTerminated(id)
      ensures result != TerminateDone ==> View() == old(View())
      ensures result == TerminateNotFound <==> id !in old(rows)
      ensures result.TerminateRefused? ==>
                id in old(rows) && Describes(result.error, old(rows)[id].status, Terminating)
      ensures result == TerminateDone <==>
        id in old(rows) && old(rows)[id].status in {Ready, Executing, Idle, Failed}
    {
      hide RunFrom, Next;
      if id !in rows {
        return TerminateNotFound;
      }
      ghost var s := View();
      var sandbox := new Sandbox(rows[id]);
      var error := sandbox.MarkTerminating(reason, start);
      if error.Some? {
        return TerminateRefused(error.value);
      }
      rows := rows[id := sandbox.View()];
      outbox := outbox + [TerminationRequested(id)];
      calls := calls[call := Terminates(id, sandbox.View())];
      ghost var begun := Next(s, TerminateBegin(call, id, reason, start));
      TerminateBeginCommits(s, call, id, reason, start);
      Interleave(others);
      OthersKeepCall(begun, others, call);
      TerminateFinishCommits(View(), call, finish);
      RunOfThree(s, TerminateBegin(call, id, reason, start), others, TerminateFinish(call, finish));
      error := sandbox.Transition(Terminated, finish);
      assert error.None?;
      rows := rows[id := sandbox.View()];
      outbox := outbox + [SandboxTerminated(id)];
      calls := calls - {call};
      return TerminateDone;
    }

    /** The claim: the row is loaded under lock and moved to EXECUTING, or nothing happens. */
    method ClaimForExecution(call: CallId, id: SandboxId, allowedTypes: set<SandboxType>, now: int)
      returns (refusal: Option<ToolResult>)
      requires call !in calls
      modifies this
      ensures View() == Next(old(View()), Claim(call, id, allowedTypes, now))
      ensures refusal.None? <==>
                id in old(rows) && old(rows)[id].status in {Ready, Idle} && old(rows)[id].sandboxType in allowedTypes
      ensures refusal.None? ==>
                && calls == old(calls)[call := Executes(id)]
                && rows == old(rows)[id := old(rows)[id].(status := Executing, updatedAt := now)]
                && outbox == old(outbox) + [ToolRequested(id, call)]
      ensures refusal.Some? ==> View() == old(View())
      ensures refusal.Some? ==> refusal.value == Refusal(old(rows), id)
      ensures refusal.Some? ==>
                match refusal.value
                case ToolNotFound => id !in old(rows)
                case ToolSandboxBusy(current) =>
                  id in old(rows) && old(rows)[id].status == current && current !in {Ready, Idle}
                case ToolTypeNotAllowed =>
                  && id in old(rows) && old(rows)[id].status in {Ready, Idle}
                  && old(rows)[id].sandboxType !in allowedTypes
                case _ => false
    {
      if id !in rows {
        return Some(ToolNotFound);
      }
      var sandbox := new Sandbox(rows[id]);
      if sandbox.status !in {Ready, Idle} {
        return Some(ToolSandboxBusy(sandbox.status));
      }
      var error := sandbox.Transition(Executing, now);
      assert error.None?;
      if sandbox.sandboxType !in allowedTypes {
        return Some(ToolTypeNotAllowed);
      }
      rows := rows[id := sandbox.View()];
      outbox := outbox + [ToolRequested(id, call)];
      calls := calls[call := Executes(id)];
      return None;
    }

    /** The finishing transaction, of a finished command as of a failed one: the row is loaded
      * again, and a row that is no longer EXECUTING makes the whole transaction fail. */
    method FinishExecution(call: CallId, id: SandboxId, succeeded: bool, now: int)
      returns (error: Option<TransitionError>)
      requires call in calls && calls[call] == Executes(id)
      modifies this
      ensures View() == Next(old(View()), ExecuteFinish(call, succeeded, now))
      ensures error.Some? <==> id in old(rows) && old(rows)[id].status != Executing
      ensures error.Some? ==>
                rows == old(rows) && outbox == old(outbox) && Describes(error.value, old(rows)[id].status, Idle)
      ensures error.None? ==>
                && rows == (if id in old(rows) then
                              old(rows)[id := old(rows)[id].(status := Idle, updatedAt := now)]
                            else old(rows))
                && outbox == old(outbox) + [if succeeded then ToolSucceeded(id, call) else ToolFailed(id, call)]
    {
      calls := calls - {call};
      if id in rows {
        var sandbox := new Sandbox(rows[id]);
        error := sandbox.Transition(Idle, now);
        if error.Some? {
          return;
        }
        rows := rows[id := sandbox.View()];
      }
      outbox := outbox + [if succeeded then ToolSucceeded(id, call) else ToolFailed(id, call)];
      return None;
    }

    method ExecuteTool(
      call: CallId, id: SandboxId, requestIsValid: bool, timeoutMs: int, allowedTypes: set<SandboxType>, start: int,
      others: seq<Action>, outcome: BackendOutcome, finish: int) returns (result: ToolResult)
      requires call !in calls && LeaveAlone(others, call)
      modifies this
      ensures var ran := requestIsValid && timeoutMs > 0 && id in old(rows) && IsClaimable(old(rows)[id], allowedTypes);
              var claim, end := Claim(call, id, allowedTypes, start), ExecuteFinish(call, outcome == Exited(0), finish);
              var before := RunFrom(Next(old(View()), claim), others);
              if ran then
                && View() == RunFrom(old(View()), [claim] + others + [end])
                && (if id in before.rows && before.rows[id].status != Executing then result.ToolFinishRefused?
                    else result == ResultOf(outcome))
              else
                && View() == old(View())
                && result == if !requestIsValid || timeoutMs <= 0 then ToolInvalidRequest else Refusal(old(rows), id)
      ensures result.ToolInvalidRequest? <==> !requestIsValid || timeoutMs <= 0
      ensures result.ToolCompleted? ==> outcome == Exited(0)
      ensures result.ToolNonZeroExit? ==> result.code != 0 && outcome == Exited(result.code)
      ensures result.ToolTimedOut? ==> outcome.TimedOut?
      ensures result.ToolErrored? ==> outcome.Raised?
      ensures HasRun(result) ==>
                && |outbox| > 0
                && outbox[|outbox| - 1]
                   == if outcome == Exited(0) then ToolSucceeded(id, call) else ToolFailed(id, call)
      ensures HasRun(result) || result.ToolFinishRefused? <==>
                && requestIsValid && timeoutMs > 0
                && id in old(rows) && old(rows)[id].status in {Ready, Idle} && old(rows)[id].sandboxType in allowedTypes
    {
      if !requestIsValid || timeoutMs <= 0 {
        return ToolInvalidRequest;
      }
      ghost var s := View();
      var refusal := ClaimForExecution(call, id, allowedTypes, start);
      if refusal.Some? {
        return refusal.value;
      }
      Interleave(others);
      OthersKeepCall(Next(s, Claim(call, id, allowedTypes, start)), others, call);
      RunOfThree(s, Claim(call, id, allowedTypes, start), others, ExecuteFinish(call, outcome == Exited(0), finish));
      var error := FinishExecution(call, id, outcome == Exited(0), finish);
      if error.Some? {
        return ToolFinishRefused(error.value);
      }
      match outcome
      case Exited(code) => return if code == 0 then ToolCompleted else ToolNonZeroExit(code);
      case TimedOut => return ToolTimedOut;
      case Raised => return ToolErrored;
    }

    // The recovery sweep

    /** The snapshot that the sweep starts from. */
    method ListStuck(stuckBefore: int) returns (stuck: seq<Found>)
      ensures IsListing(stuck, rows, stuckBefore)
    {
      stuck := [];
      var todo := set id | id in rows && IsCandidate(rows[id], stuckBefore);
      while todo != {} && |stuck| < SWEEP_LIMIT
        invariant |stuck| <= SWEEP_LIMIT
        invariant forall id :: id in todo ==> id in rows && IsCandidate(rows[id], stuckBefore) && id !in Ids(stuck)
        invariant forall id :: id in rows && IsCandidate(rows[id], stuckBefore) ==> id in todo || id in Ids(stuck)
        invariant forall i :: 0 <= i < |stuck| ==>
                    && stuck[i].sandbox in rows && stuck[i].row == rows[stuck[i].sandbox]
                    && IsCandidate(stuck[i].row, stuckBefore)
        invariant forall i, j :: 0 <= i < j < |stuck| ==>
                    stuck[i].sandbox != stuck[j].sandbox && stuck[i].row.updatedAt <= stuck[j].row.updatedAt
        invariant forall i, id :: 0 <= i < |stuck| && id in todo ==> stuck[i].row.updatedAt <= rows[id].updatedAt
        decreases todo
      {
        var oldest := Oldest(todo);
        IdsOfOneMore(stuck, Found(oldest, rows[oldest]));
        stuck := stuck + [Found(oldest, rows[oldest])];
        todo := todo - {oldest};
      }
    }

    method Oldest(ids: set<SandboxId>) returns (oldest: SandboxId)
      requires ids != {} && ids <= rows.Keys
      ensures oldest in ids
      ensures forall id :: id in ids ==> rows[oldest].updatedAt <= rows[id].updatedAt
    {
      oldest :| oldest in ids;
      var todo := ids - {oldest};
      while todo != {}
        invariant todo <= ids && oldest in ids
        invariant forall id :: id in ids - todo ==> rows[oldest].updatedAt <= rows[id].updatedAt
        decreases todo
      {
        var id :| id in todo;
        if rows[id].updatedAt < rows[oldest].updatedAt {
          oldest := id;
        }
        todo := todo - {id};
      }
    }

    /** Cleans up the backend while other calls go on, then decides on the row as it is by then.
      * A transaction that fails commits nothing. */
    method RecoverSingleSandbox(id: SandboxId, previous: Status, others: seq<Action>, database: Database, now: int)
      returns (recovery: Recovery)
      modifies this
      ensures View() == RunFrom(old(View()), ScheduleOfOne(recovery, others, now))
      ensures recovery.sandbox == id && recovery.previous == previous
      ensures var found := RunFrom(old(View()), others).rows;
              recovery.action ==
                (if database.LoadFails? then ReconciliationFailed
                 else if id !in found || found[id].status == Terminated then SkippedAlreadyTerminal
                 else if !IsSweepable(found[id].status) then SkippedNoLongerStuck
                 else if database.CommitFails? then ReconciliationFailed
                 else MarkedAsFailed)
      ensures recovery.action.MarkedAsFailed? ==>
                var found := RunFrom(old(View()), others).rows;
                && id in found && found[id].status in {Provisioning, Executing}
                && rows == found[
                             id := found[id].(
                               status := Failed, updatedAt := now, errorDetail := Some("RECOVERY_SWEEP"))]
                && outbox == RunFrom(old(View()), others).outbox + [Recovered(id)]
    {
      RunOneMoreFrom(View(), others, Sweep(id, now));
      Interleave(others);
      if database.LoadFails? {
        return Recovery(id, previous, ReconciliationFailed);
      }
      if id !in rows || rows[id].status == Terminated {
        return Recovery(id, previous, SkippedAlreadyTerminal);
      }
      var sandbox := new Sandbox(rows[id]);
      if !IsSweepable(sandbox.status) {
        return Recovery(id, previous, SkippedNoLongerStuck);
      }
      var error := sandbox.MarkFailed(RECOVERY_SWEEP, now);
      assert error.None?;
      if database.CommitFails? {
        return Recovery(id, previous, ReconciliationFailed);
      }
      rows := rows[id := sandbox.View()];
      outbox := outbox + [Recovered(id)];
      return Recovery(id, previous, MarkedAsFailed);
    }

    /** `others(id)` is what other calls commit while sandbox `id` is being cleaned up. Left
      * alone, the sweep fails exactly the listed rows that are overdue. */
    method RecoverStuckSandboxes(
      timeouts: Timeouts, now: int, others: SandboxId -> seq<Action>, database: SandboxId -> Database)
      returns (results: seq<Recovery>, ghost listed: seq<Found>)
      modifies this
      ensures IsListing(listed, old(rows), now - timeouts.Shorter())
      ensures AreOf(results, Overdue(listed, timeouts, now))
      ensures forall i, j :: 0 <= i < j < |results| ==> results[i].sandbox != results[j].sandbox
      ensures View() == RunFrom(old(View()), ScheduleOf(results, others, now))
      ensures IsUndisturbed(others, database) ==> rows == SweptRows(old(rows), Overdue(listed, timeouts, now), now)
    {
      hide RunFrom, Next, SweptRows, IsListing, ScheduleOf, ScheduleOfOne, MarkedFailed, Overdue, Ids;
      ghost var s := View();
      var stuck := ListStuck(now - timeouts.Shorter());
      listed := stuck;
      results := [];
      NothingSweptYet(s, others, timeouts, now);
      for i := 0 to |stuck|
        invariant AreOf(results, Overdue(stuck[..i], timeouts, now))
        invariant View() == RunFrom(s, ScheduleOf(results, others, now))
        invariant IsUndisturbed(others, database) ==>
                    rows == SweptRows(s.rows, Overdue(stuck[..i], timeouts, now), now)
      {
        OverdueOfOneMore(stuck, i, timeouts, now);
        var sandbox := stuck[i];
        var cutoff := now - timeouts.For(sandbox.row.status);
        if sandbox.row.updatedAt > cutoff {
          continue;
        }
        ghost var before := View();
        var id := sandbox.sandbox;
        var recovery := RecoverSingleSandbox(id, sandbox.row.status, others(id), database(id), now);
        ScheduleOfOneMore(s, results, recovery, others, now);
        if IsUndisturbed(others, database) {
          QuietSweep(before, View(), s.rows, listed, i, timeouts, now, recovery);
        }
        results := results + [recovery];
      }
      assert stuck[..|stuck|] == stuck;
      ResultsAreDistinct(results, listed, s.rows, timeouts, now);
    }
  }

  /** One result for each sandbox, in order. */
  ghost predicate AreOf(results: seq<Recovery>, found: seq<Found>) {
    && |results| == |found|
    && forall i :: 0 <= i < |results| ==>
         results[i].sandbox == found[i].sandbox && results[i].previous == found[i].row.status
  }

  /** What a recovery lets happen: the actions of others, and its own unless that failed. */
  function ScheduleOfOne(r: Recovery, others: seq<Action>, now: int): seq<Action> {
    if r.action == ReconciliationFailed then others else others + [Sweep(r.sandbox, now)]
  }

  function ScheduleOf(results: seq<Recovery>, others: SandboxId -> seq<Action>, now: int): seq<Action> {
    if results == [] then []
    else
      var last := results[|results| - 1];
      ScheduleOf(results[..|results| - 1], others, now) + ScheduleOfOne(last, others(last.sandbox), now)
  }

  ghost predicate IsUndisturbed(others: SandboxId -> seq<Action>, database: SandboxId -> Database) {
    forall id :: others(id) == [] && database(id) == Works
  }

  /** The rows with those found marked as failed. */
  function SweptRows(rows: map<SandboxId, Row>, found: seq<Found>, now: int): map<SandboxId, Row> {
    map id | id in rows ::
      if id in Ids(found) then rows[id].(status := Failed, updatedAt := now, errorDetail := Some(RECOVERY_SWEEP))
      else rows[id]
  }

  lemma IdsOfOneMore(found: seq<Found>, f: Found)
    ensures Ids(found + [f]) == Ids(found) + {f.sandbox}
  {
    var more := found + [f];
    assert more[|found|] == f;
    assert forall g :: g in more <==> g in found || g == f;
  }

  lemma NothingSweptYet(s: State, others: SandboxId -> seq<Action>, timeouts: Timeouts, now: int)
    ensures SweptRows(s.rows, [], now) == s.rows && Overdue([], timeouts, now) == []
    ensures RunFrom(s, ScheduleOf([], others, now)) == s
  {
  }

  lemma ScheduleOfOneMore(s: State, results: seq<Recovery>, r: Recovery, others: SandboxId -> seq<Action>, now: int)
    ensures RunFrom(s, ScheduleOf(results + [r], others, now))
         == RunFrom(RunFrom(s, ScheduleOf(results, others, now)), ScheduleOfOne(r, others(r.sandbox), now))
  {
    hide RunFrom, ScheduleOfOne;
    assert (results + [r])[..|results|] == results;
    RunOnFrom(s, ScheduleOf(results, others, now), ScheduleOfOne(r, others(r.sandbox), now));
  }

  lemma OverdueOfOneMore(listed: seq<Found>, i: nat, timeouts: Timeouts, now: int)
    requires i < |listed|
    ensures Overdue(listed[..i + 1], timeouts, now)
         == if listed[i].row.updatedAt <= now - timeouts.For(listed[i].row.status)
            then Overdue(listed[..i], timeouts, now) + [listed[i]]
            else Overdue(listed[..i], timeouts, now)
  {
    assert listed[..i + 1][..i] == listed[..i];
  }

  predicate AreDistinct(found: seq<Found>) {
    forall i, j :: 0 <= i < j < |found| ==> found[i].sandbox != found[j].sandbox
  }

  lemma {:induction false} OverdueIs(listed: seq<Found>, timeouts: Timeouts, now: int)
    ensures forall f :: f in Overdue(listed, timeouts, now) <==>
              f in listed && f.row.updatedAt <= now - timeouts.For(f.row.status)
    ensures AreDistinct(listed) ==> AreDistinct(Overdue(listed, timeouts, now))
  {
    if listed != [] {
      var n := |listed| - 1;
      OverdueIs(listed[..n], timeouts, now);
      assert listed == listed[..n] + [listed[n]];
      assert AreDistinct(listed) ==> forall f :: f in listed[..n] ==> f.sandbox != listed[n].sandbox;
    }
  }

  /** What the sweep handles: each sandbox once, only stuck ones, and all of them unless the
    * limit is reached by candidates that are at least as old. */
  lemma SweepHandlesTheStuck(listed: seq<Found>, rows: map<SandboxId, Row>, timeouts: Timeouts, now: int)
    requires IsListing(listed, rows, now - timeouts.Shorter())
    ensures AreDistinct(Overdue(listed, timeouts, now))
    ensures forall id :: id in Ids(Overdue(listed, timeouts, now)) ==> id in rows && IsStuck(rows[id], timeouts, now)
    ensures forall id :: id in rows && IsStuck(rows[id], timeouts, now) ==>
              id in Ids(Overdue(listed, timeouts, now))
              || (|listed| == 100
                  && forall i :: 0 <= i < |listed| ==> listed[i].row.updatedAt <= rows[id].updatedAt)
  {
    OverdueIs(listed, timeouts, now);
    forall id | id in rows && IsStuck(rows[id], timeouts, now) && id in Ids(listed)
      ensures id in Ids(Overdue(listed, timeouts, now))
    {
      var f :| f in listed && f.sandbox == id;
      assert f in Overdue(listed, timeouts, now);
    }
  }

  lemma ResultsAreDistinct(
    results: seq<Recovery>, listed: seq<Found>, rows: map<SandboxId, Row>, timeouts: Timeouts, now: int)
    requires IsListing(listed, rows, now - timeouts.Shorter()) && AreOf(results, Overdue(listed, timeouts, now))
    ensures forall i, j :: 0 <= i < j < |results| ==> results[i].sandbox != results[j].sandbox
  {
    hide IsListing, Overdue;
    SweepHandlesTheStuck(listed, rows, timeouts, now);
  }

  /** A listed sandbox has not been looked at before, so its row is still as it was listed. */
  lemma NextIsUnswept(rows: map<SandboxId, Row>, listed: seq<Found>, i: nat, timeouts: Timeouts, now: int)
    requires i < |listed| && IsListing(listed, rows, now - timeouts.Shorter())
    ensures listed[i].sandbox !in Ids(Overdue(listed[..i], timeouts, now))
    ensures listed[i].sandbox in rows && IsSweepable(rows[listed[i].sandbox].status)
  {
    OverdueIs(listed[..i], timeouts, now);
  }

  lemma QuietSweep(
    before: State, after: State, rows: map<SandboxId, Row>, listed: seq<Found>, i: nat, timeouts: Timeouts, now: int,
    r: Recovery)
    requires i < |listed| && IsListing(listed, rows, now - timeouts.Shorter())
    requires before.rows == SweptRows(rows, Overdue(listed[..i], timeouts, now), now)
    requires r.sandbox == listed[i].sandbox && r.action != ReconciliationFailed
    requires after == RunFrom(before, ScheduleOfOne(r, [], now))
    ensures after.rows == SweptRows(rows, Overdue(listed[..i], timeouts, now) + [listed[i]], now)
  {
    hide IsListing, RunFrom, Overdue;
    NextIsUnswept(rows, listed, i, timeouts, now);
    IdsOfOneMore(Overdue(listed[..i], timeouts, now), listed[i]);
    RunOneMoreFrom(before, [], Sweep(r.sandbox, now));
    RunOfNothing(before);
  }

  lemma RunOfNothing(s: State)
    ensures RunFrom(s, []) == s
  {
  }

  lemma {:induction false} RunOnFrom(s: State, actions: seq<Action>, more: seq<Action>)
    ensures RunFrom(s, actions + more) == RunFrom(RunFrom(s, actions), more)
  {
    if more == [] {
      assert actions + more == actions;
    } else {
      assert (actions + more)[..|actions + more| - 1] == actions + more[..|more| - 1];
      RunOnFrom(s, actions, more[..|more| - 1]);
    }
  }

  lemma RunOneMoreFrom(s: State, actions: seq<Action>, a: Action)
    ensures RunFrom(s, actions + [a]) == Next(RunFrom(s, actions), a)
  {
    assert (actions + [a])[..|actions|] == actions;
  }
}
