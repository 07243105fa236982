/** The sandbox entity and its state machine. Times are whole minutes. */
module Sandboxes {
  import opened Options
  import opened Results

  datatype SandboxType = Container | Subprocess
  datatype Status = Provisioning | Ready | Executing | Idle | Terminating | Terminated | Failed
  datatype Reason = Completed | Timeout | PolicyViolation | Error | Manual

  /** FAILED is not terminal: it still leads to TERMINATING for cleanup. */
  function NextStatuses(s: Status): set<Status> {
    match s
    case Provisioning => {Ready, Failed}
    case Ready => {Executing, Terminating}
    case Executing => {Idle, Failed, Terminating}
    case Idle => {Executing, Terminating}
    case Failed => {Terminating}
    case Terminating => {Terminated}
    case Terminated => {}
  }

  /** The table read backwards: how each status is entered. */
  lemma EnteredFrom(current: Status, target: Status)
    ensures target in NextStatuses(current) <==>
              match target
              case Provisioning => false
              case Ready => current == Provisioning
              case Executing => current in {Ready, Idle}
              case Idle => current == Executing
              case Failed => current in {Provisioning, Executing}
              case Terminating => current in {Ready, Executing, Idle, Failed}
              case Terminated => current == Terminating
  {
  }

  datatype TransitionError = TerminalState(current: Status, target: Status)
                           | InvalidTransition(current: Status, target: Status)

  /** What is stored of a sandbox. */
  datatype Row = Row(
    sandboxType: SandboxType, status: Status, updatedAt: int,
    terminationReason: Option<Reason>, errorDetail: Option<string>)

  function NewRow(sandboxType: SandboxType, now: int): Row {
    Row(sandboxType, Provisioning, now, None, None)
  }

  function Moved(r: Row, target: Status, now: int): Result<Row, TransitionError> {
    if r.status == Terminated then Err(TerminalState(r.status, target))
    else if target !in NextStatuses(r.status) then Err(InvalidTransition(r.status, target))
    else Ok(r.(status := target, updatedAt := now))
  }

  /** The error names both statuses, and is terminal exactly when nothing follows the current one. */
  predicate Describes(error: TransitionError, current: Status, target: Status) {
    error.current == current && error.target == target && (error.TerminalState? <==> NextStatuses(current) == {})
  }

  function MarkedFailed(r: Row, detail: string, now: int): Result<Row, TransitionError> {
    var moved := Moved(r, Failed, now);
    if moved.Ok? then Ok(moved.value.(errorDetail := Some(detail))) else moved
  }

  function MarkedTerminating(r: Row, reason: Reason, now: int): Result<Row, TransitionError> {
    var moved := Moved(r, Terminating, now);
    if moved.Ok? then Ok(moved.value.(terminationReason := Some(reason))) else moved
  }

  /** The entity in memory: what a call loads, changes and saves, and may carry from one
    * transaction to the next. */
  class Sandbox {
    const sandboxType: SandboxType
    var status: Status
    var updatedAt: int
    var terminationReason: Option<Reason>
    var errorDetail: Option<string>

    function View(): Row
      reads this
    {
      Row(sandboxType, status, updatedAt, terminationReason, errorDetail)
    }

    constructor (r: Row)
      ensures View() == r
    {
      sandboxType, status, updatedAt := r.sandboxType, r.status, r.updatedAt;
      terminationReason, errorDetail := r.terminationReason, r.errorDetail;
    }

    method Transition(target: Status, now: int) returns (error: Option<TransitionError>)
      modifies `status, `updatedAt
      ensures error == ErrorOf(Moved(old(View()), target, now))
      ensures View() == ValueOr(Moved(old(View()), target, now), old(View()))
      ensures error.None? <==> target in NextStatuses(old(status))
      ensures error.Some? ==> Describes(error.value, old(status), target)
    {
      if status == Terminated {
        return Some(TerminalState(status, target));
      }
      if target !in NextStatuses(status) {
        return Some(InvalidTransition(status, target));
      }
      status, updatedAt := target, now;
      return None;
    }

    method MarkFailed(detail: string, now: int) returns (error: Option<TransitionError>)
      modifies this
      ensures error == ErrorOf(MarkedFailed(old(View()), detail, now))
      ensures View() == ValueOr(MarkedFailed(old(View()), detail, now), old(View()))
    {
      error := Transition(Failed, now);
      if error.None? {
        errorDetail := Some(detail);
      }
    }

    method MarkTerminating(reason: Reason, now: int) returns (error: Option<TransitionError>)
      modifies this
      ensures error == ErrorOf(MarkedTerminating(old(View()), reason, now))
      ensures View() == ValueOr(MarkedTerminating(old(View()), reason, now), old(View()))
    {
      error := Transition(Terminating, now);
      if error.None? {
        terminationReason := Some(reason);
      }
    }
  }
}
