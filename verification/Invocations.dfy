/** The agent invocation: its state machine, what it stores, and the entity in memory. */
module Invocations {
  import opened Options
  import opened Utf8

  datatype Status =
    | Initializing | Starting | Running | WaitingHuman | WaitingTool | Completed | Failed | TimedOut
    | Cancelled | Interrupted | Compensating | Compensated

  function NextStatuses(s: Status): set<Status> {
    match s
    case Initializing => {Starting, Cancelled, Failed}
    case Starting => {Running, Failed, Cancelled}
    case Running => {WaitingHuman, WaitingTool, Completed, Failed, TimedOut, Cancelled, Interrupted}
    case WaitingHuman => {Running, Failed, Cancelled, Interrupted}
    case WaitingTool => {Running, Failed, Cancelled, Interrupted}
    case Completed => {}
    case Failed => {Compensating}
    case TimedOut => {Compensating}
    case Cancelled => {}
    case Interrupted => {Compensating}
    case Compensating => {Compensated, Failed}
    case Compensated => {}
  }

  predicate IsTerminal(s: Status) {
    s in {Completed, Cancelled, Compensated}
  }

  predicate IsAllowed(current: Status, target: Status) {
    !IsTerminal(current) && target in NextStatuses(current)
  }

  /** The table read backwards: how each status is entered. */
  lemma EnteredFrom(current: Status, target: Status)
    ensures IsAllowed(current, target) <==>
              match target
              case Initializing => false
              case Starting => current == Initializing
              case Running => current in {Starting, WaitingHuman, WaitingTool}
              case WaitingHuman | WaitingTool | Completed | TimedOut => current == Running
              case Interrupted => current in {Running, WaitingHuman, WaitingTool}
              case Cancelled => current in {Initializing, Starting, Running, WaitingHuman, WaitingTool}
              case Failed => current in {Initializing, Starting, Running, WaitingHuman, WaitingTool, Compensating}
              case Compensating => current in {Failed, TimedOut, Interrupted}
              case Compensated => current == Compensating
  {
  }

  // Tool calls and messages

  /** Decoded tool arguments: the size of their JSON text and the two fields that are read. */
  datatype ToolInput = ToolInput(jsonSize: nat, code: string, command: string)

  const EMPTY_INPUT := ToolInput(2, "", "")

  /** Arguments that do not decode count as an empty object. */
  datatype Arguments = NotDecodable | Decoded(input: ToolInput)

  datatype ToolCall = ToolCall(id: string, name: string, arguments: Arguments)

  function InputOf(call: ToolCall): ToolInput {
    if call.arguments.Decoded? then call.arguments.input else EMPTY_INPUT
  }

  datatype Message =
    | User(text: ScalarText)
    | Assistant(said: Option<ScalarText>, calls: seq<ToolCall>)
    | ToolOutput(callId: string, output: Text)

  /** A sandbox id as the request gives it: none or an empty one, one that names a sandbox, or
    * one that does not parse. */
  datatype SandboxText = NoSandbox | Uuid(id: nat) | Malformed

  /** What a pause has to remember. */
  datatype Pending = Pending(
    calls: seq<ToolCall>, messages: seq<Message>, outputText: ScalarText,
    promptTokens: int, completionTokens: int, sandbox: SandboxText, gatedTool: string)

  datatype Invocation = Invocation(
    status: Status, inputMessages: seq<Message>, pending: Option<Pending>,
    outputText: Option<ScalarText>, calls: seq<ToolCall>,
    promptTokens: Option<int>, completionTokens: Option<int>, error: Option<string>)

  const NEW_INVOCATION := Invocation(Initializing, [], None, None, [], None, None, None)

  /** A legal transition; an illegal one cannot be written down. */
  function Move(inv: Invocation, target: Status): Invocation
    requires IsAllowed(inv.status, target)
  {
    inv.(status := target)
  }

  class AgentInvocation {
    var status: Status
    var inputMessages: seq<Message>
    var pending: Option<Pending>
    var outputText: Option<ScalarText>
    var calls: seq<ToolCall>
    var promptTokens: Option<int>
    var completionTokens: Option<int>
    var error: Option<string>

    function View(): Invocation
      reads this
    {
      Invocation(status, inputMessages, pending, outputText, calls, promptTokens, completionTokens, error)
    }

    constructor (inv: Invocation)
      ensures View() == inv
    {
      status, inputMessages, pending := inv.status, inv.inputMessages, inv.pending;
      outputText, calls := inv.outputText, inv.calls;
      promptTokens, completionTokens, error := inv.promptTokens, inv.completionTokens, inv.error;
    }

    /** False stands for the two transition errors; a refused transition changes nothing. */
    method Transition(target: Status) returns (ok: bool)
      modifies `status
      ensures ok <==> IsAllowed(old(status), target)
      ensures View() == if ok then Move(old(View()), target) else old(View())
    {
      if IsTerminal(status) {
        return false;
      }
      if target !in NextStatuses(status) {
        return false;
      }
      status := target;
      return true;
    }

    method MarkRunning(messages: seq<Message>) returns (ok: bool)
      modifies this
      ensures ok <==> IsAllowed(old(status), Running)
      ensures View() == if ok then Move(old(View()), Running).(inputMessages := messages) else old(View())
    {
      ok := Transition(Running);
      if ok {
        inputMessages := messages;
      }
    }

    method MarkWaitingHuman(context: Pending) returns (ok: bool)
      modifies this
      ensures ok <==> IsAllowed(old(status), WaitingHuman)
      ensures View() == if ok then Move(old(View()), WaitingHuman).(pending := Some(context)) else old(View())
    {
      ok := Transition(WaitingHuman);
      if ok {
        pending := Some(context);
      }
    }

    method MarkCompleted(text: ScalarText, toolCalls: seq<ToolCall>, prompt: int, completion: int) returns (ok: bool)
      modifies this
      ensures ok <==> IsAllowed(old(status), Completed)
      ensures View() == if ok then
                          Move(old(View()), Completed).(
                            outputText := Some(text), calls := if toolCalls == [] then old(calls) else toolCalls,
                            promptTokens := Some(prompt), completionTokens := Some(completion))
                        else old(View())
    {
      ok := Transition(Completed);
      if ok {
        outputText := Some(text);
        if toolCalls != [] {
          calls := toolCalls;
        }
        promptTokens, completionTokens := Some(prompt), Some(completion);
      }
    }

    /** Also the timed-out mark, which differs in its target. */
    method MarkClosed(target: Status, code: string) returns (ok: bool)
      modifies this
      ensures ok <==> IsAllowed(old(status), target)
      ensures View() == if ok then Move(old(View()), target).(error := Some(code)) else old(View())
    {
      ok := Transition(target);
      if ok {
        error := Some(code);
      }
    }

    /** Only from a wait, although the table would allow more. */
    method ResumeFromWait() returns (ok: bool)
      modifies this
      ensures ok <==> old(status) in {WaitingHuman, WaitingTool}
      ensures View() == if ok then Move(old(View()), Running) else old(View())
    {
      if status !in {WaitingHuman, WaitingTool} {
        return false;
      }
      ok := Transition(Running);
    }
  }
}
