/** The control token shared by the engine thread and the operator console. */
module Escalation {
  import opened Wrappers

  datatype ControlState = Automation | Paused | Human

  datatype Decision = NoDecision | Approve | Handback | Abort | Resolve

  datatype Command = Command(kind: string, role: string, name: string, text: string)

  /** The requests a console thread, or the page's capture callback, may make. */
  datatype ConsoleCall =
    | RequestControl(operator: string)
    | Take(operator: string)
    | Submit(command: Command)
    | Decide(decision: Decision, operator: string, note: string, code: string)
    | HumanAction(event: string)

  /** The hub's fields as one value. */
  datatype Hub = Hub(
    state: ControlState,
    parked: bool,             // an intervention is on display
    operator: Option<string>,
    decision: Decision,
    note: string,
    code: string,
    pauseRequested: bool,
    takeRequested: bool,
    commands: seq<Command>,
    humanActions: seq<string>)

  const INITIAL_HUB := Hub(Automation, false, None, NoDecision, "", "", false, false, [], [])

  /** Whether the hub accepts a console call in state `state`. */
  predicate Accepts(state: ControlState, call: ConsoleCall) {
    match call
    case RequestControl(_) => true
    case Take(_) => state == Paused
    case Submit(_) => state == Human
    case HumanAction(_) => state == Human
    case Decide(d, _, _, _) =>
      match d
      case NoDecision => true
      case Approve => state == Paused
      case _ => state == Human
  }

  /** The hub after a console call; a refused call changes nothing. */
  function Apply(h: Hub, call: ConsoleCall): Hub {
    if !Accepts(h.state, call) then h else
    match call
    case RequestControl(op) => h.(pauseRequested := true, takeRequested := true, operator := Some(op))
    case Take(op) => h.(state := Human, operator := Some(op))
    case Submit(c) => h.(commands := h.commands + [c])
    case Decide(d, op, note, code) => h.(decision := d, note := note, code := code, operator := Some(op))
    case HumanAction(e) => h.(humanActions := h.humanActions + [e])
  }

  function Parked(h: Hub): Hub {
    h.(state := Paused, parked := true, decision := NoDecision, pauseRequested := false)
  }

  function Popped(h: Hub): Hub {
    if h.commands == [] then h else h.(commands := h.commands[1..])
  }

  function Resumed(h: Hub): Hub {
    h.(state := Automation, parked := false, takeRequested := false)
  }

  class EscalationHub {
    var state: ControlState
    var parked: bool
    var operator: Option<string>
    var decision: Decision
    var note: string
    var code: string
    var pauseRequested: bool
    var takeRequested: bool
    var commands: seq<Command>
    var humanActions: seq<string>

    function View(): Hub
      reads this
    {
      Hub(state, parked, operator, decision, note, code, pauseRequested, takeRequested, commands, humanActions)
    }

    constructor ()
      ensures View() == INITIAL_HUB
    {
      state, parked, operator := Automation, false, None;
      decision, note, code := NoDecision, "", "";
      pauseRequested, takeRequested := false, false;
      commands, humanActions := [], [];
    }

    method RequestControl(op: string)
      modifies this
      ensures View() == old(View()).(pauseRequested := true, takeRequested := true, operator := Some(op))
      ensures View() == Apply(old(View()), ConsoleCall.RequestControl(op))
    {
      pauseRequested := true;
      takeRequested := true;
      operator := Some(op);
    }

    method Take(op: string) returns (ok: bool)
      modifies this
      ensures ok == (old(state) == Paused)
      ensures View() == if ok then old(View()).(state := Human, operator := Some(op)) else old(View())
      ensures View() == Apply(old(View()), ConsoleCall.Take(op))
    {
      if state != Paused {
        return false;
      }
      state := Human;
      operator := Some(op);
      return true;
    }

    method SubmitCommand(command: Command) returns (ok: bool)
      modifies this
      ensures ok == (old(state) == Human)
      ensures View() == if ok then old(View()).(commands := old(commands) + [command]) else old(View())
      ensures View() == Apply(old(View()), Submit(command))
    {
      if state != Human {
        return false;
      }
      commands := commands + [command];
      return true;
    }

    method Decide(d: Decision, op: string, n: string, c: string) returns (ok: bool)
      modifies this
      ensures ok <==> d == NoDecision || old(state) == (if d == Approve then Paused else Human)
      ensures View() ==
        if ok then old(View()).(decision := d, note := n, code := c, operator := Some(op)) else old(View())
      ensures ok == Accepts(old(state), ConsoleCall.Decide(d, op, n, c))
      ensures View() == Apply(old(View()), ConsoleCall.Decide(d, op, n, c))
    {
      var needsHuman := d in {Handback, Abort, Resolve};
      if needsHuman && state != Human {
        return false;
      }
      if d == Approve && state != Paused {
        return false;
      }
      decision := d;
      note := n;
      code := c;
      operator := Some(op);
      return true;
    }

    method RecordHumanAction(event: string) returns (ok: bool)
      modifies this
      ensures ok == (old(state) == Human)
      ensures View() == if ok then old(View()).(humanActions := old(humanActions) + [event]) else old(View())
      ensures View() == Apply(old(View()), HumanAction(event))
    {
      if state != Human {
        return false;
      }
      humanActions := humanActions + [event];
      return true;
    }

    method Park()
      modifies this
      ensures View() == old(View()).(state := Paused, parked := true, decision := NoDecision, pauseRequested := false)
      ensures View() == Parked(old(View()))
    {
      state := Paused;
      parked := true;
      decision := NoDecision;
      pauseRequested := false;
    }

    method PopCommand() returns (c: Option<Command>)
      modifies this
      ensures c == if old(commands) == [] then None else Some(old(commands)[0])
      ensures View() == if c.Some? then old(View()).(commands := old(commands)[1..]) else old(View())
      ensures View() == Popped(old(View()))
    {
      if commands == [] {
        return None;
      }
      c := Some(commands[0]);
      commands := commands[1..];
    }

    method TakeDecision() returns (d: Decision, n: string, c: string, op: Option<string>)
      modifies this
      ensures d == old(decision) && n == old(note) && c == old(code) && op == old(operator)
      ensures View() == old(View()).(decision := NoDecision)
    {
      d := decision;
      decision := NoDecision;
      n, c, op := note, code, operator;
    }

    method ResumeAutomation()
      modifies this
      ensures View() == old(View()).(state := Automation, parked := false, takeRequested := false)
      ensures View() == Resumed(old(View()))
    {
      state := Automation;
      parked := false;
      takeRequested := false;
    }

    /** One console request, routed to the method that serves it. */
    method Serve(call: ConsoleCall) returns (ok: bool)
      modifies this
      ensures ok == Accepts(old(state), call)
      ensures View() == Apply(old(View()), call)
    {
      match call
      case RequestControl(op) => RequestControl(op); ok := true;
      case Take(op) => ok := Take(op);
      case Submit(c) => ok := SubmitCommand(c);
      case Decide(d, op, n, c) => ok := Decide(d, op, n, c);
      case HumanAction(e) => ok := RecordHumanAction(e);
    }
  }
}
