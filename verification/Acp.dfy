/** The actor that drives one agent session over the Agent Client Protocol
    (crates/machine/src/acp.rs, `SessionActor`). */
module Acp {
  import opened Basics

  const MAX_QUEUED_COMMANDS: nat := 16

  datatype Command =
    | Prompt(text: string)
    | Answer(request: string, option: Option<string>)
    | SetModel(model: string)
    | Cancel
    | Kill

  /** A command and its place in the order of arrival. */
  datatype Ticket = Ticket(number: nat, command: Command)

  datatype Rpc = Initialize | SessionNew | SessionLoad | Turn(text: string) | Model(model: string)

  datatype Event =
    | UserMessage(text: string)
    | Failure
    | TurnEnded
    | Question(request: string)
    | Resolved(request: string)
    | Agent(text: string)

  datatype Status = Idle | Working | Asked | Errored

  /** What goes to the hub. */
  datatype Out = AgentEvent(number: nat, event: Event) | Update(status: Option<Status>) | Exited

  /** What goes to the agent. A reply names the permission request it answers by
      that request's place in the order of arrival. */
  datatype Wire = Request(id: nat, rpc: Rpc) | Notify | NotFound | Reply(asked: nat, option: Option<string>)

  /** What the agent says. `allowed` is the option an automatic run picks;
      `models` whether the configuration in a result offers any. */
  datatype Line =
    | Malformed
    | SessionUpdate(text: Option<string>)
    | Permission(request: string, allowed: Option<string>)
    | UnknownMethod(hasId: bool)
    | Response(id: nat, outcome: Outcome)

  datatype Outcome = Refused | Done(session: string, models: Option<bool>)

  datatype Message = Hub(command: Command) | FromAgent(line: Line) | Eof | Timeout(id: nat)

  datatype Parked = Parked(request: string, asked: nat)

  /** Requests to the agent: unanswered ones, the next id, timers still to fire. */
  datatype Rpcs = Rpcs(pending: map<nat, Rpc>, next: nat, watchdogs: set<nat>)

  /** The two output channels, and the number of the last event. */
  datatype Output = Output(sequence: nat, hub: seq<Out>, stdin: seq<Wire>)

  /** What an observer has noted. */
  datatype Notes = Notes(
    arrived: nat,              // commands received
    ran: seq<nat>,             // commands executed, in that order, but for kills
    kills: seq<nat>,           // kill commands
    held: set<nat>,            // commands that have ever been queued
    dropped: seq<nat>,         // commands that will never be executed
    asked: Option<nat>,        // the create-time set_model request
    permissions: nat,          // permission requests received
    forgotten: seq<nat>)       // those replaced by a later one

  datatype Actor = Actor(
    session: Option<string>,
    resume: Option<string>,
    suppress: bool,
    failed: bool,
    ended: bool,
    autoRun: bool,
    question: Option<Parked>,
    queue: seq<Ticket>,
    supports: bool,
    requested: Option<string>,
    flushAfter: bool,
    rpcs: Rpcs,
    output: Output,
    notes: Notes)

  predicate IsHandshake(rpc: Rpc)
  {
    rpc.Initialize? || rpc.SessionNew? || rpc.SessionLoad?
  }

  function Numbers(queue: seq<Ticket>): (r: seq<nat>)
    ensures |r| == |queue|
  {
    seq(|queue|, i requires 0 <= i < |queue| => queue[i].number)
  }

  function EmitTo(o: Output, event: Event): Output
  {
    o.(sequence := o.sequence + 1, hub := o.hub + [AgentEvent(o.sequence + 1, event)])
  }

  function Emit(a: Actor, event: Event): Actor
  {
    a.(output := EmitTo(a.output, event))
  }

  function Tell(a: Actor, status: Option<Status>): Actor
  {
    a.(output := a.output.(hub := a.output.hub + [Update(status)]))
  }

  function Write(a: Actor, wire: Wire): Actor
  {
    a.(output := a.output.(stdin := a.output.stdin + [wire]))
  }

  function Issue(r: Rpcs, rpc: Rpc): Rpcs
  {
    Rpcs(r.pending[r.next := rpc], r.next + 1,
         if IsHandshake(rpc) then r.watchdogs + {r.next} else r.watchdogs)
  }

  function SendRequest(a: Actor, rpc: Rpc): Actor
  {
    Write(a, Request(a.rpcs.next, rpc)).(rpcs := Issue(a.rpcs, rpc))
  }

  function Answered(a: Actor, id: nat): Actor
  {
    a.(rpcs := a.rpcs.(pending := a.rpcs.pending - {id}))
  }

  function Begin(resume: Option<string>, requested: Option<string>, autoRun: bool): Actor
  {
    SendRequest(
      Actor(None, resume, false, false, false, autoRun, None, [], false, requested, false,
            Rpcs(map[], 1, {}), Output(0, [], []), Notes(0, [], [], {}, [], None, 0, [])),
      Initialize)
  }

  // ----- commands -----

  function KillChild(a: Actor): Actor
  {
    if a.question.None? then a
    else Write(a, Reply(a.question.value.asked, None)).(question := None)
  }

  function RunPrompt(a: Actor, text: string): Actor
  {
    SendRequest(Tell(Emit(a, UserMessage(text)), Some(Working)), Turn(text))
  }

  function RunSetModel(a: Actor, model: string): Actor
  {
    if a.supports then SendRequest(a, Model(model)) else Emit(a, Failure)
  }

  function RunAnswer(a: Actor, request: string, option: Option<string>): Actor
  {
    if a.question.None? || a.question.value.request != request then a
    else
      var replied := Write(a, Reply(a.question.value.asked, option)).(question := None);
      Tell(Emit(replied, Resolved(request)), Some(Working))
  }

  function Ran(a: Actor, number: nat): Actor
  {
    a.(notes := a.notes.(ran := a.notes.ran + [number]))
  }

  function Perform(a: Actor, command: Command): (r: Actor)
    ensures r.queue == a.queue
  {
    match command
    case Prompt(text) => RunPrompt(a, text)
    case Answer(request, option) => RunAnswer(a, request, option)
    case SetModel(model) => RunSetModel(a, model)
    case Cancel => Write(a, Notify)
    case Kill => KillChild(a)
  }

  function Execute(a: Actor, t: Ticket): (r: Actor)
    ensures r.queue == a.queue
  {
    Perform(Ran(a, t.number), t.command)
  }

  function Flush(a: Actor): Actor
    decreases |a.queue|
  {
    if a.queue == [] then a else Flush(Execute(a.(queue := a.queue[1..]), a.queue[0]))
  }

  function DropQueue(a: Actor): Actor
  {
    a.(queue := [], notes := a.notes.(dropped := a.notes.dropped + Numbers(a.queue)))
  }

  function Killed(a: Actor, number: nat): Actor
  {
    a.(notes := a.notes.(kills := a.notes.kills + [number]))
  }

  function Reject(a: Actor, number: nat): Actor
  {
    Emit(a, Failure).(notes := a.notes.(dropped := a.notes.dropped + [number]))
  }

  function Enqueue(a: Actor, t: Ticket): Actor
  {
    a.(queue := a.queue + [t], notes := a.notes.(held := a.notes.held + {t.number}))
  }

  function Arrived(a: Actor): Actor
  {
    a.(notes := a.notes.(arrived := a.notes.arrived + 1))
  }

  function HandleCommand(a: Actor, command: Command): Actor
  {
    var t := Ticket(a.notes.arrived, command);
    var n := Arrived(a);
    if command.Kill? then KillChild(Killed(DropQueue(n), t.number))
    else if a.session.Some? then Execute(n, t)
    else if a.failed || |a.queue| >= MAX_QUEUED_COMMANDS then Reject(n, t.number)
    else Enqueue(n, t)
  }

  // ----- the agent -----

  function ReplyAtOnce(a: Actor, allowed: Option<string>): Actor
  {
    Write(a, Reply(a.notes.permissions, allowed)).(
      notes := a.notes.(permissions := a.notes.permissions + 1))
  }

  /** Only one request can be parked: a new one replaces it. */
  function Park(a: Actor, request: string): Actor
  {
    a.(question := Some(Parked(request, a.notes.permissions)),
       notes := a.notes.(permissions := a.notes.permissions + 1,
                         forgotten := a.notes.forgotten + if a.question.Some? then [a.question.value.asked] else []))
  }

  function HandlePermission(a: Actor, request: string, allowed: Option<string>): Actor
  {
    if a.autoRun then ReplyAtOnce(a, allowed)
    else Tell(Emit(Park(a, request), Question(request)), Some(Asked))
  }

  function ApplyRequestedModelThenFlush(a: Actor): Actor
  {
    if a.requested.None? then Flush(a)
    else
      var n := a.(requested := None);
      if !a.supports then Flush(Emit(n, Failure))
      else RunSetModel(n.(flushAfter := true, notes := a.notes.(asked := Some(a.rpcs.next))), a.requested.value)
  }

  function StartSession(a: Actor): Actor
  {
    if a.resume.Some? then SendRequest(a.(suppress := true), SessionLoad) else SendRequest(a, SessionNew)
  }

  function FlushIfWaiting(a: Actor): Actor
  {
    if a.flushAfter then Flush(a.(flushAfter := false)) else a
  }

  function Fail(a: Actor): Actor
  {
    if a.failed then a else Tell(Emit(DropQueue(a).(failed := true), Failure), Some(Errored))
  }

  function Opened(a: Actor, session: Option<string>, supports: bool): Actor
  {
    Tell(a.(suppress := false, session := session, supports := supports), Some(Idle))
  }

  function HandleResult(a: Actor, rpc: Rpc, session: string, models: Option<bool>): Actor
  {
    match rpc
    case Initialize => StartSession(a)
    case SessionNew => ApplyRequestedModelThenFlush(Opened(a, Some(session), models.Some? && models.value))
    case SessionLoad =>
      ApplyRequestedModelThenFlush(Opened(a, a.resume, if models.Some? then models.value else a.supports))
    case Turn(_) => Tell(Emit(a, TurnEnded), Some(if a.question.Some? then Asked else Idle))
    case Model(_) => FlushIfWaiting(Tell(a, None))
  }

  function HandleError(a: Actor, rpc: Rpc): Actor
  {
    match rpc
    case SessionLoad => SendRequest(Emit(a.(suppress := false), Failure), SessionNew)
    case Turn(_) => Tell(Emit(a, Failure), Some(Idle))
    case Model(_) => FlushIfWaiting(Emit(a, Failure))
    case _ => Fail(a)
  }

  function HandleResponse(a: Actor, id: nat, outcome: Outcome): Actor
  {
    if id !in a.rpcs.pending then a
    else
      match outcome
      case Refused => HandleError(Answered(a, id), a.rpcs.pending[id])
      case Done(session, models) => HandleResult(Answered(a, id), a.rpcs.pending[id], session, models)
  }

  function HandleLine(a: Actor, line: Line): Actor
  {
    match line
    case Malformed => a
    case SessionUpdate(text) => if a.suppress || text.None? then a else Emit(a, Agent(text.value))
    case Permission(request, allowed) => HandlePermission(a, request, allowed)
    case UnknownMethod(hasId) => if hasId then Write(a, NotFound) else a
    case Response(id, outcome) => HandleResponse(a, id, outcome)
  }

  // ----- the loop -----

  function HandshakeTimeout(a: Actor, id: nat): Actor
  {
    var n := a.(rpcs := a.rpcs.(watchdogs := a.rpcs.watchdogs - {id}));
    if id in a.rpcs.pending then Fail(Answered(n, id)) else n
  }

  function OnEof(a: Actor): Actor
  {
    if a.ended then a
    else DropQueue(a).(ended := true, output := a.output.(hub := a.output.hub + [Exited]))
  }

  predicate Enabled(a: Actor, m: Message)
  {
    !a.ended && (m.Timeout? ==> m.id in a.rpcs.watchdogs)
  }

  function Next(a: Actor, m: Message): Actor
  {
    match m
    case Hub(command) => HandleCommand(a, command)
    case FromAgent(line) => HandleLine(a, line)
    case Eof => OnEof(a)
    case Timeout(id) => HandshakeTimeout(a, id)
  }

  predicate Possible(a: Actor, messages: seq<Message>)
    decreases |messages|
  {
    messages == [] || (Enabled(a, messages[0]) && Possible(Next(a, messages[0]), messages[1..]))
  }

  function Run(a: Actor, messages: seq<Message>): Actor
    decreases |messages|
  {
    if messages == [] then a else Run(Next(a, messages[0]), messages[1..])
  }
}
