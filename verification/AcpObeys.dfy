/** The agent is told exactly what was commanded, in the order in which commands run. */
module AcpObeys {
  import opened Basics
  import opened Acp
  import opened AcpRuns
  import opened AcpWords

  /** Prompts, model choices and cancels, among what the agent was told. */
  predicate IsOrder(w: ToAgent)
  {
    (w.Ask? && (w.rpc.Turn? || w.rpc.Model?)) || w.Stop?
  }

  function Orders(agent: seq<ToAgent>): seq<ToAgent>
  {
    if agent == [] then []
    else Orders(agent[..|agent| - 1]) + if IsOrder(agent[|agent| - 1]) then [agent[|agent| - 1]] else []
  }

  /** The prompts the hub was told of. */
  function Echoes(hub: seq<ToHub>): seq<string>
  {
    if hub == [] then []
    else
      var last := hub[|hub| - 1];
      Echoes(hub[..|hub| - 1]) + if last.Told? && last.event.UserMessage? then [last.event.text] else []
  }

  lemma {:induction false} OrdersAppend(x: seq<ToAgent>, y: seq<ToAgent>)
    ensures Orders(x + y) == Orders(x) + Orders(y)
  {
    if y == [] {
      assert x + y == x;
    } else {
      var n := |y| - 1;
      ButLast(x, y);
      OrdersAppend(x, y[..n]);
      Assoc(Orders(x), Orders(y[..n]), if IsOrder(y[n]) then [y[n]] else []);
    }
  }

  lemma {:induction false} EchoesAppend(x: seq<ToHub>, y: seq<ToHub>)
    ensures Echoes(x + y) == Echoes(x) + Echoes(y)
  {
    if y == [] {
      assert x + y == x;
    } else {
      var n := |y| - 1;
      ButLast(x, y);
      EchoesAppend(x, y[..n]);
      Assoc(Echoes(x), Echoes(y[..n]), if y[n].Told? && y[n].event.UserMessage? then [y[n].event.text] else []);
    }
  }

  // ----- what the commands that ran call for -----

  function OrderOf(command: Command, supports: bool): seq<ToAgent>
  {
    match command
    case Prompt(text) => [Ask(Turn(text))]
    case SetModel(model) => if supports then [Ask(Model(model))] else []
    case Cancel => [Stop]
    case _ => []
  }

  function EchoOf(command: Command): seq<string>
  {
    if command.Prompt? then [command.text] else []
  }

  predicate Within(numbers: seq<nat>, count: nat)
  {
    forall i | 0 <= i < |numbers| :: numbers[i] < count
  }

  function OrdersOf(commands: seq<Command>, ran: seq<nat>, supports: bool): seq<ToAgent>
    requires Within(ran, |commands|)
  {
    if ran == [] then []
    else OrdersOf(commands, ran[..|ran| - 1], supports) + OrderOf(commands[ran[|ran| - 1]], supports)
  }

  function EchoesOf(commands: seq<Command>, ran: seq<nat>): seq<string>
    requires Within(ran, |commands|)
  {
    if ran == [] then [] else EchoesOf(commands, ran[..|ran| - 1]) + EchoOf(commands[ran[|ran| - 1]])
  }

  lemma RanPush(commands: seq<Command>, ran: seq<nat>, number: nat, supports: bool)
    requires Within(ran, |commands|) && number < |commands|
    ensures Within(ran + [number], |commands|)
    ensures OrdersOf(commands, ran + [number], supports) == OrdersOf(commands, ran, supports) + OrderOf(commands[number], supports)
    ensures EchoesOf(commands, ran + [number]) == EchoesOf(commands, ran) + EchoOf(commands[number])
  {
    assert (ran + [number])[..|ran|] == ran;
  }

  lemma {:induction false} MoreCommands(commands: seq<Command>, more: Command, ran: seq<nat>, supports: bool)
    requires Within(ran, |commands|)
    ensures Within(ran, |commands + [more]|)
    ensures OrdersOf(commands + [more], ran, supports) == OrdersOf(commands, ran, supports)
    ensures EchoesOf(commands + [more], ran) == EchoesOf(commands, ran)
  {
    if ran != [] {
      MoreCommands(commands, more, ran[..|ran| - 1], supports);
    }
  }

  lemma CommandOrders(command: Command, question: Option<Parked>, supports: bool)
    ensures Orders(CommandWords(command, question, supports).agent) == OrderOf(command, supports)
    ensures Echoes(CommandWords(command, question, supports).hub) == EchoOf(command)
  {
    match command
    case Prompt(text) =>
      OneOrder(Ask(Turn(text)));
      TwoEchoes(Told(UserMessage(text)), Now(Some(Working)));
    case Answer(request, option) =>
      if question.Some? {
        OneOrder(Decide(question.value.asked, option));
        TwoEchoes(Told(Resolved(request)), Now(Some(Working)));
      }
    case SetModel(model) =>
      OneOrder(Ask(Model(model)));
      OneEcho(Told(Failure));
    case Cancel => OneOrder(Stop);
    case Kill =>
      if question.Some? { OneOrder(Decide(question.value.asked, None)); }
  }

  lemma OneOrder(w: ToAgent)
    ensures Orders([w]) == if IsOrder(w) then [w] else []
  {
    assert [w][..0] == [];
  }

  lemma OneEcho(w: ToHub)
    ensures Echoes([w]) == if w.Told? && w.event.UserMessage? then [w.event.text] else []
  {
    assert [w][..0] == [];
  }

  lemma TwoEchoes(x: ToHub, y: ToHub)
    ensures Echoes([x, y]) == Echoes([x]) + Echoes([y])
    ensures Echoes([x]) == if x.Told? && x.event.UserMessage? then [x.event.text] else []
    ensures Echoes([y]) == if y.Told? && y.event.UserMessage? then [y.event.text] else []
  {
    assert [x, y] == [x] + [y];
    EchoesAppend([x], [y]);
    OneEcho(x);
    OneEcho(y);
  }

  // ----- the invariant -----

  /** `model` is what was said about the model requested when the session was made;
      then comes what the commands that ran call for, in the order in which they ran. */
  predicate Obeyed(a: Actor, commands: seq<Command>, model: seq<ToAgent>)
  {
    && Within(a.notes.ran, |commands|)
    && (forall t | t in a.queue :: t.number < |commands| && commands[t.number] == t.command)
    && Orders(Said(a).agent) == model + OrdersOf(commands, a.notes.ran, a.supports)
    && Echoes(Said(a).hub) == EchoesOf(commands, a.notes.ran)
  }

  /** Words that give no orders and echo no prompt. */
  predicate Idles(w: Words)
  {
    Orders(w.agent) == [] && Echoes(w.hub) == []
  }

  predicate Quiet(w: ToHub) { !(w.Told? && w.event.UserMessage?) }

  lemma FewIdle(w: Words)
    requires |w.agent| <= 1 && |w.hub| <= 2
    requires forall i | 0 <= i < |w.agent| :: !IsOrder(w.agent[i])
    requires forall i | 0 <= i < |w.hub| :: Quiet(w.hub[i])
    ensures Idles(w)
  {
    if |w.agent| == 1 {
      OneOrder(w.agent[0]);
      assert w.agent == [w.agent[0]];
    }
    if |w.hub| == 1 {
      OneEcho(w.hub[0]);
      assert w.hub == [w.hub[0]];
    } else if |w.hub| == 2 {
      TwoEchoes(w.hub[0], w.hub[1]);
      assert w.hub == [w.hub[0], w.hub[1]];
    }
  }

  lemma IdleObeyed(a: Actor, b: Actor, w: Words, commands: seq<Command>, model: seq<ToAgent>)
    requires Obeyed(a, commands, model) && Said(b) == Then(Said(a), w) && Idles(w)
    requires b.notes.ran == a.notes.ran && (forall t | t in b.queue :: t in a.queue)
    requires b.supports == a.supports || a.notes.ran == []
    ensures Obeyed(b, commands, model)
  {
    OrdersAppend(Said(a).agent, w.agent);
    EchoesAppend(Said(a).hub, w.hub);
    assert Orders(Said(a).agent) + [] == Orders(Said(a).agent) && Echoes(Said(a).hub) + [] == Echoes(Said(a).hub);
  }

  lemma ExecuteObeyed(a: Actor, t: Ticket, commands: seq<Command>, model: seq<ToAgent>)
    requires Obeyed(a, commands, model) && t.number < |commands| && commands[t.number] == t.command
    requires forall id | id in a.rpcs.pending :: id < a.rpcs.next
    ensures Obeyed(Execute(a, t), commands, model)
  {
    var b := Execute(a, t);
    var w := CommandWords(t.command, a.question, a.supports);
    ExecuteSays(a, t);
    ExecuteRan(a, t);
    OrdersAppend(Said(a).agent, w.agent);
    EchoesAppend(Said(a).hub, w.hub);
    CommandOrders(t.command, a.question, a.supports);
    RanPush(commands, a.notes.ran, t.number, a.supports);
    Assoc(model, OrdersOf(commands, a.notes.ran, a.supports), OrderOf(t.command, a.supports));
  }

  lemma {:induction false} FlushObeyed(a: Actor, commands: seq<Command>, model: seq<ToAgent>)
    requires Obeyed(a, commands, model) && Pendings(a.rpcs, a.resume)
    ensures Obeyed(Flush(a), commands, model)
    decreases |a.queue|
  {
    if a.queue != [] {
      var popped := a.(queue := a.queue[1..]);
      PoppedRan(a);
      SameSays(a, popped);
      assert a.queue[0] in a.queue && forall t | t in popped.queue :: t in a.queue;
      ExecuteObeyed(popped, a.queue[0], commands, model);
      FlushObeyed(Popped(a), commands, model);
    }
  }

  /** What the requested model adds, once the session is ready. */
  function ModelAsked(a: Actor, requested: Option<string>): seq<ToAgent>
  {
    if a.session.Some? && a.supports && requested.Some? then [Ask(Model(requested.value))] else []
  }

  predicate Obeys(a: Actor, commands: seq<Command>, requested: Option<string>)
  {
    && Obeyed(a, commands, ModelAsked(a, requested)) && |commands| == a.notes.arrived
    && (a.session.None? ==> a.notes.ran == [] && a.requested == requested)
  }

  /** The command just received. */
  lemma ArrivedObeyed(a: Actor, commands: seq<Command>, command: Command, model: seq<ToAgent>)
    requires Obeyed(a, commands, model)
    ensures Obeyed(Arrived(a), commands + [command], model)
  {
    SameSays(a, Arrived(a));
    MoreCommands(commands, command, a.notes.ran, a.supports);
  }

  lemma KillIdles(question: Option<Parked>, supports: bool)
    ensures Idles(CommandWords(Kill, question, supports))
  {
    CommandOrders(Kill, question, supports);
  }

  lemma KillObeyed(a: Actor, commands: seq<Command>, number: nat, model: seq<ToAgent>)
    requires Obeyed(a, commands, model)
    ensures Obeyed(KillChild(Killed(DropQueue(a), number)), commands, model)
  {
    var b := Killed(DropQueue(a), number);
    SameSays(a, b);
    KillSays(b);
    KillIdles(b.question, b.supports);
    KillSame(b);
    KilledKeeps(b);
    IdleObeyed(a, KillChild(b), CommandWords(Kill, b.question, b.supports), commands, model);
  }

  lemma KilledKeeps(a: Actor)
    ensures KillChild(a).queue == a.queue && KillChild(a).supports == a.supports
  {
  }

  lemma RejectObeyed(a: Actor, commands: seq<Command>, number: nat, model: seq<ToAgent>)
    requires Obeyed(a, commands, model)
    ensures Obeyed(Reject(a, number), commands, model)
  {
    var w := Words([Told(Failure)], []);
    EmitSays(a, Failure);
    SameSays(Emit(a, Failure), Reject(a, number));
    FewIdle(w);
    IdleObeyed(a, Reject(a, number), w, commands, model);
  }

  lemma RunObeys(a: Actor, commands: seq<Command>, requested: Option<string>, t: Ticket)
    requires Handshaking(a) && a.session.Some? && Obeyed(a, commands, ModelAsked(a, requested))
    requires |commands| == a.notes.arrived && t.number < |commands| && commands[t.number] == t.command
    ensures Obeys(Execute(a, t), commands, requested)
  {
    ExecuteObeyed(a, t, commands, ModelAsked(a, requested));
    ExecuteRan(a, t);
    ExecuteSays(a, t);
  }

  lemma QueueObeyed(a: Actor, commands: seq<Command>, t: Ticket, model: seq<ToAgent>)
    requires Obeyed(a, commands, model) && t.number < |commands| && commands[t.number] == t.command
    ensures Obeyed(Enqueue(a, t), commands, model)
  {
    SameSays(a, Enqueue(a, t));
  }

  lemma CommandObeys(a: Actor, commands: seq<Command>, requested: Option<string>, command: Command)
    requires Handshaking(a) && Obeys(a, commands, requested)
    ensures Obeys(HandleCommand(a, command), commands + [command], requested)
  {
    var t, n, more, model := Ticket(a.notes.arrived, command), Arrived(a), commands + [command], ModelAsked(a, requested);
    ArrivedObeyed(a, commands, command, model);
    if command.Kill? {
      KillObeyed(n, more, t.number, model);
      KillSame(Killed(DropQueue(n), t.number));
      KilledKeeps(Killed(DropQueue(n), t.number));
    } else if a.session.Some? {
      RunObeys(n, more, requested, t);
    } else {
      WaitObeys(a, more, requested, t);
    }
  }

  lemma WaitObeys(a: Actor, commands: seq<Command>, requested: Option<string>, t: Ticket)
    requires a.session.None? && a.notes.ran == [] && a.requested == requested && Obeyed(Arrived(a), commands, [])
    requires |commands| == a.notes.arrived + 1 && t.number < |commands| && commands[t.number] == t.command
    ensures Obeys(Reject(Arrived(a), t.number), commands, requested)
    ensures Obeys(Enqueue(Arrived(a), t), commands, requested)
  {
    RejectObeyed(Arrived(a), commands, t.number, []);
    QueueObeyed(Arrived(a), commands, t, []);
  }

  /** The session is ready: the requested model first, or else the queue. */
  lemma OpenedObeys(a: Actor, commands: seq<Command>, requested: Option<string>, session: Option<string>, supports: bool)
    requires Obeys(a, commands, requested) && Between(a) && session.Some?
    ensures Obeys(ApplyRequestedModelThenFlush(Opened(a, session, supports)), commands, requested)
  {
    var n := a.(suppress := false, session := session, supports := supports);
    var b := Opened(a, session, supports);
    SameSays(a, n);
    TellSays(n, Some(Idle));
    FewIdle(Words([Now(Some(Idle))], []));
    IdleObeyed(a, b, Words([Now(Some(Idle))], []), commands, []);
    if requested.None? {
      FlushObeyed(b, commands, []);
      FlushRan(b);
      FlushSays(b);
    } else if !supports {
      var c := Emit(b.(requested := None), Failure);
      SameSays(b, b.(requested := None));
      EmitSays(b.(requested := None), Failure);
      FewIdle(Words([Told(Failure)], []));
      IdleObeyed(b, c, Words([Told(Failure)], []), commands, []);
      FlushObeyed(c, commands, []);
      FlushRan(c);
      FlushSays(c);
    } else {
      ModelObeyed(b, commands, requested.value);
    }
  }

  lemma ModelObeyed(b: Actor, commands: seq<Command>, model: string)
    requires Obeyed(b, commands, []) && b.supports && b.notes.ran == [] && b.requested == Some(model) && b.session.Some?
    requires |commands| == b.notes.arrived
    ensures Obeys(ApplyRequestedModelThenFlush(b), commands, Some(model))
  {
    var n := b.(requested := None).(flushAfter := true, notes := b.notes.(asked := Some(b.rpcs.next)));
    SameSays(b, n);
    SendSays(n, Model(model));
    OrdersAppend(Said(b).agent, [Ask(Model(model))]);
    OneOrder(Ask(Model(model)));
    assert Echoes(Said(b).hub) == Echoes(Said(b).hub + []) by { assert Said(b).hub + [] == Said(b).hub; }
    assert [] + [Ask(Model(model))] == [Ask(Model(model))] && [Ask(Model(model))] + [] == [Ask(Model(model))];
  }

  // ----- every message -----

  lemma FlushObeys(a: Actor, commands: seq<Command>, requested: Option<string>)
    requires Handshaking(a) && a.session.Some? && Obeys(a, commands, requested)
    ensures Obeys(FlushIfWaiting(a), commands, requested)
  {
    if a.flushAfter {
      var b := a.(flushAfter := false);
      SameSays(a, b);
      FlushObeyed(b, commands, ModelAsked(a, requested));
      FlushRan(b);
      FlushSays(b);
    }
  }

  /** Words that give no orders, from a session whose course stays as it is. */
  lemma IdleObeys(a: Actor, b: Actor, w: Words, commands: seq<Command>, requested: Option<string>)
    requires Obeys(a, commands, requested) && Said(b) == Then(Said(a), w) && Idles(w)
    requires b.notes.ran == a.notes.ran && b.notes.arrived == a.notes.arrived && (forall t | t in b.queue :: t in a.queue)
    requires b.supports == a.supports && b.session == a.session && b.requested == a.requested
    ensures Obeys(b, commands, requested)
  {
    IdleObeyed(a, b, w, commands, ModelAsked(a, requested));
  }

  lemma SilentObeys(a: Actor, b: Actor, commands: seq<Command>, requested: Option<string>)
    requires Obeys(a, commands, requested) && b.output == a.output
    requires b.notes.ran == a.notes.ran && b.notes.arrived == a.notes.arrived && (forall t | t in b.queue :: t in a.queue)
    requires b.supports == a.supports && b.session == a.session && b.requested == a.requested
    ensures Obeys(b, commands, requested)
  {
    SameSays(a, b);
    FewIdle(SILENCE);
    IdleObeys(a, b, SILENCE, commands, requested);
  }

  lemma SendObeys(a: Actor, commands: seq<Command>, requested: Option<string>, rpc: Rpc)
    requires Obeys(a, commands, requested) && IsHandshake(rpc)
    ensures Obeys(SendRequest(a, rpc), commands, requested)
  {
    SendSays(a, rpc);
    FewIdle(Words([], [Ask(rpc)]));
    IdleObeys(a, SendRequest(a, rpc), Words([], [Ask(rpc)]), commands, requested);
  }

  lemma StartObeys(a: Actor, commands: seq<Command>, requested: Option<string>)
    requires Obeys(a, commands, requested)
    ensures Obeys(StartSession(a), commands, requested)
  {
    if a.resume.Some? {
      SilentObeys(a, a.(suppress := true), commands, requested);
      SendObeys(a.(suppress := true), commands, requested, SessionLoad);
    } else {
      SendObeys(a, commands, requested, SessionNew);
    }
  }

  lemma FailObeys(a: Actor, commands: seq<Command>, requested: Option<string>)
    requires Obeys(a, commands, requested)
    ensures Obeys(Fail(a), commands, requested)
  {
    FailSays(a);
    FewIdle(FailWords(a));
    IdleObeys(a, Fail(a), FailWords(a), commands, requested);
  }

  lemma ReloadObeys(a: Actor, commands: seq<Command>, requested: Option<string>)
    requires Obeys(a, commands, requested)
    ensures Obeys(HandleError(a, SessionLoad), commands, requested)
  {
    RefusalSays(a, SessionLoad);
    FewIdle(RefusalWords(a, SessionLoad));
    IdleObeys(a, HandleError(a, SessionLoad), RefusalWords(a, SessionLoad), commands, requested);
  }

  lemma TurnEndsObeys(a: Actor, commands: seq<Command>, requested: Option<string>, text: string, session: string, models: Option<bool>)
    requires Obeys(a, commands, requested)
    ensures Obeys(HandleResult(a, Turn(text), session, models), commands, requested)
  {
    ResultSays(a, Turn(text), session, models);
    FewIdle(ResultWords(a, Turn(text), models));
    IdleObeys(a, HandleResult(a, Turn(text), session, models), ResultWords(a, Turn(text), models), commands, requested);
  }

  lemma TurnFailsObeys(a: Actor, commands: seq<Command>, requested: Option<string>, text: string)
    requires Obeys(a, commands, requested)
    ensures Obeys(HandleError(a, Turn(text)), commands, requested)
  {
    RefusalSays(a, Turn(text));
    FewIdle(RefusalWords(a, Turn(text)));
    IdleObeys(a, HandleError(a, Turn(text)), RefusalWords(a, Turn(text)), commands, requested);
  }

  lemma ModelAnswerObeys(a: Actor, commands: seq<Command>, requested: Option<string>)
    requires Handshaking(a) && a.session.Some? && Obeys(a, commands, requested)
    ensures Obeys(FlushIfWaiting(Tell(a, None)), commands, requested)
    ensures Obeys(FlushIfWaiting(Emit(a, Failure)), commands, requested)
  {
    TellSays(a, None);
    FewIdle(Words([Now(None)], []));
    IdleObeys(a, Tell(a, None), Words([Now(None)], []), commands, requested);
    FlushObeys(Tell(a, None), commands, requested);
    EmitSays(a, Failure);
    FewIdle(Words([Told(Failure)], []));
    IdleObeys(a, Emit(a, Failure), Words([Told(Failure)], []), commands, requested);
    FlushObeys(Emit(a, Failure), commands, requested);
  }

  lemma HandshakeObeys(a: Actor, commands: seq<Command>, requested: Option<string>, rpc: Rpc, outcome: Outcome)
    requires Between(a) && Obeys(a, commands, requested) && IsHandshake(rpc) && (rpc.SessionLoad? ==> a.resume.Some?)
    ensures Obeys(if outcome.Done? then HandleResult(a, rpc, outcome.session, outcome.models) else HandleError(a, rpc),
                  commands, requested)
  {
    if outcome.Done? {
      match rpc {
        case Initialize => StartObeys(a, commands, requested);
        case SessionNew =>
          OpenedObeys(a, commands, requested, Some(outcome.session), outcome.models.Some? && outcome.models.value);
        case SessionLoad =>
          OpenedObeys(a, commands, requested, a.resume, if outcome.models.Some? then outcome.models.value else a.supports);
      }
    } else if rpc.SessionLoad? {
      ReloadObeys(a, commands, requested);
    } else {
      FailObeys(a, commands, requested);
    }
  }

  lemma LaterObeys(a: Actor, commands: seq<Command>, requested: Option<string>, rpc: Rpc, outcome: Outcome)
    requires Handshaking(a) && a.session.Some? && Obeys(a, commands, requested) && !IsHandshake(rpc)
    ensures Obeys(if outcome.Done? then HandleResult(a, rpc, outcome.session, outcome.models) else HandleError(a, rpc),
                  commands, requested)
  {
    match rpc
    case Turn(text) =>
      if outcome.Done? {
        TurnEndsObeys(a, commands, requested, text, outcome.session, outcome.models);
      } else {
        TurnFailsObeys(a, commands, requested, text);
      }
    case Model(_) => ModelAnswerObeys(a, commands, requested);
  }

  lemma AnsweredHandshaking(a: Actor, id: nat)
    requires Handshaking(a) && id in a.rpcs.pending
    ensures IsHandshake(a.rpcs.pending[id]) ==> Between(Answered(a, id)) && (a.rpcs.pending[id].SessionLoad? ==> a.resume.Some?)
    ensures !IsHandshake(a.rpcs.pending[id]) ==> Handshaking(Answered(a, id)) && a.session.Some?
  {
    AnsweredPendings(a, id);
  }

  lemma ResponseObeys(a: Actor, commands: seq<Command>, requested: Option<string>, id: nat, outcome: Outcome)
    requires Handshaking(a) && Obeys(a, commands, requested)
    ensures Obeys(HandleResponse(a, id, outcome), commands, requested)
  {
    if id in a.rpcs.pending {
      var b, rpc := Answered(a, id), a.rpcs.pending[id];
      SilentObeys(a, b, commands, requested);
      AnsweredHandshaking(a, id);
      if IsHandshake(rpc) {
        HandshakeObeys(b, commands, requested, rpc, outcome);
      } else {
        LaterObeys(b, commands, requested, rpc, outcome);
      }
    }
  }

  lemma PermissionObeys(a: Actor, commands: seq<Command>, requested: Option<string>, request: string, allowed: Option<string>)
    requires Obeys(a, commands, requested)
    ensures Obeys(HandlePermission(a, request, allowed), commands, requested)
  {
    PermissionSays(a, request, allowed);
    var w := MessageWords(a, FromAgent(Permission(request, allowed)));
    FewIdle(w);
    IdleObeys(a, HandlePermission(a, request, allowed), w, commands, requested);
  }

  lemma LineObeys(a: Actor, commands: seq<Command>, requested: Option<string>, line: Line)
    requires Handshaking(a) && Obeys(a, commands, requested)
    ensures Obeys(HandleLine(a, line), commands, requested)
  {
    match line
    case Malformed =>
    case SessionUpdate(text) =>
      if text.Some? {
        EmitSays(a, Agent(text.value));
        FewIdle(Words([Told(Agent(text.value))], []));
        IdleObeys(a, Emit(a, Agent(text.value)), Words([Told(Agent(text.value))], []), commands, requested);
      }
    case Permission(request, allowed) => PermissionObeys(a, commands, requested, request, allowed);
    case UnknownMethod(_) =>
      WriteSays(a, NotFound);
      FewIdle(Words([], [NoSuchMethod]));
      IdleObeys(a, Write(a, NotFound), Words([], [NoSuchMethod]), commands, requested);
    case Response(id, outcome) => ResponseObeys(a, commands, requested, id, outcome);
  }

  lemma TimeoutObeys(a: Actor, commands: seq<Command>, requested: Option<string>, id: nat)
    requires Obeys(a, commands, requested)
    ensures Obeys(HandshakeTimeout(a, id), commands, requested)
  {
    var n := a.(rpcs := a.rpcs.(watchdogs := a.rpcs.watchdogs - {id}));
    SilentObeys(a, n, commands, requested);
    if id in a.rpcs.pending {
      SilentObeys(n, Answered(n, id), commands, requested);
      FailObeys(Answered(n, id), commands, requested);
    }
  }

  lemma EofObeys(a: Actor, commands: seq<Command>, requested: Option<string>)
    requires Obeys(a, commands, requested)
    ensures Obeys(OnEof(a), commands, requested)
  {
    EofSays(a);
    FewIdle(MessageWords(a, Eof));
    IdleObeys(a, OnEof(a), MessageWords(a, Eof), commands, requested);
  }

  /** The commands among the messages, in the order in which they come. */
  function Commands(messages: seq<Message>): seq<Command>
  {
    if messages == [] then []
    else (if messages[0].Hub? then [messages[0].command] else []) + Commands(messages[1..])
  }

  lemma NextObeys(a: Actor, commands: seq<Command>, requested: Option<string>, m: Message)
    requires Handshaking(a) && Obeys(a, commands, requested)
    ensures Obeys(Next(a, m), if m.Hub? then commands + [m.command] else commands, requested)
  {
    match m
    case Hub(command) => CommandObeys(a, commands, requested, command);
    case FromAgent(line) => LineObeys(a, commands, requested, line);
    case Eof => EofObeys(a, commands, requested);
    case Timeout(id) => TimeoutObeys(a, commands, requested, id);
  }

  lemma {:induction false} RunObeysAll(a: Actor, commands: seq<Command>, requested: Option<string>, messages: seq<Message>)
    requires Handshaking(a) && Obeys(a, commands, requested) && Possible(a, messages)
    ensures Obeys(Run(a, messages), commands + Commands(messages), requested)
    decreases |messages|
  {
    if messages == [] {
      assert commands + [] == commands;
    } else {
      var m := messages[0];
      NextObeys(a, commands, requested, m);
      NextHandshaking(a, m);
      RunObeysAll(Next(a, m), if m.Hub? then commands + [m.command] else commands, requested, messages[1..]);
      Assoc(commands, if m.Hub? then [m.command] else [], Commands(messages[1..]));
      assert commands + [] == commands;
    }
  }

  /** Main result: in every run of a new session, the prompts, model choices and cancels
      the agent has been told are exactly those of the commands that ran, in the order in
      which they ran, each with its text or model; before them, if the session is ready
      and its agent offers models, comes the model requested when it was made. And the
      hub was told of exactly the prompts that ran, in that order. */
  lemma AgentHearsWhatRan(start: Actor, resume: Option<string>, requested: Option<string>, autoRun: bool,
                          messages: seq<Message>)
    requires start == Begin(resume, requested, autoRun) && Possible(start, messages)
    ensures var a, commands := Run(start, messages), Commands(messages);
      && Within(a.notes.ran, |commands|) && |commands| == a.notes.arrived
      && Orders(Said(a).agent) == ModelAsked(a, requested) + OrdersOf(commands, a.notes.ran, a.supports)
      && Echoes(Said(a).hub) == EchoesOf(commands, a.notes.ran)
  {
    BeginHandshaking(resume, requested, autoRun);
    assert Said(start) == Words([], [Ask(Initialize)]);
    OneOrder(Ask(Initialize));
    RunObeysAll(start, [], requested, messages);
    assert [] + Commands(messages) == Commands(messages);
  }
}
