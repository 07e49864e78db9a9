/** What an agent session says: for every message, exactly what the hub and the agent
    are told because of it. */
module AcpWords {
  import opened Basics
  import opened Acp

  /** What the hub is told, without the number. */
  datatype ToHub = Told(event: Event) | Now(status: Option<Status>) | Over

  /** What the agent is told, without the request id. */
  datatype ToAgent = Ask(rpc: Rpc) | Stop | NoSuchMethod | Decide(asked: nat, option: Option<string>)

  datatype Words = Words(hub: seq<ToHub>, agent: seq<ToAgent>)

  const SILENCE := Words([], [])

  function PlainOut(o: Out): ToHub
  {
    match o
    case AgentEvent(_, event) => Told(event)
    case Update(status) => Now(status)
    case Exited => Over
  }

  function PlainWire(w: Wire): ToAgent
  {
    match w
    case Request(_, rpc) => Ask(rpc)
    case Notify => Stop
    case NotFound => NoSuchMethod
    case Reply(asked, option) => Decide(asked, option)
  }

  /** All that was said so far. */
  function Said(a: Actor): (r: Words)
    ensures |r.hub| == |a.output.hub| && |r.agent| == |a.output.stdin|
  {
    Words(seq(|a.output.hub|, i requires 0 <= i < |a.output.hub| => PlainOut(a.output.hub[i])),
          seq(|a.output.stdin|, i requires 0 <= i < |a.output.stdin| => PlainWire(a.output.stdin[i])))
  }

  function Then(x: Words, y: Words): Words
  {
    Words(x.hub + y.hub, x.agent + y.agent)
  }

  lemma ThenAssoc(x: Words, y: Words, z: Words)
    ensures Then(Then(x, y), z) == Then(x, Then(y, z))
  {
  }

  lemma ThenSilence(x: Words)
    ensures Then(x, SILENCE) == x && Then(SILENCE, x) == x
  {
    assert x.hub + [] == x.hub && x.agent + [] == x.agent && [] + x.hub == x.hub && [] + x.agent == x.agent;
  }

  // ----- commands -----

  /** What a command says once the session exists. */
  function CommandWords(command: Command, question: Option<Parked>, supports: bool): Words
  {
    match command
    case Prompt(text) => Words([Told(UserMessage(text)), Now(Some(Working))], [Ask(Turn(text))])
    case Answer(request, option) =>
      if question.Some? && question.value.request == request
      then Words([Told(Resolved(request)), Now(Some(Working))], [Decide(question.value.asked, option)]) else SILENCE
    case SetModel(model) => if supports then Words([], [Ask(Model(model))]) else Words([Told(Failure)], [])
    case Cancel => Words([], [Stop])
    case Kill => if question.Some? then Words([], [Decide(question.value.asked, None)]) else SILENCE
  }

  /** The question that is parked after a command. */
  function QuestionAfter(command: Command, question: Option<Parked>): Option<Parked>
  {
    match command
    case Answer(request, _) => if question.Some? && question.value.request == request then None else question
    case Kill => None
    case _ => question
  }

  /** One command of the queue after the other. */
  function QueueWords(queue: seq<Ticket>, question: Option<Parked>, supports: bool): Words
    decreases |queue|
  {
    if queue == [] then SILENCE
    else
      Then(CommandWords(queue[0].command, question, supports),
           QueueWords(queue[1..], QuestionAfter(queue[0].command, question), supports))
  }

  // ----- every message -----

  /** What becomes of the requested model and the queue when the session is ready. */
  function ReadyWords(a: Actor, supports: bool): Words
  {
    if a.requested.None? then QueueWords(a.queue, a.question, supports)
    else if supports then Words([], [Ask(Model(a.requested.value))])
    else Then(Words([Told(Failure)], []), QueueWords(a.queue, a.question, supports))
  }

  function WaitingWords(a: Actor): Words
  {
    if a.flushAfter then QueueWords(a.queue, a.question, a.supports) else SILENCE
  }

  function ResultWords(a: Actor, rpc: Rpc, models: Option<bool>): Words
  {
    match rpc
    case Initialize => Words([], [Ask(if a.resume.Some? then SessionLoad else SessionNew)])
    case SessionNew => Then(Words([Now(Some(Idle))], []), ReadyWords(a, models == Some(true)))
    case SessionLoad =>
      Then(Words([Now(Some(Idle))], []), ReadyWords(a, if models.Some? then models.value else a.supports))
    case Turn(_) => Words([Told(TurnEnded), Now(Some(if a.question.Some? then Asked else Idle))], [])
    case Model(_) => Then(Words([Now(None)], []), WaitingWords(a))
  }

  function FailWords(a: Actor): Words
  {
    if a.failed then SILENCE else Words([Told(Failure), Now(Some(Errored))], [])
  }

  function RefusalWords(a: Actor, rpc: Rpc): Words
  {
    match rpc
    case SessionLoad => Words([Told(Failure)], [Ask(SessionNew)])
    case Turn(_) => Words([Told(Failure), Now(Some(Idle))], [])
    case Model(_) => Then(Words([Told(Failure)], []), WaitingWords(a))
    case _ => FailWords(a)
  }

  function MessageWords(a: Actor, m: Message): Words
  {
    match m
    case Hub(command) =>
      if command.Kill? || a.session.Some? then CommandWords(command, a.question, a.supports)
      else if a.failed || |a.queue| >= 16 then Words([Told(Failure)], []) else SILENCE
    case FromAgent(Malformed) => SILENCE
    case FromAgent(SessionUpdate(text)) =>
      if a.suppress || text.None? then SILENCE else Words([Told(Agent(text.value))], [])
    case FromAgent(Permission(request, allowed)) =>
      if a.autoRun then Words([], [Decide(a.notes.permissions, allowed)])
      else Words([Told(Question(request)), Now(Some(Asked))], [])
    case FromAgent(UnknownMethod(hasId)) => if hasId then Words([], [NoSuchMethod]) else SILENCE
    case FromAgent(Response(id, outcome)) =>
      if id !in a.rpcs.pending then SILENCE
      else if outcome.Done? then ResultWords(a, a.rpcs.pending[id], outcome.models)
      else RefusalWords(a, a.rpcs.pending[id])
    case Eof => if a.ended then SILENCE else Words([Over], [])
    case Timeout(id) => if id in a.rpcs.pending then FailWords(a) else SILENCE
  }

  // ----- the session says just that -----

  lemma EmitSays(a: Actor, event: Event)
    ensures Said(Emit(a, event)) == Then(Said(a), Words([Told(event)], []))
  {
  }

  lemma TellSays(a: Actor, status: Option<Status>)
    ensures Said(Tell(a, status)) == Then(Said(a), Words([Now(status)], []))
  {
  }

  lemma WriteSays(a: Actor, wire: Wire)
    ensures Said(Write(a, wire)) == Then(Said(a), Words([], [PlainWire(wire)]))
  {
  }

  lemma SameSays(a: Actor, b: Actor)
    requires b.output == a.output
    ensures Said(b) == Said(a) && Said(b) == Then(Said(a), SILENCE)
  {
    ThenSilence(Said(a));
  }

  lemma SendSays(a: Actor, rpc: Rpc)
    ensures Said(SendRequest(a, rpc)) == Then(Said(a), Words([], [Ask(rpc)]))
  {
    WriteSays(a, Request(a.rpcs.next, rpc));
    SameSays(Write(a, Request(a.rpcs.next, rpc)), SendRequest(a, rpc));
  }

  lemma EmitTellSays(a: Actor, event: Event, status: Option<Status>)
    ensures Said(Tell(Emit(a, event), status)) == Then(Said(a), Words([Told(event), Now(status)], []))
  {
    EmitSays(a, event);
    TellSays(Emit(a, event), status);
    ThenAssoc(Said(a), Words([Told(event)], []), Words([Now(status)], []));
  }

  lemma PromptSays(a: Actor, text: string)
    ensures Said(RunPrompt(a, text)) == Then(Said(a), CommandWords(Prompt(text), a.question, a.supports))
  {
    var b := Tell(Emit(a, UserMessage(text)), Some(Working));
    EmitTellSays(a, UserMessage(text), Some(Working));
    SendSays(b, Turn(text));
    ThenAssoc(Said(a), Words([Told(UserMessage(text)), Now(Some(Working))], []), Words([], [Ask(Turn(text))]));
  }

  lemma AnswerSays(a: Actor, request: string, option: Option<string>)
    ensures Said(RunAnswer(a, request, option)) == Then(Said(a), CommandWords(Answer(request, option), a.question, a.supports))
  {
    if a.question.Some? && a.question.value.request == request {
      var wire := Reply(a.question.value.asked, option);
      var b := Write(a, wire).(question := None);
      WriteSays(a, wire);
      SameSays(Write(a, wire), b);
      EmitTellSays(b, Resolved(request), Some(Working));
      ThenAssoc(Said(a), Words([], [PlainWire(wire)]), Words([Told(Resolved(request)), Now(Some(Working))], []));
    } else {
      ThenSilence(Said(a));
    }
  }

  lemma KillSays(a: Actor)
    ensures Said(KillChild(a)) == Then(Said(a), CommandWords(Kill, a.question, a.supports))
  {
    ThenSilence(Said(a));
    if a.question.Some? {
      var wire := Reply(a.question.value.asked, None);
      WriteSays(a, wire);
      SameSays(Write(a, wire), KillChild(a));
    }
  }

  lemma SetModelSays(a: Actor, model: string)
    ensures Said(RunSetModel(a, model)) == Then(Said(a), CommandWords(SetModel(model), a.question, a.supports))
  {
    if a.supports {
      SendSays(a, Model(model));
    } else {
      EmitSays(a, Failure);
    }
  }

  lemma PerformSays(a: Actor, command: Command)
    ensures var b := Perform(a, command);
      && Said(b) == Then(Said(a), CommandWords(command, a.question, a.supports))
      && b.question == QuestionAfter(command, a.question) && b.supports == a.supports && b.suppress == a.suppress
  {
    PerformLeaves(a, command);
    match command
    case Prompt(text) => PromptSays(a, text);
    case Answer(request, option) => AnswerSays(a, request, option);
    case SetModel(model) => SetModelSays(a, model);
    case Cancel => WriteSays(a, Notify);
    case Kill => KillSays(a);
  }

  lemma PerformLeaves(a: Actor, command: Command)
    ensures var b := Perform(a, command);
      b.question == QuestionAfter(command, a.question) && b.supports == a.supports && b.suppress == a.suppress
  {
    match command
    case Answer(request, option) => AnswerLeaves(a, request, option);
    case SetModel(model) => SetModelLeaves(a, model);
    case _ =>
  }

  lemma AnswerLeaves(a: Actor, request: string, option: Option<string>)
    ensures var b := RunAnswer(a, request, option);
      && b.question == QuestionAfter(Answer(request, option), a.question)
      && b.supports == a.supports && b.suppress == a.suppress
  {
  }

  lemma SetModelLeaves(a: Actor, model: string)
    ensures var b := RunSetModel(a, model);
      b.question == a.question && b.supports == a.supports && b.suppress == a.suppress
  {
  }

  lemma ExecuteSays(a: Actor, t: Ticket)
    ensures var b := Execute(a, t);
      && Said(b) == Then(Said(a), CommandWords(t.command, a.question, a.supports))
      && b.question == QuestionAfter(t.command, a.question) && b.supports == a.supports && b.suppress == a.suppress
  {
    SameSays(a, Ran(a, t.number));
    PerformSays(Ran(a, t.number), t.command);
  }

  lemma {:induction false} FlushSays(a: Actor)
    ensures Said(Flush(a)) == Then(Said(a), QueueWords(a.queue, a.question, a.supports))
    ensures Flush(a).supports == a.supports && Flush(a).suppress == a.suppress
    decreases |a.queue|
  {
    if a.queue == [] {
      ThenSilence(Said(a));
    } else {
      var popped := a.(queue := a.queue[1..]);
      var b := Execute(popped, a.queue[0]);
      SameSays(a, popped);
      ExecuteSays(popped, a.queue[0]);
      FlushSays(b);
      ThenAssoc(Said(a), CommandWords(a.queue[0].command, a.question, a.supports),
                QueueWords(b.queue, b.question, b.supports));
    }
  }

  lemma CommandSays(a: Actor, command: Command)
    ensures Said(HandleCommand(a, command)) == Then(Said(a), MessageWords(a, Hub(command)))
  {
    var t, n := Ticket(a.notes.arrived, command), Arrived(a);
    SameSays(a, n);
    if command.Kill? {
      KilledSays(n, t.number);
    } else if a.session.Some? {
      ExecuteSays(n, t);
    } else {
      WaitSays(n, t);
    }
  }

  lemma KilledSays(a: Actor, number: nat)
    ensures Said(KillChild(Killed(DropQueue(a), number))) == Then(Said(a), CommandWords(Kill, a.question, a.supports))
  {
    SameSays(a, Killed(DropQueue(a), number));
    KillSays(Killed(DropQueue(a), number));
  }

  lemma WaitSays(a: Actor, t: Ticket)
    ensures Said(Reject(a, t.number)) == Then(Said(a), Words([Told(Failure)], []))
    ensures Said(Enqueue(a, t)) == Then(Said(a), SILENCE)
  {
    EmitSays(a, Failure);
    SameSays(Emit(a, Failure), Reject(a, t.number));
    SameSays(a, Enqueue(a, t));
  }

  lemma PermissionSays(a: Actor, request: string, allowed: Option<string>)
    ensures Said(HandlePermission(a, request, allowed)) == Then(Said(a), MessageWords(a, FromAgent(Permission(request, allowed))))
  {
    if a.autoRun {
      WriteSays(a, Reply(a.notes.permissions, allowed));
      SameSays(Write(a, Reply(a.notes.permissions, allowed)), ReplyAtOnce(a, allowed));
    } else {
      SameSays(a, Park(a, request));
      EmitTellSays(Park(a, request), Question(request), Some(Asked));
    }
  }

  lemma ReadySays(a: Actor)
    ensures Said(ApplyRequestedModelThenFlush(a)) == Then(Said(a), ReadyWords(a, a.supports))
  {
    if a.requested.None? {
      FlushSays(a);
    } else if !a.supports {
      var n := a.(requested := None);
      SameSays(a, n);
      EmitSays(n, Failure);
      FlushSays(Emit(n, Failure));
      ThenAssoc(Said(a), Words([Told(Failure)], []), QueueWords(a.queue, a.question, a.supports));
    } else {
      var n := a.(requested := None).(flushAfter := true, notes := a.notes.(asked := Some(a.rpcs.next)));
      SameSays(a, n);
      SetModelSays(n, a.requested.value);
    }
  }

  lemma WaitingSays(a: Actor)
    ensures Said(FlushIfWaiting(a)) == Then(Said(a), WaitingWords(a))
  {
    if a.flushAfter {
      SameSays(a, a.(flushAfter := false));
      FlushSays(a.(flushAfter := false));
    } else {
      ThenSilence(Said(a));
    }
  }

  lemma OpenedSays(a: Actor, session: Option<string>, supports: bool)
    ensures Said(ApplyRequestedModelThenFlush(Opened(a, session, supports)))
            == Then(Said(a), Then(Words([Now(Some(Idle))], []), ReadyWords(a, supports)))
  {
    var n := a.(suppress := false, session := session, supports := supports);
    SameSays(a, n);
    TellSays(n, Some(Idle));
    ReadySays(Opened(a, session, supports));
    ThenAssoc(Said(a), Words([Now(Some(Idle))], []), ReadyWords(a, supports));
  }

  lemma ResultSays(a: Actor, rpc: Rpc, session: string, models: Option<bool>)
    ensures Said(HandleResult(a, rpc, session, models)) == Then(Said(a), ResultWords(a, rpc, models))
  {
    match rpc
    case Initialize =>
      SameSays(a, a.(suppress := true));
      SendSays(a.(suppress := true), SessionLoad);
      SendSays(a, SessionNew);
    case SessionNew => OpenedSays(a, Some(session), models.Some? && models.value);
    case SessionLoad => OpenedSays(a, a.resume, if models.Some? then models.value else a.supports);
    case Turn(_) => EmitTellSays(a, TurnEnded, Some(if a.question.Some? then Asked else Idle));
    case Model(_) =>
      TellSays(a, None);
      WaitingSays(Tell(a, None));
      ThenAssoc(Said(a), Words([Now(None)], []), WaitingWords(a));
  }

  lemma FailSays(a: Actor)
    ensures Said(Fail(a)) == Then(Said(a), FailWords(a))
  {
    if a.failed {
      ThenSilence(Said(a));
    } else {
      var n := DropQueue(a).(failed := true);
      SameSays(a, n);
      EmitTellSays(n, Failure, Some(Errored));
    }
  }

  lemma RefusalSays(a: Actor, rpc: Rpc)
    ensures Said(HandleError(a, rpc)) == Then(Said(a), RefusalWords(a, rpc))
  {
    match rpc
    case SessionLoad =>
      var n := a.(suppress := false);
      SameSays(a, n);
      EmitSays(n, Failure);
      SendSays(Emit(n, Failure), SessionNew);
      ThenAssoc(Said(a), Words([Told(Failure)], []), Words([], [Ask(SessionNew)]));
    case Turn(_) => EmitTellSays(a, Failure, Some(Idle));
    case Model(_) =>
      EmitSays(a, Failure);
      WaitingSays(Emit(a, Failure));
      ThenAssoc(Said(a), Words([Told(Failure)], []), WaitingWords(a));
    case _ => FailSays(a);
  }

  lemma LineSays(a: Actor, line: Line)
    ensures Said(HandleLine(a, line)) == Then(Said(a), MessageWords(a, FromAgent(line)))
  {
    ThenSilence(Said(a));
    match line
    case Malformed =>
    case SessionUpdate(text) => if text.Some? { EmitSays(a, Agent(text.value)); }
    case Permission(request, allowed) => PermissionSays(a, request, allowed);
    case UnknownMethod(_) => WriteSays(a, NotFound);
    case Response(id, outcome) =>
      if id in a.rpcs.pending {
        ResponseSays(a, id, outcome);
      }
  }

  lemma ResponseSays(a: Actor, id: nat, outcome: Outcome)
    requires id in a.rpcs.pending
    ensures Said(HandleResponse(a, id, outcome)) == Then(Said(a), MessageWords(a, FromAgent(Response(id, outcome))))
  {
    var b, rpc := Answered(a, id), a.rpcs.pending[id];
    SameSays(a, b);
    if outcome.Done? {
      ResultSays(b, rpc, outcome.session, outcome.models);
      SameResult(a, b, rpc, outcome.models);
    } else {
      RefusalSays(b, rpc);
      SameRefusal(a, b, rpc);
    }
  }

  lemma SameResult(a: Actor, b: Actor, rpc: Rpc, models: Option<bool>)
    requires b == a.(rpcs := b.rpcs)
    ensures ResultWords(b, rpc, models) == ResultWords(a, rpc, models)
  {
  }

  lemma SameRefusal(a: Actor, b: Actor, rpc: Rpc)
    requires b == a.(rpcs := b.rpcs)
    ensures RefusalWords(b, rpc) == RefusalWords(a, rpc)
  {
  }

  lemma TimeoutSays(a: Actor, id: nat)
    ensures Said(HandshakeTimeout(a, id)) == Then(Said(a), MessageWords(a, Timeout(id)))
  {
    var n := a.(rpcs := a.rpcs.(watchdogs := a.rpcs.watchdogs - {id}));
    SameSays(a, n);
    if id in a.rpcs.pending {
      SameSays(n, Answered(n, id));
      FailSays(Answered(n, id));
    }
  }

  lemma EofSays(a: Actor)
    ensures Said(OnEof(a)) == Then(Said(a), MessageWords(a, Eof))
  {
    ThenSilence(Said(a));
    if !a.ended {
      assert Said(OnEof(a)).hub == Said(a).hub + [Over];
      assert Said(OnEof(a)).agent == Said(a).agent;
    }
  }

  /** Main result: whatever the state, each message makes the session say exactly its
      words: to the hub and to the agent, nothing else and in that order. */
  lemma NextSaysExactly(a: Actor, m: Message)
    ensures Said(Next(a, m)) == Then(Said(a), MessageWords(a, m))
  {
    match m
    case Hub(command) => CommandSays(a, command);
    case FromAgent(line) => LineSays(a, line);
    case Eof => EofSays(a);
    case Timeout(id) => TimeoutSays(a, id);
  }
}
