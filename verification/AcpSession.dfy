/** The actor as the program writes it: an object whose methods update its
    fields, proved to do what module Acp says. */
module AcpSession {
  import opened Basics
  import opened Acp
  import opened AcpValid
  import AcpWords

  class SessionActor {
    var session: Option<string>
    const resume: Option<string>
    var suppress: bool
    var failed: bool
    var ended: bool
    const autoRun: bool
    var question: Option<Parked>
    var queue: seq<Ticket>
    var supports: bool
    var requested: Option<string>
    var flushAfter: bool
    var pending: map<nat, Rpc>
    var nextRpc: nat
    var watchdogs: set<nat>
    var sequence: nat
    var outbound: seq<Out>
    var stdin: seq<Wire>
    var notes: Notes               // of an observer; nothing below depends on them

    function State(): Actor
      reads this
    {
      Actor(session, resume, suppress, failed, ended, autoRun, question, queue, supports, requested, flushAfter,
            Rpcs(pending, nextRpc, watchdogs), Output(sequence, outbound, stdin), notes)
    }

    /** All that the hub and the agent were told. */
    function Said(): AcpWords.Words
      reads this
    {
      AcpWords.Said(State())
    }

    /** What a message is answered with, now. */
    function WordsFor(message: Message): AcpWords.Words
      reads this
    {
      AcpWords.MessageWords(State(), message)
    }

    ghost predicate Valid()
      reads this
    {
      SessionValid(State())
    }

    constructor (resume: Option<string>, requested: Option<string>, autoRun: bool)
      ensures Valid() && !ended && State() == Begin(resume, requested, autoRun)
      ensures queue == [] && outbound == [] && stdin == [Request(1, Initialize)]
    {
      session, suppress, failed, ended, question, queue := None, false, false, false, None, [];
      this.resume, this.requested, this.autoRun := resume, requested, autoRun;
      supports, flushAfter := false, false;
      pending, nextRpc, watchdogs := map[], 1, {};
      sequence, outbound, stdin := 0, [], [];
      notes := Notes(0, [], [], {}, [], None, 0, []);
      new;
      SendRequest(Initialize);
      BeginValid(State(), resume, requested, autoRun);
    }

    method EmitEvent(event: Event)
      modifies this
      ensures State() == Emit(old(State()), event)
    {
      sequence := sequence + 1;
      outbound := outbound + [AgentEvent(sequence, event)];
    }

    method SendStatus(status: Option<Status>)
      modifies this
      ensures State() == Tell(old(State()), status)
    {
      outbound := outbound + [Update(status)];
    }

    method WriteMessage(wire: Wire)
      modifies this
      ensures State() == Write(old(State()), wire)
    {
      stdin := stdin + [wire];
    }

    method SendRequest(kind: Rpc)
      modifies this
      ensures State() == Acp.SendRequest(old(State()), kind)
    {
      var id := nextRpc;
      nextRpc := nextRpc + 1;
      pending := pending[id := kind];
      WriteMessage(Request(id, kind));
      if IsHandshake(kind) {
        watchdogs := watchdogs + {id};
      }
    }

    // ----- commands -----

    /** Between messages the session is valid; a command runs, waits or is
        dropped, and the queue never grows past its limit. */
    method HandleCommand(command: Command)
      requires Valid() && !ended
      modifies this
      ensures Valid() && !ended && State() == Acp.HandleCommand(old(State()), command)
      ensures Said() == AcpWords.Then(old(Said()), old(WordsFor(Hub(command))))
      ensures session == old(session) && failed == old(failed) && |queue| <= MAX_QUEUED_COMMANDS
      ensures command.Kill? ==> queue == []
      ensures !command.Kill? && session.Some? ==>
                notes.ran == old(notes.ran) + [old(notes.arrived)] && queue == old(queue)
      ensures !command.Kill? && session.None? ==>
                notes.ran == old(notes.ran)
                && queue == if !failed && |old(queue)| < MAX_QUEUED_COMMANDS
                            then old(queue) + [Ticket(old(notes.arrived), command)] else old(queue)
    {
      DispatchCommand(command);
      NextSessionValid(old(State()), Hub(command));
      ValidMeans(State());
      CommandMeans(old(State()), command);
      AcpWords.NextSaysExactly(old(State()), Hub(command));
    }

    method DispatchCommand(command: Command)
      modifies this
      ensures State() == Acp.HandleCommand(old(State()), command)
    {
      var ticket := NumberCommand(command);
      if command.Kill? {
        KillSession(ticket.number);
      } else if session.Some? {
        ExecuteCommand(ticket);
      } else if failed || |queue| >= MAX_QUEUED_COMMANDS {
        RejectCommand(ticket.number);
      } else {
        QueueCommand(ticket);
      }
    }

    method NumberCommand(command: Command) returns (ticket: Ticket)
      modifies this
      ensures State() == Arrived(old(State())) && ticket == Ticket(old(notes).arrived, command)
    {
      ticket := Ticket(notes.arrived, command);
      notes := notes.(arrived := notes.arrived + 1);
    }

    method KillSession(number: nat)
      modifies this
      ensures State() == Acp.KillChild(Killed(DropQueue(old(State())), number))
    {
      ClearQueue();
      notes := notes.(kills := notes.kills + [number]);
      KillChild();
    }

    method RejectCommand(number: nat)
      modifies this
      ensures State() == Reject(old(State()), number)
    {
      EmitEvent(Failure);
      notes := notes.(dropped := notes.dropped + [number]);
    }

    method QueueCommand(ticket: Ticket)
      modifies this
      ensures State() == Enqueue(old(State()), ticket)
    {
      queue := queue + [ticket];
      notes := notes.(held := notes.held + {ticket.number});
    }

    method ClearQueue()
      modifies this
      ensures State() == DropQueue(old(State()))
    {
      notes := notes.(dropped := notes.dropped + Numbers(queue));
      queue := [];
    }

    method ExecuteCommand(ticket: Ticket)
      modifies this
      ensures State() == Execute(old(State()), ticket)
    {
      notes := notes.(ran := notes.ran + [ticket.number]);
      match ticket.command {
        case Prompt(text) =>
          EmitEvent(UserMessage(text));
          SendStatus(Some(Working));
          SendRequest(Turn(text));
        case Answer(request, option) => HandleAnswer(request, option);
        case SetModel(model) => HandleSetModel(model);
        case Cancel => WriteMessage(Notify);
        case Kill => KillChild();
      }
    }

    method FlushQueuedCommands()
      modifies this
      ensures State() == Flush(old(State()))
    {
      while queue != []
        invariant Flush(State()) == Flush(old(State()))
        decreases |queue|
      {
        ghost var before := State();
        var ticket := queue[0];
        queue := queue[1..];
        ExecuteCommand(ticket);
        assert State() == Execute(before.(queue := before.queue[1..]), ticket);
        assert State().queue == before.queue[1..];
      }
    }

    method KillChild()
      modifies this
      ensures State() == Acp.KillChild(old(State()))
    {
      if question.Some? {
        WriteMessage(Reply(question.value.asked, None));
        question := None;
      }
    }

    method HandleSetModel(model: string)
      modifies this
      ensures State() == RunSetModel(old(State()), model)
    {
      if !supports {
        EmitEvent(Failure);
        return;
      }
      SendRequest(Model(model));
    }

    method HandleAnswer(request: string, option: Option<string>)
      modifies this
      ensures State() == RunAnswer(old(State()), request, option)
    {
      if question.None? || question.value.request != request {
        return;
      }
      WriteMessage(Reply(question.value.asked, option));
      question := None;
      EmitEvent(Resolved(request));
      SendStatus(Some(Working));
    }

    method ApplyRequestedModelThenFlush()
      modifies this
      ensures State() == Acp.ApplyRequestedModelThenFlush(old(State()))
    {
      if requested.None? {
        FlushQueuedCommands();
        return;
      }
      var model := requested.value;
      requested := None;
      if !supports {
        EmitEvent(Failure);
        FlushQueuedCommands();
        return;
      }
      flushAfter := true;
      notes := notes.(asked := Some(nextRpc));
      HandleSetModel(model);
    }

    // ----- the agent -----

    /** Whatever the agent says: the session stays valid, a ready one keeps its id,
        a failed one is not revived, and at most one handshake request is pending. */
    method HandleLine(line: Line)
      requires Valid() && !ended
      modifies this
      ensures Valid() && !ended && State() == Acp.HandleLine(old(State()), line)
      ensures Said() == AcpWords.Then(old(Said()), old(WordsFor(FromAgent(line))))
      ensures old(session).Some? ==> session == old(session)
      ensures old(failed) ==> failed && session.None? && queue == []
      ensures |HandshakesPending(pending)| == if session.Some? || failed then 0 else 1
      ensures |queue| <= MAX_QUEUED_COMMANDS && old(notes.ran) <= notes.ran
    {
      DispatchLine(line);
      NextSessionValid(old(State()), FromAgent(line));
      ValidMeans(State());
      LineMeans(old(State()), line);
      AcpWords.NextSaysExactly(old(State()), FromAgent(line));
    }

    method DispatchLine(line: Line)
      modifies this
      ensures State() == Acp.HandleLine(old(State()), line)
    {
      match line {
        case Malformed =>
        case SessionUpdate(text) =>
          if !suppress && text.Some? {
            EmitEvent(Agent(text.value));
          }
        case Permission(request, allowed) => HandlePermissionRequest(request, allowed);
        case UnknownMethod(hasId) =>
          if hasId {
            WriteMessage(NotFound);
          }
        case Response(id, outcome) => HandleResponse(id, outcome);
      }
    }

    method HandlePermissionRequest(request: string, allowed: Option<string>)
      modifies this
      ensures State() == HandlePermission(old(State()), request, allowed)
    {
      var number := notes.permissions;
      if autoRun {
        WriteMessage(Reply(number, allowed));
        notes := notes.(permissions := number + 1);
        return;
      }
      notes := notes.(permissions := number + 1,
                      forgotten := notes.forgotten + if question.Some? then [question.value.asked] else []);
      question := Some(Parked(request, number));
      EmitEvent(Question(request));
      SendStatus(Some(Asked));
    }

    method HandleResponse(id: nat, outcome: Outcome)
      modifies this
      ensures State() == Acp.HandleResponse(old(State()), id, outcome)
    {
      if id !in pending {
        return;
      }
      var kind := pending[id];
      pending := pending - {id};
      match outcome {
        case Refused => HandleRpcError(kind);
        case Done(result, models) => HandleRpcResult(kind, result, models);
      }
    }

    method HandleRpcResult(kind: Rpc, result: string, models: Option<bool>)
      modifies this
      ensures State() == HandleResult(old(State()), kind, result, models)
    {
      match kind {
        case Initialize => StartAcpSession();
        case SessionNew =>
          MarkReady(Some(result), models.Some? && models.value);
          ApplyRequestedModelThenFlush();
        case SessionLoad =>
          MarkReady(resume, if models.Some? then models.value else supports);
          ApplyRequestedModelThenFlush();
        case Turn(_) =>
          EmitEvent(TurnEnded);
          SendStatus(Some(if question.Some? then Asked else Idle));
        case Model(_) =>
          SendStatus(None);
          FlushIfWaitingForModel();
      }
    }

    method MarkReady(session: Option<string>, supports: bool)
      modifies this
      ensures State() == Opened(old(State()), session, supports)
    {
      suppress := false;
      this.session := session;
      this.supports := supports;
      SendStatus(Some(Idle));
    }

    method HandleRpcError(kind: Rpc)
      modifies this
      ensures State() == HandleError(old(State()), kind)
    {
      match kind {
        case SessionLoad =>
          suppress := false;
          EmitEvent(Failure);
          SendRequest(SessionNew);
        case Turn(_) =>
          EmitEvent(Failure);
          SendStatus(Some(Idle));
        case Model(_) =>
          EmitEvent(Failure);
          FlushIfWaitingForModel();
        case _ => FailSession();
      }
    }

    method FlushIfWaitingForModel()
      modifies this
      ensures State() == FlushIfWaiting(old(State()))
    {
      if flushAfter {
        flushAfter := false;
        FlushQueuedCommands();
      }
    }

    method StartAcpSession()
      modifies this
      ensures State() == StartSession(old(State()))
    {
      if resume.Some? {
        suppress := true;
        SendRequest(SessionLoad);
      } else {
        SendRequest(SessionNew);
      }
    }

    // ----- the end -----

    /** A watchdog fails the session exactly if its request is unanswered. */
    method OnHandshakeTimeout(id: nat)
      requires Valid() && !ended && id in watchdogs
      modifies this
      ensures Valid() && !ended && State() == HandshakeTimeout(old(State()), id)
      ensures Said() == AcpWords.Then(old(Said()), old(WordsFor(Timeout(id))))
      ensures failed <==> old(failed) || id in old(pending)
      ensures session == old(session) && notes.ran == old(notes.ran)
      ensures id !in old(pending) ==> queue == old(queue) && outbound == old(outbound) && pending == old(pending)
    {
      DispatchTimeout(id);
      NextSessionValid(old(State()), Timeout(id));
      TimeoutMeans(old(State()), id);
      AcpWords.NextSaysExactly(old(State()), Timeout(id));
    }

    method DispatchTimeout(id: nat)
      modifies this
      ensures State() == HandshakeTimeout(old(State()), id)
    {
      if id in pending {
        watchdogs := watchdogs - {id};
        pending := pending - {id};
        FailSession();
      } else {
        watchdogs := watchdogs - {id};
      }
    }

    method FailSession()
      modifies this
      ensures State() == Fail(old(State()))
    {
      if failed {
        return;
      }
      ClearQueue();
      failed := true;
      EmitEvent(Failure);
      SendStatus(Some(Errored));
    }

    /** The end is told once, and is the last thing the hub hears. */
    method OnEof()
      requires Valid() && !ended
      modifies this
      ensures Valid() && ended && State() == Acp.OnEof(old(State()))
      ensures queue == [] && outbound == old(outbound) + [Exited] && notes.ran == old(notes.ran)
    {
      DispatchEof();
      NextSessionValid(old(State()), Eof);
    }

    method DispatchEof()
      modifies this
      ensures State() == Acp.OnEof(old(State()))
    {
      if ended {
        return;
      }
      ClearQueue();
      ended := true;
      outbound := outbound + [Exited];
    }

    method Handle(message: Message)
      requires Valid() && Enabled(State(), message)
      modifies this
      ensures Valid() && State() == Next(old(State()), message)
    {
      match message {
        case Hub(command) => HandleCommand(command);
        case FromAgent(line) => HandleLine(line);
        case Eof => OnEof();
        case Timeout(id) => OnHandshakeTimeout(id);
      }
    }

    /** The actor's loop, for the messages that come before it ends. */
    method HandleAll(messages: seq<Message>)
      requires Valid() && Possible(State(), messages)
      modifies this
      ensures Valid() && State() == Run(old(State()), messages)
    {
      var i := 0;
      while i < |messages|
        invariant 0 <= i <= |messages|
        invariant Valid() && Possible(State(), messages[i..])
        invariant Run(State(), messages[i..]) == Run(old(State()), messages)
      {
        assert messages[i..][1..] == messages[i + 1..];
        Handle(messages[i]);
        i := i + 1;
      }
    }
  }
}
