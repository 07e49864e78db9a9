/** What holds of an agent session in every run, whatever the agent says. */
module AcpRuns {
  import opened Basics
  import opened Acp

  // ----- the handshake -----

  predicate NoHandshake(pending: map<nat, Rpc>)
  {
    forall id | id in pending :: !IsHandshake(pending[id])
  }

  predicate Pendings(r: Rpcs, resume: Option<string>)
  {
    && (forall id | id in r.pending :: id < r.next && (IsHandshake(r.pending[id]) <==> id in r.watchdogs)
                                       && (r.pending[id].SessionLoad? ==> resume.Some?))
    && (forall id | id in r.watchdogs :: id < r.next)
    && (forall i, j | i in r.pending && j in r.pending && IsHandshake(r.pending[i]) && IsHandshake(r.pending[j]) :: i == j)
  }

  /** At most one handshake request is pending; none once the session is ready
      or has failed, and exactly one, with its watchdog, until then. */
  predicate Handshaking(a: Actor)
  {
    && Pendings(a.rpcs, a.resume)
    && (a.session.Some? || a.failed ==> NoHandshake(a.rpcs.pending))
    && (a.failed ==> a.session.None? && a.queue == [])
    && (a.session.None? && !a.failed ==> !NoHandshake(a.rpcs.pending))
    && (a.session.None? ==> !a.flushAfter && forall id | id in a.rpcs.pending :: IsHandshake(a.rpcs.pending[id]))
    && |a.queue| <= MAX_QUEUED_COMMANDS
    && (a.session.Some? && a.queue != [] ==> a.flushAfter)
  }

  /** What performing commands leaves alone, except for the notes. */
  predicate SameCourse(a: Actor, b: Actor)
  {
    && b.session == a.session && b.failed == a.failed && b.ended == a.ended && b.resume == a.resume
    && b.flushAfter == a.flushAfter && b.requested == a.requested
  }

  predicate OnlyRan(a: Actor, b: Actor, numbers: seq<nat>)
  {
    SameCourse(a, b) && b.notes == a.notes.(ran := a.notes.ran + numbers) && Grown(a.rpcs, b.rpcs)
  }

  /** New requests have new ids and are no handshake. */
  predicate Grown(a: Rpcs, b: Rpcs)
  {
    && a.next <= b.next && b.watchdogs == a.watchdogs
    && (forall id | id in a.pending :: id in b.pending && b.pending[id] == a.pending[id])
    && (forall id | id in b.pending && id !in a.pending :: a.next <= id < b.next && !IsHandshake(b.pending[id]))
  }

  lemma GrownIssue(r: Rpcs, rpc: Rpc)
    requires (forall id | id in r.pending :: id < r.next) && !IsHandshake(rpc)
    ensures Grown(r, Issue(r, rpc))
  {
  }

  predicate SameBut(a: Actor, b: Actor, rpcs: Rpcs)
  {
    SameCourse(a, b) && b.notes == a.notes && b.rpcs == rpcs
  }

  lemma PromptSame(a: Actor, text: string)
    ensures SameBut(a, RunPrompt(a, text), Issue(a.rpcs, Turn(text)))
  {
  }

  lemma Replied(a: Actor, wire: Wire)
    ensures SameBut(a, Write(a, wire).(question := None), a.rpcs)
  {
  }

  lemma ToldSame(a: Actor, event: Event, status: Option<Status>)
    ensures SameBut(a, Tell(Emit(a, event), status), a.rpcs)
  {
  }

  lemma AnswerSame(a: Actor, request: string, option: Option<string>)
    ensures SameBut(a, RunAnswer(a, request, option), a.rpcs)
  {
    if a.question.Some? && a.question.value.request == request {
      var wire := Reply(a.question.value.asked, option);
      Replied(a, wire);
      ToldSame(Write(a, wire).(question := None), Resolved(request), Some(Working));
    }
  }

  lemma KillSame(a: Actor)
    ensures SameBut(a, KillChild(a), a.rpcs)
  {
  }

  lemma SetModelSame(a: Actor, model: string)
    ensures SameBut(a, RunSetModel(a, model), if a.supports then Issue(a.rpcs, Model(model)) else a.rpcs)
  {
  }

  lemma PerformRan(a: Actor, command: Command)
    requires forall id | id in a.rpcs.pending :: id < a.rpcs.next
    ensures var b := Perform(a, command); SameBut(a, b, b.rpcs) && Grown(a.rpcs, b.rpcs)
  {
    match command
    case Prompt(text) => PromptSame(a, text); GrownIssue(a.rpcs, Turn(text));
    case Answer(request, option) => AnswerSame(a, request, option);
    case SetModel(model) => SetModelSame(a, model); GrownIssue(a.rpcs, Model(model));
    case Kill => KillSame(a);
    case Cancel =>
  }

  lemma ExecuteRan(a: Actor, t: Ticket)
    requires forall id | id in a.rpcs.pending :: id < a.rpcs.next
    ensures OnlyRan(a, Execute(a, t), [t.number])
  {
    PerformRan(Ran(a, t.number), t.command);
  }

  lemma GrownPendings(a: Rpcs, b: Rpcs, resume: Option<string>)
    requires Pendings(a, resume) && Grown(a, b)
    ensures Pendings(b, resume)
    ensures NoHandshake(a.pending) ==> NoHandshake(b.pending)
  {
  }

  lemma GrownTwice(a: Rpcs, b: Rpcs, c: Rpcs)
    requires Grown(a, b) && Grown(b, c)
    ensures Grown(a, c)
  {
  }

  lemma RanTwice(a: Actor, b: Actor, c: Actor, x: seq<nat>, y: seq<nat>)
    requires OnlyRan(a, b, x) && OnlyRan(b, c, y)
    ensures OnlyRan(a, c, x + y)
  {
    GrownTwice(a.rpcs, b.rpcs, c.rpcs);
    Assoc(a.notes.ran, x, y);
  }

  /** The queue's first command, executed. */
  function Popped(a: Actor): Actor
    requires a.queue != []
  {
    Execute(a.(queue := a.queue[1..]), a.queue[0])
  }

  lemma PoppedRan(a: Actor)
    requires Pendings(a.rpcs, a.resume) && a.queue != []
    ensures OnlyRan(a, Popped(a), [a.queue[0].number]) && Popped(a).queue == a.queue[1..]
    ensures Pendings(Popped(a).rpcs, Popped(a).resume)
  {
    ExecuteRan(a.(queue := a.queue[1..]), a.queue[0]);
    GrownPendings(a.rpcs, Popped(a).rpcs, a.resume);
  }

  lemma {:induction false} FlushRan(a: Actor)
    requires Pendings(a.rpcs, a.resume)
    ensures OnlyRan(a, Flush(a), Numbers(a.queue))
    ensures Flush(a).queue == []
    decreases |a.queue|
  {
    if a.queue == [] {
      assert a.notes.ran + Numbers(a.queue) == a.notes.ran;
    } else {
      var b := Popped(a);
      PoppedRan(a);
      FlushRan(b);
      RanTwice(a, b, Flush(b), [a.queue[0].number], Numbers(b.queue));
      assert Numbers(a.queue) == [a.queue[0].number] + Numbers(b.queue);
    }
  }

  lemma FlushHandshaking(a: Actor)
    requires Pendings(a.rpcs, a.resume) && NoHandshake(a.rpcs.pending)
    requires a.session.Some? && !a.failed
    ensures Handshaking(Flush(a))
  {
    FlushRan(a);
    GrownPendings(a.rpcs, Flush(a).rpcs, a.resume);
  }

  lemma ExecuteHandshaking(a: Actor, t: Ticket)
    requires Handshaking(a) && a.session.Some?
    ensures Handshaking(Execute(a, t))
  {
    ExecuteRan(a, t);
    GrownPendings(a.rpcs, Execute(a, t).rpcs, a.resume);
  }

  lemma CommandHandshaking(a: Actor, command: Command)
    requires Handshaking(a)
    ensures Handshaking(HandleCommand(a, command))
  {
    var n, t := Arrived(a), Ticket(a.notes.arrived, command);
    if command.Kill? {
      KillSame(Killed(DropQueue(n), t.number));
    } else if a.session.Some? {
      ExecuteHandshaking(n, t);
    }
  }

  lemma ReadyHandshaking(a: Actor)
    requires Pendings(a.rpcs, a.resume) && NoHandshake(a.rpcs.pending)
    requires a.session.Some? && !a.failed && |a.queue| <= MAX_QUEUED_COMMANDS
    ensures Handshaking(ApplyRequestedModelThenFlush(a))
  {
    if a.requested.None? {
      FlushHandshaking(a);
    } else if !a.supports {
      FlushHandshaking(Emit(a.(requested := None), Failure));
    } else {
      GrownIssue(a.rpcs, Model(a.requested.value));
      GrownPendings(a.rpcs, Issue(a.rpcs, Model(a.requested.value)), a.resume);
    }
  }

  lemma AnsweredPendings(a: Actor, id: nat)
    requires Handshaking(a) && id in a.rpcs.pending
    ensures Pendings(Answered(a, id).rpcs, a.resume)
    ensures IsHandshake(a.rpcs.pending[id]) ==>
              Answered(a, id).rpcs.pending == map[] && a.session.None? && !a.failed && !a.flushAfter
    ensures !IsHandshake(a.rpcs.pending[id]) ==> a.session.Some? && NoHandshake(Answered(a, id).rpcs.pending)
  {
  }

  /** The only handshake request was answered: nothing is pending. */
  predicate Between(a: Actor)
  {
    && Pendings(a.rpcs, a.resume) && a.rpcs.pending == map[]
    && a.session.None? && !a.failed && !a.flushAfter && |a.queue| <= MAX_QUEUED_COMMANDS
  }

  lemma IssueHandshaking(a: Actor, rpc: Rpc)
    requires Between(a) && IsHandshake(rpc) && (rpc.SessionLoad? ==> a.resume.Some?)
    ensures Handshaking(SendRequest(a, rpc))
  {
    var r := Issue(a.rpcs, rpc);
    assert r.pending[a.rpcs.next] == rpc;
  }

  lemma FlushIfWaitingHandshaking(a: Actor)
    requires Handshaking(a) && a.session.Some?
    ensures Handshaking(FlushIfWaiting(a))
  {
    if a.flushAfter {
      FlushHandshaking(a.(flushAfter := false));
    }
  }

  lemma HandshakeResult(a: Actor, rpc: Rpc, session: string, models: Option<bool>)
    requires Between(a) && IsHandshake(rpc) && (rpc.SessionLoad? ==> a.resume.Some?)
    ensures Handshaking(HandleResult(a, rpc, session, models))
  {
    match rpc
    case Initialize =>
      if a.resume.Some? {
        IssueHandshaking(a.(suppress := true), SessionLoad);
      } else {
        IssueHandshaking(a, SessionNew);
      }
    case SessionNew =>
      ReadyHandshaking(Opened(a, Some(session), models.Some? && models.value));
    case SessionLoad =>
      ReadyHandshaking(Opened(a, a.resume, if models.Some? then models.value else a.supports));
  }

  lemma HandshakeError(a: Actor, rpc: Rpc)
    requires Between(a) && IsHandshake(rpc) && (rpc.SessionLoad? ==> a.resume.Some?)
    ensures Handshaking(HandleError(a, rpc))
  {
    if rpc.SessionLoad? {
      IssueHandshaking(Emit(a.(suppress := false), Failure), SessionNew);
    }
  }

  lemma OtherResponse(a: Actor, rpc: Rpc, outcome: Outcome)
    requires Handshaking(a) && !IsHandshake(rpc) && a.session.Some?
    ensures Handshaking(if outcome.Done? then HandleResult(a, rpc, outcome.session, outcome.models) else HandleError(a, rpc))
  {
    if rpc.Model? {
      FlushIfWaitingHandshaking(if outcome.Done? then Tell(a, None) else Emit(a, Failure));
    }
  }

  lemma ResponseHandshaking(a: Actor, id: nat, outcome: Outcome)
    requires Handshaking(a)
    ensures Handshaking(HandleResponse(a, id, outcome))
  {
    if id in a.rpcs.pending {
      var rpc := a.rpcs.pending[id];
      AnsweredPendings(a, id);
      if !IsHandshake(rpc) {
        OtherResponse(Answered(a, id), rpc, outcome);
      } else if outcome.Done? {
        HandshakeResult(Answered(a, id), rpc, outcome.session, outcome.models);
      } else {
        HandshakeError(Answered(a, id), rpc);
      }
    }
  }

  lemma TimeoutHandshaking(a: Actor, id: nat)
    requires Handshaking(a) && id in a.rpcs.watchdogs
    ensures Handshaking(HandshakeTimeout(a, id))
  {
    if id in a.rpcs.pending {
      AnsweredPendings(a, id);
    }
  }

  lemma LineHandshaking(a: Actor, line: Line)
    requires Handshaking(a)
    ensures Handshaking(HandleLine(a, line))
  {
    if line.Response? {
      ResponseHandshaking(a, line.id, line.outcome);
    }
  }

  lemma NextHandshaking(a: Actor, m: Message)
    requires Handshaking(a) && Enabled(a, m)
    ensures Handshaking(Next(a, m))
  {
    match m
    case Hub(command) => CommandHandshaking(a, command);
    case FromAgent(line) => LineHandshaking(a, line);
    case Eof =>
    case Timeout(id) => TimeoutHandshaking(a, id);
  }

  lemma {:induction false} RunHandshaking(a: Actor, messages: seq<Message>)
    requires Handshaking(a) && Possible(a, messages)
    ensures Handshaking(Run(a, messages))
    decreases |messages|
  {
    if messages != [] {
      NextHandshaking(a, messages[0]);
      RunHandshaking(Next(a, messages[0]), messages[1..]);
    }
  }

  lemma BeginHandshaking(resume: Option<string>, requested: Option<string>, autoRun: bool)
    ensures Handshaking(Begin(resume, requested, autoRun))
  {
    assert Begin(resume, requested, autoRun).rpcs.pending[1] == Initialize;
  }

  // ----- for good -----

  /** A session once ready stays it, under the same id; a failed one stays
      failed; and without a requested model no flush ever waits for one. */
  predicate Later(a: Actor, b: Actor)
  {
    && (a.requested.None? && !a.flushAfter ==> b.requested.None? && !b.flushAfter)
    && (a.session.Some? ==> b.session == a.session)
    && (a.failed ==> b.failed)
    && (a.ended ==> b.ended)
  }

  lemma FlushLater(a: Actor)
    requires Pendings(a.rpcs, a.resume)
    ensures SameCourse(a, Flush(a))
  {
    FlushRan(a);
  }

  /** The same, short of the end of the agent's output. */
  predicate Ongoing(a: Actor, b: Actor)
  {
    Later(a, b) && b.ended == a.ended
  }

  lemma ReadyLater(a: Actor)
    requires Pendings(a.rpcs, a.resume)
    ensures Ongoing(a, ApplyRequestedModelThenFlush(a))
  {
    if a.requested.None? {
      FlushLater(a);
    } else if !a.supports {
      FlushLater(Emit(a.(requested := None), Failure));
    } else {
      SetModelSame(a.(requested := None, flushAfter := true, notes := a.notes.(asked := Some(a.rpcs.next))), a.requested.value);
    }
  }

  lemma OpenedLater(a: Actor, session: Option<string>, supports: bool)
    requires a.session.None? && Pendings(a.rpcs, a.resume)
    ensures Ongoing(a, ApplyRequestedModelThenFlush(Opened(a, session, supports)))
  {
    ReadyLater(Opened(a, session, supports));
  }

  lemma ResultLater(a: Actor, rpc: Rpc, session: string, models: Option<bool>)
    requires Pendings(a.rpcs, a.resume) && (IsHandshake(rpc) ==> a.session.None?)
    ensures Ongoing(a, HandleResult(a, rpc, session, models))
  {
    match rpc
    case SessionNew => OpenedLater(a, Some(session), models.Some? && models.value);
    case SessionLoad => OpenedLater(a, a.resume, if models.Some? then models.value else a.supports);
    case Model(_) => FlushLater(Tell(a, None).(flushAfter := false));
    case _ =>
  }

  lemma ErrorLater(a: Actor, rpc: Rpc)
    requires Pendings(a.rpcs, a.resume)
    ensures Ongoing(a, HandleError(a, rpc))
  {
    if rpc.Model? {
      FlushLater(Emit(a, Failure).(flushAfter := false));
    }
  }

  lemma ResponseLater(a: Actor, id: nat, outcome: Outcome)
    requires Handshaking(a)
    ensures Ongoing(a, HandleResponse(a, id, outcome))
  {
    if id in a.rpcs.pending {
      AnsweredPendings(a, id);
      if outcome.Done? {
        ResultLater(Answered(a, id), a.rpcs.pending[id], outcome.session, outcome.models);
      } else {
        ErrorLater(Answered(a, id), a.rpcs.pending[id]);
      }
    }
  }

  lemma CommandLater(a: Actor, command: Command)
    requires Handshaking(a)
    ensures Ongoing(a, HandleCommand(a, command))
  {
    if !command.Kill? && a.session.Some? {
      ExecuteRan(Arrived(a), Ticket(a.notes.arrived, command));
    }
  }

  lemma PermissionLater(a: Actor, request: string, allowed: Option<string>)
    ensures Ongoing(a, HandlePermission(a, request, allowed))
  {
  }

  lemma NextLater(a: Actor, m: Message)
    requires Handshaking(a) && Enabled(a, m)
    ensures Later(a, Next(a, m))
    ensures !m.Eof? ==> !Next(a, m).ended
  {
    match m
    case Hub(command) => CommandLater(a, command);
    case FromAgent(line) =>
      match line {
        case Response(id, outcome) => ResponseLater(a, id, outcome);
        case Permission(request, allowed) => PermissionLater(a, request, allowed);
        case _ =>
      }
    case Eof =>
    case Timeout(id) =>
  }

  lemma {:induction false} RunLater(a: Actor, messages: seq<Message>)
    requires Handshaking(a) && Possible(a, messages)
    ensures Later(a, Run(a, messages))
    decreases |messages|
  {
    if messages != [] {
      NextHandshaking(a, messages[0]);
      NextLater(a, messages[0]);
      RunLater(Next(a, messages[0]), messages[1..]);
    }
  }

  /** Main result: in every run at most one handshake request is pending, none
      once ready, and a failed session never gets ready and queues nothing. */
  lemma HandshakeProtocol(start: Actor, resume: Option<string>, requested: Option<string>, autoRun: bool,
                          messages: seq<Message>, more: seq<Message>)
    requires start == Begin(resume, requested, autoRun) && Possible(start, messages)
    requires Possible(Run(start, messages), more)
    ensures var a := Run(start, messages);
      && Handshaking(a)
      && (a.session.Some? ==> Run(a, more).session == a.session && !Run(a, more).failed)
      && (a.failed ==> Run(a, more).session.None? && Run(a, more).queue == [])
  {
    BeginHandshaking(resume, requested, autoRun);
    var a := Run(start, messages);
    RunHandshaking(start, messages);
    RunHandshaking(a, more);
    RunLater(a, more);
  }

  /** A watchdog fails the session exactly when its request is still unanswered;
      otherwise it changes nothing but itself. */
  lemma WatchdogFailsExactly(a: Actor, id: nat)
    requires Handshaking(a) && id in a.rpcs.watchdogs
    ensures HandshakeTimeout(a, id).failed <==> a.failed || id in a.rpcs.pending
    ensures id in a.rpcs.pending ==> a.session.None? && !a.failed
    ensures id !in a.rpcs.pending ==>
              HandshakeTimeout(a, id) == a.(rpcs := a.rpcs.(watchdogs := a.rpcs.watchdogs - {id}))
  {
  }

  // ----- what the hub hears -----

  /** Events are numbered 1, 2, 3 and so on to n. */
  predicate Numbered(hub: seq<Out>, n: nat)
  {
    if hub == [] then n == 0
    else
      var last := hub[|hub| - 1];
      if last.AgentEvent? then n > 0 && last.number == n && Numbered(hub[..|hub| - 1], n - 1)
      else Numbered(hub[..|hub| - 1], n)
  }

  function Exits(hub: seq<Out>): nat
  {
    if hub == [] then 0 else Exits(hub[..|hub| - 1]) + if hub[|hub| - 1].Exited? then 1 else 0
  }

  predicate OutputValid(o: Output, exits: nat)
  {
    Numbered(o.hub, o.sequence) && Exits(o.hub) == exits
  }

  lemma PushOut(hub: seq<Out>, x: Out)
    ensures Exits(hub + [x]) == Exits(hub) + if x.Exited? then 1 else 0
    ensures x.AgentEvent? && x.number > 0 && Numbered(hub, x.number - 1) ==> Numbered(hub + [x], x.number)
    ensures !x.AgentEvent? ==> forall n :: Numbered(hub + [x], n) <==> Numbered(hub, n)
  {
    assert (hub + [x])[..|hub|] == hub;
  }

  lemma EmitOutput(a: Actor, event: Event, exits: nat)
    requires OutputValid(a.output, exits)
    ensures OutputValid(Emit(a, event).output, exits)
  {
    PushOut(a.output.hub, AgentEvent(a.output.sequence + 1, event));
  }

  lemma TellOutput(a: Actor, status: Option<Status>, exits: nat)
    requires OutputValid(a.output, exits)
    ensures OutputValid(Tell(a, status).output, exits)
  {
    PushOut(a.output.hub, Update(status));
  }

  lemma EmitAndTell(a: Actor, event: Event, status: Option<Status>, exits: nat)
    requires OutputValid(a.output, exits)
    ensures OutputValid(Tell(Emit(a, event), status).output, exits)
  {
    EmitOutput(a, event, exits);
    TellOutput(Emit(a, event), status, exits);
  }

  lemma PerformOutput(a: Actor, command: Command, exits: nat)
    requires OutputValid(a.output, exits)
    ensures OutputValid(Perform(a, command).output, exits)
  {
    match command
    case Prompt(text) => EmitAndTell(a, UserMessage(text), Some(Working), exits);
    case Answer(request, option) =>
      if a.question.Some? && a.question.value.request == request {
        var b := Write(a, Reply(a.question.value.asked, option)).(question := None);
        assert b.output.hub == a.output.hub && b.output.sequence == a.output.sequence;
        EmitAndTell(b, Resolved(request), Some(Working), exits);
      }
    case SetModel(model) => EmitOutput(a, Failure, exits);
    case Cancel =>
    case Kill =>
  }

  lemma {:induction false} FlushOutput(a: Actor, exits: nat)
    requires OutputValid(a.output, exits)
    ensures OutputValid(Flush(a).output, exits)
    decreases |a.queue|
  {
    if a.queue != [] {
      var b := a.(queue := a.queue[1..]);
      PerformOutput(Ran(b, a.queue[0].number), a.queue[0].command, exits);
      FlushOutput(Execute(b, a.queue[0]), exits);
    }
  }

  lemma CommandOutput(a: Actor, command: Command, exits: nat)
    requires OutputValid(a.output, exits)
    ensures OutputValid(HandleCommand(a, command).output, exits)
  {
    if !command.Kill? && a.session.Some? {
      PerformOutput(Ran(Arrived(a), a.notes.arrived), command, exits);
    } else if !command.Kill? {
      EmitOutput(Arrived(a), Failure, exits);
    }
  }

  lemma ReadyOutput(a: Actor, exits: nat)
    requires OutputValid(a.output, exits)
    ensures OutputValid(ApplyRequestedModelThenFlush(a).output, exits)
  {
    if a.requested.None? {
      FlushOutput(a, exits);
    } else if !a.supports {
      EmitOutput(a.(requested := None), Failure, exits);
      FlushOutput(Emit(a.(requested := None), Failure), exits);
    }
  }

  lemma FailOutput(a: Actor, exits: nat)
    requires OutputValid(a.output, exits)
    ensures OutputValid(Fail(a).output, exits)
  {
    EmitAndTell(DropQueue(a).(failed := true), Failure, Some(Errored), exits);
  }

  lemma FlushIfWaitingOutput(a: Actor, exits: nat)
    requires OutputValid(a.output, exits)
    ensures OutputValid(FlushIfWaiting(a).output, exits)
  {
    FlushOutput(a.(flushAfter := false), exits);
  }

  lemma ErrorOutput(a: Actor, rpc: Rpc, exits: nat)
    requires OutputValid(a.output, exits)
    ensures OutputValid(HandleError(a, rpc).output, exits)
  {
    match rpc
    case SessionLoad => EmitOutput(a.(suppress := false), Failure, exits);
    case Turn(_) => EmitAndTell(a, Failure, Some(Idle), exits);
    case Model(_) =>
      EmitOutput(a, Failure, exits);
      FlushIfWaitingOutput(Emit(a, Failure), exits);
    case _ => FailOutput(a, exits);
  }

  lemma OpenedOutput(a: Actor, session: Option<string>, supports: bool, exits: nat)
    requires OutputValid(a.output, exits)
    ensures OutputValid(ApplyRequestedModelThenFlush(Opened(a, session, supports)).output, exits)
  {
    TellOutput(a.(suppress := false, session := session, supports := supports), Some(Idle), exits);
    ReadyOutput(Opened(a, session, supports), exits);
  }

  lemma ResultOutput(a: Actor, rpc: Rpc, session: string, models: Option<bool>, exits: nat)
    requires OutputValid(a.output, exits)
    ensures OutputValid(HandleResult(a, rpc, session, models).output, exits)
  {
    match rpc
    case Initialize =>
    case SessionNew => OpenedOutput(a, Some(session), models.Some? && models.value, exits);
    case SessionLoad => OpenedOutput(a, a.resume, if models.Some? then models.value else a.supports, exits);
    case Turn(_) => EmitAndTell(a, TurnEnded, Some(if a.question.Some? then Asked else Idle), exits);
    case Model(_) =>
      TellOutput(a, None, exits);
      FlushIfWaitingOutput(Tell(a, None), exits);
  }

  lemma LineOutput(a: Actor, line: Line, exits: nat)
    requires OutputValid(a.output, exits)
    ensures OutputValid(HandleLine(a, line).output, exits)
  {
    match line
    case SessionUpdate(text) =>
      if text.Some? {
        EmitOutput(a, Agent(text.value), exits);
      }
    case Permission(request, allowed) => PermissionOutput(a, request, allowed, exits);
    case Response(id, outcome) =>
      if id in a.rpcs.pending {
        if outcome.Done? {
          ResultOutput(Answered(a, id), a.rpcs.pending[id], outcome.session, outcome.models, exits);
        } else {
          ErrorOutput(Answered(a, id), a.rpcs.pending[id], exits);
        }
      }
    case _ =>
  }

  lemma PermissionOutput(a: Actor, request: string, allowed: Option<string>, exits: nat)
    requires OutputValid(a.output, exits)
    ensures OutputValid(HandlePermission(a, request, allowed).output, exits)
  {
    PushOut(a.output.hub, AgentEvent(a.output.sequence + 1, Question(request)));
    PushOut(EmitTo(a.output, Question(request)).hub, Update(Some(Asked)));
  }

  lemma NextOutput(a: Actor, m: Message)
    requires Enabled(a, m) && OutputValid(a.output, 0) && Handshaking(a)
    ensures OutputValid(Next(a, m).output, if Next(a, m).ended then 1 else 0)
  {
    match m
    case Hub(command) =>
      CommandOutput(a, command, 0);
      NextLater(a, m);
    case FromAgent(line) =>
      LineOutput(a, line, 0);
      NextLater(a, m);
    case Eof => PushOut(a.output.hub, Exited);
    case Timeout(id) =>
      NextLater(a, m);
      FailOutput(Answered(a.(rpcs := a.rpcs.(watchdogs := a.rpcs.watchdogs - {id})), id), 0);
  }

  /** Events are numbered from 1, and the exit, once told, is the last word. */
  predicate Told(a: Actor)
  {
    && OutputValid(a.output, if a.ended then 1 else 0)
    && (a.ended ==> a.output.hub != [] && a.output.hub[|a.output.hub| - 1].Exited?)
  }

  lemma NextTold(a: Actor, m: Message)
    requires Enabled(a, m) && Told(a) && Handshaking(a)
    ensures Told(Next(a, m))
  {
    NextOutput(a, m);
    NextLater(a, m);
  }

  lemma {:induction false} RunTold(a: Actor, messages: seq<Message>)
    requires Handshaking(a) && Told(a) && Possible(a, messages)
    ensures Told(Run(a, messages))
    decreases |messages|
  {
    if messages != [] {
      NextHandshaking(a, messages[0]);
      NextTold(a, messages[0]);
      RunTold(Next(a, messages[0]), messages[1..]);
    }
  }

  lemma BeginTold(resume: Option<string>, requested: Option<string>, autoRun: bool)
    ensures Told(Begin(resume, requested, autoRun))
  {
  }

  /** Main result: in every run of a session its events are numbered 1, 2, 3 and so
      on without gap or repetition, and its exit is told once, when it ends, and
      nothing after it. */
  lemma EventsAreNumbered(start: Actor, resume: Option<string>, requested: Option<string>, autoRun: bool,
                          messages: seq<Message>)
    requires start == Begin(resume, requested, autoRun) && Possible(start, messages)
    ensures var a := Run(start, messages);
      && Numbered(a.output.hub, a.output.sequence)
      && Exits(a.output.hub) == (if a.ended then 1 else 0)
      && (a.ended ==> a.output.hub != [] && a.output.hub[|a.output.hub| - 1].Exited?)
  {
    BeginHandshaking(resume, requested, autoRun);
    BeginTold(resume, requested, autoRun);
    RunTold(start, messages);
  }
}
