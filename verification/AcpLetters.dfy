/** The lines written to the agent: requests and their ids, replies and the options
    they give. */
module AcpLetters {
  import opened Basics
  import opened Acp
  import opened AcpRuns
  import AcpObeys

  /** A permission request, as it came. */
  datatype Permit = Permit(request: string, allowed: Option<string>)

  /** The request lines, in order. */
  function Requests(stdin: seq<Wire>): seq<Wire>
  {
    if stdin == [] then []
    else
      var last := stdin[|stdin| - 1];
      Requests(stdin[..|stdin| - 1]) + if last.Request? then [last] else []
  }

  lemma RequestsPush(stdin: seq<Wire>, w: Wire)
    ensures Requests(stdin + [w]) == Requests(stdin) + if w.Request? then [w] else []
  {
    assert (stdin + [w])[..|stdin|] == stdin;
  }

  /** Requests are numbered 1, 2, 3 and so on, and what is pending was written under
      its number. */
  predicate Numbered(stdin: seq<Wire>, r: Rpcs)
  {
    var asked := Requests(stdin);
    && |asked| + 1 == r.next
    && (forall k | 0 <= k < |asked| :: asked[k].Request? && asked[k].id == k + 1)
    && (forall id | id in r.pending :: 1 <= id < r.next && asked[id - 1].rpc == r.pending[id])
  }

  /** Why a reply gives the option it gives: the run is automatic and that one was
      allowed, or somebody answered so, or the session was killed. */
  predicate Grounded(asked: nat, option: Option<string>, autoRun: bool, commands: seq<Command>, permits: seq<Permit>)
  {
    && asked < |permits|
    && if autoRun then option == permits[asked].allowed
       else Answer(permits[asked].request, option) in commands || (option.None? && Kill in commands)
  }

  predicate Replied(stdin: seq<Wire>, autoRun: bool, commands: seq<Command>, permits: seq<Permit>)
  {
    forall i | 0 <= i < |stdin| && stdin[i].Reply? :: Grounded(stdin[i].asked, stdin[i].option, autoRun, commands, permits)
  }

  predicate Letters(a: Actor, commands: seq<Command>, permits: seq<Permit>)
  {
    && Numbered(a.output.stdin, a.rpcs)
    && Replied(a.output.stdin, a.autoRun, commands, permits)
    && |permits| == a.notes.permissions
    && (a.question.Some? ==> !a.autoRun && a.question.value.asked < |permits|
                             && permits[a.question.value.asked].request == a.question.value.request)
    && (forall t | t in a.queue :: t.command in commands)
  }

  lemma QuietLetters(a: Actor, b: Actor, commands: seq<Command>, permits: seq<Permit>)
    requires Letters(a, commands, permits) && b.output.stdin == a.output.stdin && b.autoRun == a.autoRun
    requires b.rpcs.next == a.rpcs.next
    requires forall id | id in b.rpcs.pending :: id in a.rpcs.pending && b.rpcs.pending[id] == a.rpcs.pending[id]
    requires (b.question == a.question || b.question.None?) && b.notes.permissions == a.notes.permissions
    requires forall t | t in b.queue :: t in a.queue || t.command in commands
    ensures Letters(b, commands, permits)
  {
  }

  lemma SendLetters(a: Actor, commands: seq<Command>, permits: seq<Permit>, rpc: Rpc)
    requires Letters(a, commands, permits)
    ensures Letters(SendRequest(a, rpc), commands, permits)
  {
    RequestsPush(a.output.stdin, Request(a.rpcs.next, rpc));
  }

  lemma PlainLetters(a: Actor, commands: seq<Command>, permits: seq<Permit>, w: Wire)
    requires Letters(a, commands, permits) && (w.Notify? || w.NotFound?)
    ensures Letters(Write(a, w), commands, permits)
  {
    RequestsPush(a.output.stdin, w);
  }

  lemma ReplyLetters(a: Actor, commands: seq<Command>, permits: seq<Permit>, asked: nat, option: Option<string>)
    requires Letters(a, commands, permits) && Grounded(asked, option, a.autoRun, commands, permits)
    ensures Letters(Write(a, Reply(asked, option)), commands, permits)
  {
    RequestsPush(a.output.stdin, Reply(asked, option));
  }

  lemma MoreLetters(a: Actor, commands: seq<Command>, permits: seq<Permit>, command: Command)
    requires Letters(a, commands, permits)
    ensures Letters(a, commands + [command], permits)
  {
    forall i | 0 <= i < |a.output.stdin| && a.output.stdin[i].Reply?
      ensures Grounded(a.output.stdin[i].asked, a.output.stdin[i].option, a.autoRun, commands + [command], permits)
    {
      var w := a.output.stdin[i];
      assert Grounded(w.asked, w.option, a.autoRun, commands, permits);
      assert forall c | c in commands :: c in commands + [command];
    }
  }

  lemma AnswerLetters(a: Actor, commands: seq<Command>, permits: seq<Permit>, request: string, option: Option<string>)
    requires Letters(a, commands, permits) && Answer(request, option) in commands
    ensures Letters(RunAnswer(a, request, option), commands, permits)
  {
    if a.question.Some? && a.question.value.request == request {
      var b := Write(a, Reply(a.question.value.asked, option));
      ReplyLetters(a, commands, permits, a.question.value.asked, option);
      QuietLetters(b, b.(question := None), commands, permits);
      QuietLetters(b.(question := None), RunAnswer(a, request, option), commands, permits);
    }
  }

  lemma KillLetters(a: Actor, commands: seq<Command>, permits: seq<Permit>)
    requires Letters(a, commands, permits) && Kill in commands
    ensures Letters(KillChild(a), commands, permits)
  {
    if a.question.Some? {
      var b := Write(a, Reply(a.question.value.asked, None));
      ReplyLetters(a, commands, permits, a.question.value.asked, None);
      QuietLetters(b, b.(question := None), commands, permits);
    }
  }

  lemma PromptLetters(a: Actor, commands: seq<Command>, permits: seq<Permit>, text: string)
    requires Letters(a, commands, permits)
    ensures Letters(RunPrompt(a, text), commands, permits)
  {
    var b := Tell(Emit(a, UserMessage(text)), Some(Working));
    QuietLetters(a, b, commands, permits);
    SendLetters(b, commands, permits, Turn(text));
  }

  lemma SetModelLetters(a: Actor, commands: seq<Command>, permits: seq<Permit>, model: string)
    requires Letters(a, commands, permits)
    ensures Letters(RunSetModel(a, model), commands, permits)
  {
    if a.supports {
      SendLetters(a, commands, permits, Model(model));
    } else {
      QuietLetters(a, Emit(a, Failure), commands, permits);
    }
  }

  lemma PerformLetters(a: Actor, commands: seq<Command>, permits: seq<Permit>, command: Command)
    requires Letters(a, commands, permits) && command in commands
    ensures Letters(Perform(a, command), commands, permits)
  {
    match command
    case Prompt(text) => PromptLetters(a, commands, permits, text);
    case Answer(request, option) => AnswerLetters(a, commands, permits, request, option);
    case SetModel(model) => SetModelLetters(a, commands, permits, model);
    case Cancel => PlainLetters(a, commands, permits, Notify);
    case Kill => KillLetters(a, commands, permits);
  }

  lemma ExecuteLetters(a: Actor, commands: seq<Command>, permits: seq<Permit>, t: Ticket)
    requires Letters(a, commands, permits) && t.command in commands
    ensures Letters(Execute(a, t), commands, permits)
  {
    QuietLetters(a, Ran(a, t.number), commands, permits);
    PerformLetters(Ran(a, t.number), commands, permits, t.command);
  }

  lemma {:induction false} FlushLetters(a: Actor, commands: seq<Command>, permits: seq<Permit>)
    requires Letters(a, commands, permits)
    ensures Letters(Flush(a), commands, permits)
    decreases |a.queue|
  {
    if a.queue != [] {
      var popped := a.(queue := a.queue[1..]);
      assert a.queue[0] in a.queue;
      QuietLetters(a, popped, commands, permits);
      ExecuteLetters(popped, commands, permits, a.queue[0]);
      FlushLetters(Execute(popped, a.queue[0]), commands, permits);
    }
  }

  lemma CommandLetters(a: Actor, commands: seq<Command>, permits: seq<Permit>, command: Command)
    requires Letters(a, commands, permits) && command in commands
    ensures Letters(HandleCommand(a, command), commands, permits)
  {
    var t, n := Ticket(a.notes.arrived, command), Arrived(a);
    QuietLetters(a, n, commands, permits);
    if command.Kill? {
      KilledLetters(n, commands, permits, t.number);
    } else if a.session.Some? {
      ExecuteLetters(n, commands, permits, t);
    } else {
      WaitLetters(n, commands, permits, t);
    }
  }

  lemma KilledLetters(a: Actor, commands: seq<Command>, permits: seq<Permit>, number: nat)
    requires Letters(a, commands, permits) && Kill in commands
    ensures Letters(KillChild(Killed(DropQueue(a), number)), commands, permits)
  {
    QuietLetters(a, Killed(DropQueue(a), number), commands, permits);
    KillLetters(Killed(DropQueue(a), number), commands, permits);
  }

  lemma WaitLetters(a: Actor, commands: seq<Command>, permits: seq<Permit>, t: Ticket)
    requires Letters(a, commands, permits) && t.command in commands
    ensures Letters(Reject(a, t.number), commands, permits) && Letters(Enqueue(a, t), commands, permits)
  {
    QuietLetters(a, Reject(a, t.number), commands, permits);
    QuietLetters(a, Enqueue(a, t), commands, permits);
  }

  // ----- the agent's messages -----

  lemma ReplyAtOnceLetters(a: Actor, commands: seq<Command>, permits: seq<Permit>, request: string, allowed: Option<string>)
    requires Letters(a, commands, permits) && a.autoRun
    ensures Letters(ReplyAtOnce(a, allowed), commands, permits + [Permit(request, allowed)])
  {
    var more := permits + [Permit(request, allowed)];
    RequestsPush(a.output.stdin, Reply(a.notes.permissions, allowed));
    forall i | 0 <= i < |a.output.stdin| && a.output.stdin[i].Reply?
      ensures Grounded(a.output.stdin[i].asked, a.output.stdin[i].option, a.autoRun, commands, more)
    {
      assert Grounded(a.output.stdin[i].asked, a.output.stdin[i].option, a.autoRun, commands, permits);
    }
  }

  lemma ParkLetters(a: Actor, commands: seq<Command>, permits: seq<Permit>, request: string, allowed: Option<string>)
    requires Letters(a, commands, permits) && !a.autoRun
    ensures Letters(Park(a, request), commands, permits + [Permit(request, allowed)])
  {
    var more := permits + [Permit(request, allowed)];
    forall i | 0 <= i < |a.output.stdin| && a.output.stdin[i].Reply?
      ensures Grounded(a.output.stdin[i].asked, a.output.stdin[i].option, a.autoRun, commands, more)
    {
      assert Grounded(a.output.stdin[i].asked, a.output.stdin[i].option, a.autoRun, commands, permits);
    }
  }

  lemma PermissionLetters(a: Actor, commands: seq<Command>, permits: seq<Permit>, request: string, allowed: Option<string>)
    requires Letters(a, commands, permits)
    ensures Letters(HandlePermission(a, request, allowed), commands, permits + [Permit(request, allowed)])
  {
    if a.autoRun {
      ReplyAtOnceLetters(a, commands, permits, request, allowed);
    } else {
      ParkLetters(a, commands, permits, request, allowed);
      var b := Park(a, request);
      QuietLetters(b, Tell(Emit(b, Question(request)), Some(Asked)), commands, permits + [Permit(request, allowed)]);
    }
  }

  lemma ReadyLetters(a: Actor, commands: seq<Command>, permits: seq<Permit>)
    requires Letters(a, commands, permits)
    ensures Letters(ApplyRequestedModelThenFlush(a), commands, permits)
  {
    if a.requested.None? {
      FlushLetters(a, commands, permits);
    } else if !a.supports {
      var n := Emit(a.(requested := None), Failure);
      QuietLetters(a, n, commands, permits);
      FlushLetters(n, commands, permits);
    } else {
      var n := a.(requested := None).(flushAfter := true, notes := a.notes.(asked := Some(a.rpcs.next)));
      QuietLetters(a, n, commands, permits);
      SetModelLetters(n, commands, permits, a.requested.value);
    }
  }

  lemma OpenedLetters(a: Actor, commands: seq<Command>, permits: seq<Permit>, session: Option<string>, supports: bool)
    requires Letters(a, commands, permits)
    ensures Letters(ApplyRequestedModelThenFlush(Opened(a, session, supports)), commands, permits)
  {
    QuietLetters(a, Opened(a, session, supports), commands, permits);
    ReadyLetters(Opened(a, session, supports), commands, permits);
  }

  lemma WaitingLetters(a: Actor, b: Actor, commands: seq<Command>, permits: seq<Permit>)
    requires Letters(a, commands, permits) && b == a.(output := b.output) && b.output.stdin == a.output.stdin
    ensures Letters(FlushIfWaiting(b), commands, permits)
  {
    QuietLetters(a, b, commands, permits);
    if b.flushAfter {
      QuietLetters(b, b.(flushAfter := false), commands, permits);
      FlushLetters(b.(flushAfter := false), commands, permits);
    }
  }

  lemma StartLetters(a: Actor, commands: seq<Command>, permits: seq<Permit>)
    requires Letters(a, commands, permits)
    ensures Letters(StartSession(a), commands, permits)
  {
    QuietLetters(a, a.(suppress := true), commands, permits);
    SendLetters(a.(suppress := true), commands, permits, SessionLoad);
    SendLetters(a, commands, permits, SessionNew);
  }

  lemma ResultLetters(a: Actor, commands: seq<Command>, permits: seq<Permit>, rpc: Rpc, session: string, models: Option<bool>)
    requires Letters(a, commands, permits)
    ensures Letters(HandleResult(a, rpc, session, models), commands, permits)
  {
    match rpc
    case Initialize => StartLetters(a, commands, permits);
    case SessionNew => OpenedLetters(a, commands, permits, Some(session), models.Some? && models.value);
    case SessionLoad => OpenedLetters(a, commands, permits, a.resume, if models.Some? then models.value else a.supports);
    case Turn(_) => QuietLetters(a, HandleResult(a, rpc, session, models), commands, permits);
    case Model(_) => WaitingLetters(a, Tell(a, None), commands, permits);
  }

  lemma FailLetters(a: Actor, commands: seq<Command>, permits: seq<Permit>)
    requires Letters(a, commands, permits)
    ensures Letters(Fail(a), commands, permits)
  {
    QuietLetters(a, Fail(a), commands, permits);
  }

  lemma ErrorLetters(a: Actor, commands: seq<Command>, permits: seq<Permit>, rpc: Rpc)
    requires Letters(a, commands, permits)
    ensures Letters(HandleError(a, rpc), commands, permits)
  {
    match rpc
    case SessionLoad =>
      var n := Emit(a.(suppress := false), Failure);
      QuietLetters(a, n, commands, permits);
      SendLetters(n, commands, permits, SessionNew);
    case Turn(_) => QuietLetters(a, HandleError(a, rpc), commands, permits);
    case Model(_) => WaitingLetters(a, Emit(a, Failure), commands, permits);
    case _ => FailLetters(a, commands, permits);
  }

  lemma ResponseLetters(a: Actor, commands: seq<Command>, permits: seq<Permit>, id: nat, outcome: Outcome)
    requires Letters(a, commands, permits)
    ensures Letters(HandleResponse(a, id, outcome), commands, permits)
  {
    if id in a.rpcs.pending {
      QuietLetters(a, Answered(a, id), commands, permits);
      if outcome.Done? {
        ResultLetters(Answered(a, id), commands, permits, a.rpcs.pending[id], outcome.session, outcome.models);
      } else {
        ErrorLetters(Answered(a, id), commands, permits, a.rpcs.pending[id]);
      }
    }
  }

  /** The permission requests among the messages. */
  function Permits(messages: seq<Message>): seq<Permit>
  {
    if messages == [] then [] else PermitOf(messages[0]) + Permits(messages[1..])
  }

  function PermitOf(m: Message): seq<Permit>
  {
    if m.FromAgent? && m.line.Permission? then [Permit(m.line.request, m.line.allowed)] else []
  }

  lemma LineLetters(a: Actor, commands: seq<Command>, permits: seq<Permit>, line: Line)
    requires Letters(a, commands, permits)
    ensures Letters(HandleLine(a, line), commands, permits + PermitOf(FromAgent(line)))
  {
    assert permits + [] == permits;
    match line
    case Malformed =>
    case SessionUpdate(text) => QuietLetters(a, HandleLine(a, line), commands, permits);
    case Permission(request, allowed) => PermissionLetters(a, commands, permits, request, allowed);
    case UnknownMethod(_) => PlainLetters(a, commands, permits, NotFound);
    case Response(id, outcome) => ResponseLetters(a, commands, permits, id, outcome);
  }

  lemma TimeoutLetters(a: Actor, commands: seq<Command>, permits: seq<Permit>, id: nat)
    requires Letters(a, commands, permits)
    ensures Letters(HandshakeTimeout(a, id), commands, permits)
  {
    var n := a.(rpcs := a.rpcs.(watchdogs := a.rpcs.watchdogs - {id}));
    QuietLetters(a, n, commands, permits);
    QuietLetters(n, Answered(n, id), commands, permits);
    FailLetters(Answered(n, id), commands, permits);
  }

  lemma NextLetters(a: Actor, commands: seq<Command>, permits: seq<Permit>, m: Message)
    requires Letters(a, commands, permits)
    ensures Letters(Next(a, m), if m.Hub? then commands + [m.command] else commands, permits + PermitOf(m))
  {
    assert permits + [] == permits;
    match m
    case Hub(command) =>
      MoreLetters(a, commands, permits, command);
      CommandLetters(a, commands + [command], permits, command);
    case FromAgent(line) => LineLetters(a, commands, permits, line);
    case Eof => QuietLetters(a, OnEof(a), commands, permits);
    case Timeout(id) => TimeoutLetters(a, commands, permits, id);
  }

  lemma {:induction false} RunLetters(a: Actor, commands: seq<Command>, permits: seq<Permit>, messages: seq<Message>)
    requires Letters(a, commands, permits)
    ensures Letters(Run(a, messages), commands + AcpObeys.Commands(messages), permits + Permits(messages))
    decreases |messages|
  {
    if messages == [] {
      assert commands + [] == commands && permits + [] == permits;
    } else {
      var m := messages[0];
      var more := if m.Hub? then commands + [m.command] else commands;
      NextLetters(a, commands, permits, m);
      RunLetters(Next(a, m), more, permits + PermitOf(m), messages[1..]);
      Assoc(commands, if m.Hub? then [m.command] else [], AcpObeys.Commands(messages[1..]));
      Assoc(permits, PermitOf(m), Permits(messages[1..]));
      assert commands + [] == commands;
    }
  }

  /** Main result: in every run of a new session, the requests written carry the ids 1,
      2, 3 and so on, each once and in that order, and whatever is pending was written
      under its id; and every reply gives the option that an automatic run allows for
      that very request, or that a command chose for it, or none because of a kill. */
  lemma LettersAreInOrder(start: Actor, resume: Option<string>, requested: Option<string>, autoRun: bool,
                          messages: seq<Message>)
    requires start == Begin(resume, requested, autoRun)
    ensures Letters(Run(start, messages), AcpObeys.Commands(messages), Permits(messages))
  {
    assert start.output.stdin == [Request(1, Initialize)] && start.output.stdin[..0] == [];
    assert Requests(start.output.stdin) == [Request(1, Initialize)];
    RunLetters(start, [], [], messages);
    assert [] + AcpObeys.Commands(messages) == AcpObeys.Commands(messages) && [] + Permits(messages) == Permits(messages);
  }
}
