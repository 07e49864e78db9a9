/** The permission requests of an agent and their answers
    (crates/machine/src/acp.rs). */
module AcpQuestions {
  import opened Basics
  import opened Acp
  import opened AcpOrder

  /** The permission requests answered, by their place in the order of arrival. */
  function Replies(stdin: seq<Wire>): seq<nat>
  {
    if stdin == [] then []
    else Replies(stdin[..|stdin| - 1]) + if stdin[|stdin| - 1].Reply? then [stdin[|stdin| - 1].asked] else []
  }

  function ParkedNow(q: Option<Parked>): multiset<nat>
  {
    if q.None? then multiset{} else multiset{q.value.asked}
  }

  /** Every permission request is answered once, parked, or was replaced. */
  predicate Tracked(stdin: seq<Wire>, question: Option<Parked>, permissions: nat, forgotten: seq<nat>)
  {
    multiset(Replies(stdin)) + ParkedNow(question) + multiset(forgotten) == First(permissions)
  }

  predicate Questions(a: Actor)
  {
    && Tracked(a.output.stdin, a.question, a.notes.permissions, a.notes.forgotten)
    && (a.autoRun ==> a.question.None? && a.notes.forgotten == [])
  }

  lemma RepliesPush(stdin: seq<Wire>, w: Wire)
    ensures Replies(stdin + [w]) == Replies(stdin) + if w.Reply? then [w.asked] else []
  {
    assert (stdin + [w])[..|stdin|] == stdin;
  }

  /** Writing anything but a reply. */
  lemma WriteQuestions(a: Actor, w: Wire)
    requires Questions(a) && !w.Reply?
    ensures Questions(Write(a, w))
  {
    RepliesPush(a.output.stdin, w);
  }

  /** Replying to the parked request. */
  lemma ReplyQuestions(a: Actor, option: Option<string>)
    requires Questions(a) && a.question.Some?
    ensures Questions(Write(a, Reply(a.question.value.asked, option)).(question := None))
  {
    RepliesPush(a.output.stdin, Reply(a.question.value.asked, option));
    Pushed(Replies(a.output.stdin), a.question.value.asked);
  }

  lemma EmitQuestions(a: Actor, event: Event, status: Option<Status>)
    requires Questions(a)
    ensures Questions(Emit(a, event)) && Questions(Tell(a, status)) && Questions(Tell(Emit(a, event), status))
  {
  }

  lemma SendQuestions(a: Actor, rpc: Rpc)
    requires Questions(a)
    ensures Questions(SendRequest(a, rpc))
  {
    WriteQuestions(a, Request(a.rpcs.next, rpc));
  }

  lemma KillQuestions(a: Actor)
    requires Questions(a)
    ensures Questions(KillChild(a))
  {
    if a.question.Some? {
      ReplyQuestions(a, None);
    }
  }

  lemma PerformQuestions(a: Actor, command: Command)
    requires Questions(a)
    ensures Questions(Perform(a, command))
  {
    match command
    case Prompt(text) =>
      EmitQuestions(a, UserMessage(text), Some(Working));
      SendQuestions(Tell(Emit(a, UserMessage(text)), Some(Working)), Turn(text));
    case Answer(request, option) =>
      if a.question.Some? && a.question.value.request == request {
        ReplyQuestions(a, option);
        EmitQuestions(Write(a, Reply(a.question.value.asked, option)).(question := None), Resolved(request), Some(Working));
      }
    case SetModel(model) =>
      EmitQuestions(a, Failure, None);
      SendQuestions(a, Model(model));
    case Cancel => WriteQuestions(a, Notify);
    case Kill => KillQuestions(a);
  }

  lemma {:induction false} FlushQuestions(a: Actor)
    requires Questions(a)
    ensures Questions(Flush(a))
    decreases |a.queue|
  {
    if a.queue != [] {
      var b, t := a.(queue := a.queue[1..]), a.queue[0];
      PerformQuestions(Ran(b, t.number), t.command);
      FlushQuestions(Execute(b, t));
    }
  }

  lemma KillAllQuestions(a: Actor, number: nat)
    requires Questions(a)
    ensures Questions(KillChild(Killed(DropQueue(a), number)))
  {
    assert Questions(DropQueue(a));
    KillQuestions(Killed(DropQueue(a), number));
  }

  predicate SameQuestions(a: Actor, b: Actor)
  {
    && b.output.stdin == a.output.stdin && b.question == a.question && b.autoRun == a.autoRun
    && b.notes.permissions == a.notes.permissions && b.notes.forgotten == a.notes.forgotten
  }

  lemma NotRun(a: Actor, command: Command)
    requires a.session.None? && !command.Kill?
    ensures SameQuestions(a, HandleCommand(a, command))
  {
    RejectSameQuestions(Arrived(a), a.notes.arrived);
  }

  lemma RejectSameQuestions(a: Actor, number: nat)
    ensures SameQuestions(a, Reject(a, number))
  {
  }

  lemma CommandQuestions(a: Actor, command: Command)
    requires Questions(a)
    ensures Questions(HandleCommand(a, command))
  {
    var n, number := Arrived(a), a.notes.arrived;
    if command.Kill? {
      KillAllQuestions(n, number);
    } else if a.session.Some? {
      PerformQuestions(Ran(n, number), command);
    } else {
      NotRun(a, command);
    }
  }

  lemma AutoQuestions(a: Actor, allowed: Option<string>)
    requires Questions(a) && a.autoRun
    ensures Questions(ReplyAtOnce(a, allowed))
  {
    var n := a.notes.permissions;
    RepliesPush(a.output.stdin, Reply(n, allowed));
    Pushed(Replies(a.output.stdin), n);
  }

  lemma ParkQuestions(a: Actor, request: string)
    requires Questions(a) && !a.autoRun
    ensures Questions(Park(a, request))
  {
    ParkQuestion(a.output.stdin, a.question, a.notes.permissions, a.notes.forgotten, request);
  }

  lemma PermissionQuestions(a: Actor, request: string, allowed: Option<string>)
    requires Questions(a)
    ensures Questions(HandlePermission(a, request, allowed))
  {
    if a.autoRun {
      AutoQuestions(a, allowed);
    } else {
      ParkQuestions(a, request);
      EmitQuestions(Park(a, request), Question(request), Some(Asked));
    }
  }

  lemma ParkQuestion(stdin: seq<Wire>, q: Option<Parked>, n: nat, forgotten: seq<nat>, request: string)
    requires Tracked(stdin, q, n, forgotten)
    ensures Tracked(stdin, Some(Parked(request, n)), n + 1, forgotten + if q.Some? then [q.value.asked] else [])
  {
    if q.Some? {
      Pushed(forgotten, q.value.asked);
    } else {
      assert forgotten + [] == forgotten;
    }
  }

  lemma ReadyQuestions(a: Actor)
    requires Questions(a)
    ensures Questions(ApplyRequestedModelThenFlush(a))
  {
    if a.requested.None? {
      FlushQuestions(a);
    } else if !a.supports {
      EmitQuestions(a.(requested := None), Failure, None);
      FlushQuestions(Emit(a.(requested := None), Failure));
    } else {
      SendQuestions(
        a.(requested := None, flushAfter := true, notes := a.notes.(asked := Some(a.rpcs.next))), Model(a.requested.value));
    }
  }

  lemma WaitingQuestions(a: Actor)
    requires Questions(a)
    ensures Questions(FlushIfWaiting(a))
  {
    FlushQuestions(a.(flushAfter := false));
  }

  lemma StartQuestions(a: Actor)
    requires Questions(a)
    ensures Questions(StartSession(a))
  {
    if a.resume.Some? {
      SameStill(a, a.(suppress := true));
      SendQuestions(a.(suppress := true), SessionLoad);
    } else {
      SendQuestions(a, SessionNew);
    }
  }

  lemma SameStill(a: Actor, b: Actor)
    requires Questions(a) && SameQuestions(a, b)
    ensures Questions(b)
  {
  }

  lemma OpenedQuestions(a: Actor, session: Option<string>, supports: bool)
    requires Questions(a)
    ensures Questions(ApplyRequestedModelThenFlush(Opened(a, session, supports)))
  {
    SameStill(a, Opened(a, session, supports));
    ReadyQuestions(Opened(a, session, supports));
  }

  lemma ModelQuestions(a: Actor, b: Actor)
    requires Questions(a) && SameQuestions(a, b)
    ensures Questions(FlushIfWaiting(b))
  {
    SameStill(a, b);
    WaitingQuestions(b);
  }

  lemma ReloadQuestions(a: Actor)
    requires Questions(a)
    ensures Questions(SendRequest(Emit(a.(suppress := false), Failure), SessionNew))
  {
    SameStill(a, Emit(a.(suppress := false), Failure));
    SendQuestions(Emit(a.(suppress := false), Failure), SessionNew);
  }

  lemma ResultQuestions(a: Actor, rpc: Rpc, session: string, models: Option<bool>)
    requires Questions(a)
    ensures Questions(HandleResult(a, rpc, session, models))
  {
    match rpc
    case Initialize => StartQuestions(a);
    case SessionNew => OpenedQuestions(a, Some(session), models.Some? && models.value);
    case SessionLoad => OpenedQuestions(a, a.resume, if models.Some? then models.value else a.supports);
    case Turn(_) => EmitQuestions(a, TurnEnded, Some(if a.question.Some? then Asked else Idle));
    case Model(_) => ModelQuestions(a, Tell(a, None));
  }

  lemma ErrorQuestions(a: Actor, rpc: Rpc)
    requires Questions(a)
    ensures Questions(HandleError(a, rpc))
  {
    if rpc.SessionLoad? {
      ReloadQuestions(a);
    } else if rpc.Model? {
      RefusedQuestions(a, rpc);
    } else {
      EndsQuestions(a, rpc);
    }
  }

  lemma EndsQuestions(a: Actor, rpc: Rpc)
    requires Questions(a) && !rpc.SessionLoad? && !rpc.Model?
    ensures Questions(HandleError(a, rpc))
  {
    if rpc.Turn? {
      EmitQuestions(a, Failure, Some(Idle));
    } else {
      FailQuestions(a);
    }
  }

  lemma RefusedQuestions(a: Actor, rpc: Rpc)
    requires Questions(a) && rpc.Model?
    ensures Questions(HandleError(a, rpc))
  {
    ModelQuestions(a, Emit(a, Failure));
  }

  lemma FailQuestions(a: Actor)
    requires Questions(a)
    ensures Questions(Fail(a))
  {
    EmitQuestions(DropQueue(a).(failed := true), Failure, Some(Errored));
  }

  lemma ResponseQuestions(a: Actor, id: nat, outcome: Outcome)
    requires Questions(a)
    ensures Questions(HandleResponse(a, id, outcome))
  {
    if id in a.rpcs.pending {
      if outcome.Done? {
        ResultQuestions(Answered(a, id), a.rpcs.pending[id], outcome.session, outcome.models);
      } else {
        ErrorQuestions(Answered(a, id), a.rpcs.pending[id]);
      }
    }
  }

  lemma LineQuestions(a: Actor, line: Line)
    requires Questions(a)
    ensures Questions(HandleLine(a, line))
  {
    match line
    case Malformed =>
    case SessionUpdate(_) =>
    case Permission(request, allowed) => PermissionQuestions(a, request, allowed);
    case UnknownMethod(hasId) => WriteQuestions(a, NotFound);
    case Response(id, outcome) => ResponseQuestions(a, id, outcome);
  }

  lemma TimeoutQuestions(a: Actor, id: nat)
    requires Questions(a)
    ensures Questions(HandshakeTimeout(a, id))
  {
    var n := a.(rpcs := a.rpcs.(watchdogs := a.rpcs.watchdogs - {id}));
    SameStill(a, Answered(n, id));
    FailQuestions(Answered(n, id));
  }

  lemma NextQuestions(a: Actor, m: Message)
    requires Questions(a) && Enabled(a, m)
    ensures Questions(Next(a, m))
  {
    match m
    case Hub(command) => CommandQuestions(a, command);
    case FromAgent(line) => LineQuestions(a, line);
    case Eof =>
    case Timeout(id) => TimeoutQuestions(a, id);
  }

  lemma {:induction false} RunQuestions(a: Actor, messages: seq<Message>)
    requires Questions(a) && Possible(a, messages)
    ensures Questions(Run(a, messages))
    decreases |messages|
  {
    if messages != [] {
      NextQuestions(a, messages[0]);
      RunQuestions(Next(a, messages[0]), messages[1..]);
    }
  }

  /** Main result: a permission request gets at most one answer; it gets none only
      while it is parked, or because a later request replaced it. */
  lemma AnsweredAtMostOnce(start: Actor, resume: Option<string>, requested: Option<string>, autoRun: bool,
                           messages: seq<Message>, k: nat)
    requires start == Begin(resume, requested, autoRun) && Possible(start, messages)
    ensures var a := Run(start, messages);
      && multiset(Replies(a.output.stdin))[k]
         == (if k >= a.notes.permissions || (a.question.Some? && a.question.value.asked == k) || k in a.notes.forgotten
             then 0 else 1)
      && (a.autoRun ==> a.question.None? && a.notes.forgotten == [])
  {
    var a := Run(start, messages);
    assert start.output.stdin == [Request(1, Initialize)];
    RepliesPush([], Request(1, Initialize));
    RunQuestions(start, messages);
    EachOnce(a.notes.permissions, k);
    assert (multiset(Replies(a.output.stdin)) + ParkedNow(a.question) + multiset(a.notes.forgotten))[k]
        == multiset(Replies(a.output.stdin))[k] + ParkedNow(a.question)[k] + multiset(a.notes.forgotten)[k];
  }

  lemma ParkedSecond(a: Actor, first: string, second: string)
    requires !a.autoRun && a.question.None? && a.notes.permissions == 0 && a.notes.forgotten == []
    ensures var b := HandlePermission(HandlePermission(a, first, None), second, None);
      && b.notes.forgotten == [0] && b.question == Some(Parked(second, 1)) && b.output.stdin == a.output.stdin
  {
    var b := Park(a, first);
    assert b.notes.forgotten == [] && b.question == Some(Parked(first, 0));
  }

  /** Two permission requests on end: the first is replaced, and not answered. */
  lemma QuestionsMayBeForgotten(a0: Actor, a1: Actor, a2: Actor, first: string, second: string)
    requires a0 == Begin(None, None, false)
    requires a1 == Next(a0, FromAgent(Permission(first, None)))
    requires a2 == Next(a1, FromAgent(Permission(second, None)))
    ensures a2.notes.forgotten == [0] && a2.question == Some(Parked(second, 1))
    ensures 0 !in Replies(a2.output.stdin)
  {
    ParkedSecond(a0, first, second);
    NoReplies(a0.output.stdin);
  }

  lemma NoReplies(stdin: seq<Wire>)
    requires forall i | 0 <= i < |stdin| :: !stdin[i].Reply?
    ensures Replies(stdin) == []
  {
  }
}
