/** The course of a session: when it is ready and under which id, when updates of the
    agent are held back, when it fails. */
module AcpCourse {
  import opened Basics
  import opened Acp
  import opened AcpRuns
  import opened AcpWords

  /** The answer to a pending request, and that request. */
  predicate Answers(a: Actor, m: Message)
  {
    m.FromAgent? && m.line.Response? && m.line.id in a.rpcs.pending
  }

  function Question(a: Actor, m: Message): Rpc
    requires Answers(a, m)
  {
    a.rpcs.pending[m.line.id]
  }

  /** The session is made or loaded. */
  predicate Opens(a: Actor, m: Message)
  {
    Answers(a, m) && m.line.outcome.Done? && (Question(a, m).SessionNew? || Question(a, m).SessionLoad?)
  }

  /** What must hold of the session after a message. */
  predicate Follows(a: Actor, m: Message, b: Actor)
  {
    && b.session == (if !Opens(a, m) then a.session
                     else if Question(a, m).SessionNew? then Some(m.line.outcome.session) else a.resume)
    && b.supports == (if !Opens(a, m) then a.supports
                      else if m.line.outcome.models.Some? then m.line.outcome.models.value
                      else if Question(a, m).SessionNew? then false else a.supports)
    && b.suppress == (if Answers(a, m) && Question(a, m).Initialize? && m.line.outcome.Done? && a.resume.Some? then true
                      else if Opens(a, m) || (Answers(a, m) && Question(a, m).SessionLoad?) then false
                      else a.suppress)
    && b.failed == (a.failed || (Answers(a, m) && m.line.outcome.Refused?
                                 && (Question(a, m).Initialize? || Question(a, m).SessionNew?))
                    || (m.Timeout? && m.id in a.rpcs.pending))
    && b.ended == (a.ended || m.Eof?)
    && b.resume == a.resume && b.autoRun == a.autoRun
  }

  /** Commands change none of it. */
  predicate SameWay(a: Actor, b: Actor)
  {
    && b.session == a.session && b.supports == a.supports && b.suppress == a.suppress && b.failed == a.failed
    && b.ended == a.ended && b.resume == a.resume && b.autoRun == a.autoRun
  }

  lemma PerformWay(a: Actor, command: Command)
    ensures SameWay(a, Perform(a, command))
  {
    match command
    case Answer(request, option) => AnswerWay(a, request, option);
    case SetModel(model) => SetModelWay(a, model);
    case _ =>
  }

  lemma AnswerWay(a: Actor, request: string, option: Option<string>)
    ensures SameWay(a, RunAnswer(a, request, option))
  {
    if a.question.Some? && a.question.value.request == request {
      var b := Write(a, Reply(a.question.value.asked, option)).(question := None);
      ToldWay(b, Resolved(request), Some(Working));
    }
  }

  lemma ToldWay(a: Actor, event: Event, status: Option<Status>)
    ensures SameWay(a, Tell(Emit(a, event), status))
  {
  }

  lemma SetModelWay(a: Actor, model: string)
    ensures SameWay(a, RunSetModel(a, model))
  {
  }

  lemma {:induction false} FlushWay(a: Actor)
    ensures SameWay(a, Flush(a))
    decreases |a.queue|
  {
    if a.queue != [] {
      var popped := a.(queue := a.queue[1..]);
      PerformWay(Ran(popped, a.queue[0].number), a.queue[0].command);
      FlushWay(Execute(popped, a.queue[0]));
    }
  }

  lemma CommandWay(a: Actor, command: Command)
    ensures SameWay(a, HandleCommand(a, command))
  {
    var t, n := Ticket(a.notes.arrived, command), Arrived(a);
    if !command.Kill? && a.session.Some? {
      PerformWay(Ran(n, t.number), command);
    }
  }

  lemma ReadyWay(a: Actor)
    ensures SameWay(a, ApplyRequestedModelThenFlush(a))
  {
    if a.requested.None? {
      FlushWay(a);
    } else if !a.supports {
      FlushWay(Emit(a.(requested := None), Failure));
    } else {
      SetModelWay(a.(requested := None).(flushAfter := true, notes := a.notes.(asked := Some(a.rpcs.next))), a.requested.value);
    }
  }

  lemma WaitingWay(a: Actor)
    ensures SameWay(a, FlushIfWaiting(a))
  {
    if a.flushAfter {
      FlushWay(a.(flushAfter := false));
    }
  }

  /** Everything but what is named stays as it is. */
  predicate Turned(a: Actor, b: Actor, session: Option<string>, supports: bool, suppress: bool, failed: bool)
  {
    SameWay(a.(session := session, supports := supports, suppress := suppress, failed := failed), b)
  }

  lemma OpenedTurns(a: Actor, session: Option<string>, supports: bool)
    ensures Turned(a, ApplyRequestedModelThenFlush(Opened(a, session, supports)), session, supports, false, a.failed)
  {
    ReadyWay(Opened(a, session, supports));
  }

  lemma StartTurns(a: Actor)
    ensures Turned(a, StartSession(a), a.session, a.supports, a.resume.Some? || a.suppress, a.failed)
  {
  }

  lemma WaitingTurns(a: Actor, b: Actor)
    requires SameWay(a, b)
    ensures SameWay(a, FlushIfWaiting(b))
  {
    WaitingWay(b);
  }

  lemma ResultFollows(a: Actor, m: Message)
    requires Answers(a, m) && m.line.outcome.Done?
    ensures Follows(a, m, Next(a, m))
  {
    if Opens(a, m) {
      OpenFollows(a, m);
    } else {
      LaterFollows(a, m);
    }
  }

  lemma LaterFollows(a: Actor, m: Message)
    requires Answers(a, m) && m.line.outcome.Done? && !Opens(a, m)
    ensures Follows(a, m, Next(a, m))
  {
    var b := Answered(a, m.line.id);
    match Question(a, m)
    case Initialize => StartTurns(b);
    case Turn(_) => ToldWay(b, TurnEnded, Some(if b.question.Some? then Asked else Idle));
    case Model(_) => WaitingTurns(b, Tell(b, None));
  }

  lemma OpenFollows(a: Actor, m: Message)
    requires Opens(a, m)
    ensures Follows(a, m, Next(a, m))
  {
    var b, outcome := Answered(a, m.line.id), m.line.outcome;
    if Question(a, m).SessionNew? {
      var supports := outcome.models.Some? && outcome.models.value;
      OpenedTurns(b, Some(outcome.session), supports);
      TurnedFollows(a, m, ApplyRequestedModelThenFlush(Opened(b, Some(outcome.session), supports)), Some(outcome.session), supports);
    } else {
      var supports := if outcome.models.Some? then outcome.models.value else b.supports;
      OpenedTurns(b, b.resume, supports);
      TurnedFollows(a, m, ApplyRequestedModelThenFlush(Opened(b, b.resume, supports)), b.resume, supports);
    }
  }

  lemma TurnedFollows(a: Actor, m: Message, n: Actor, session: Option<string>, supports: bool)
    requires Opens(a, m) && Turned(Answered(a, m.line.id), n, session, supports, false, a.failed)
    requires session == if Question(a, m).SessionNew? then Some(m.line.outcome.session) else a.resume
    requires supports == if m.line.outcome.models.Some? then m.line.outcome.models.value
                         else Question(a, m).SessionLoad? && a.supports
    ensures Follows(a, m, n)
  {
  }

  lemma RefusalFollows(a: Actor, m: Message)
    requires Answers(a, m) && m.line.outcome.Refused?
    ensures Follows(a, m, Next(a, m))
  {
    var b := Answered(a, m.line.id);
    if Question(a, m).Model? {
      WaitingTurns(b, Emit(b, Failure));
    } else {
      OtherRefusal(b, Question(a, m));
    }
  }

  lemma OtherRefusal(a: Actor, rpc: Rpc)
    requires !rpc.Model?
    ensures Turned(a, HandleError(a, rpc), a.session, a.supports, a.suppress && !rpc.SessionLoad?,
                   a.failed || rpc.Initialize? || rpc.SessionNew?)
  {
  }

  lemma OtherFollows(a: Actor, m: Message)
    requires !m.Hub? && !Answers(a, m)
    ensures Follows(a, m, Next(a, m))
  {
    if m.FromAgent? {
      OtherLine(a, m.line);
    }
  }

  lemma OtherLine(a: Actor, line: Line)
    requires line.Response? ==> line.id !in a.rpcs.pending
    ensures SameWay(a, HandleLine(a, line))
  {
  }

  /** Main result: exactly which messages make the session ready and under which id,
      start or stop the holding back of updates, fail it or end it. */
  lemma NextFollows(a: Actor, m: Message)
    ensures Follows(a, m, Next(a, m))
  {
    if m.Hub? {
      CommandWay(a, m.command);
    } else if Answers(a, m) {
      if m.line.outcome.Done? {
        ResultFollows(a, m);
      } else {
        RefusalFollows(a, m);
      }
    } else {
      OtherFollows(a, m);
    }
  }

  // ----- history is not told again -----

  predicate Loading(a: Actor)
  {
    exists id :: id in a.rpcs.pending && a.rpcs.pending[id].SessionLoad?
  }

  /** Updates are held back exactly while a session is being loaded. */
  predicate HeldBack(a: Actor)
  {
    !a.failed ==> (a.suppress <==> Loading(a))
  }

  lemma NoLoading(a: Actor)
    requires Handshaking(a) && a.session.Some?
    ensures !Loading(a)
  {
  }

  lemma HeldBackNext(a: Actor, m: Message)
    requires Handshaking(a) && HeldBack(a) && Enabled(a, m)
    ensures HeldBack(Next(a, m))
  {
    NextFollows(a, m);
    NextHandshaking(a, m);
    var b := Next(a, m);
    if b.session.Some? {
      NoLoading(b);
      if a.session.Some? {
        NoLoading(a);
        ReadyQuestion(a, m);
      }
    } else if !b.failed {
      Unready(a, m);
    }
  }

  lemma ReadyQuestion(a: Actor, m: Message)
    requires Handshaking(a) && a.session.Some?
    ensures Answers(a, m) ==> !IsHandshake(Question(a, m))
  {
  }

  /** Before the session is ready only the answers of the handshake change what is
      pending. */
  lemma Unready(a: Actor, m: Message)
    requires Handshaking(a) && Enabled(a, m) && HeldBack(a) && Next(a, m).session.None? && !Next(a, m).failed
    requires Follows(a, m, Next(a, m))
    ensures HeldBack(Next(a, m))
  {
    var b := Next(a, m);
    if Answers(a, m) {
      AnsweredPendings(a, m.line.id);
      UnreadyAnswer(a, m);
    } else {
      assert b.rpcs.pending == a.rpcs.pending;
    }
  }

  lemma UnreadyAnswer(a: Actor, m: Message)
    requires Handshaking(a) && Answers(a, m) && Answered(a, m.line.id).rpcs.pending == map[]
    requires Next(a, m).session.None? && !Next(a, m).failed && Follows(a, m, Next(a, m)) && a.session.None? && !a.failed
    requires HeldBack(a)
    ensures HeldBack(Next(a, m))
  {
    var b, next := Next(a, m), a.rpcs.next;
    if Question(a, m).Initialize? {
      assert !Loading(a);
      var rpc := if a.resume.Some? then SessionLoad else SessionNew;
      assert b.rpcs.pending == map[next := rpc];
      assert b.rpcs.pending[next] == rpc;
    } else {
      assert Question(a, m).SessionLoad? && b.rpcs.pending == map[next := SessionNew];
    }
  }

  lemma {:induction false} RunHeldBack(a: Actor, messages: seq<Message>)
    requires Handshaking(a) && HeldBack(a) && Possible(a, messages)
    ensures HeldBack(Run(a, messages))
    decreases |messages|
  {
    if messages != [] {
      HeldBackNext(a, messages[0]);
      NextHandshaking(a, messages[0]);
      RunHeldBack(Next(a, messages[0]), messages[1..]);
    }
  }

  /** Main result: in every run of a new session that has not failed, what the agent
      reports is held back exactly while a session/load is unanswered, so the history it
      replays is not told twice, and nothing else is kept from the hub. */
  lemma UpdatesHeldBackExactly(start: Actor, resume: Option<string>, requested: Option<string>, autoRun: bool,
                               messages: seq<Message>)
    requires start == Begin(resume, requested, autoRun) && Possible(start, messages)
    ensures var a := Run(start, messages);
      a.failed || (a.suppress <==> exists id :: id in a.rpcs.pending && a.rpcs.pending[id].SessionLoad?)
  {
    BeginHandshaking(resume, requested, autoRun);
    assert start.rpcs.pending == map[1 := Initialize];
    RunHeldBack(start, messages);
  }
}
