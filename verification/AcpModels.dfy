/** The create-time model, and the agent's questions. */
module AcpModels {
  import opened Basics
  import opened Acp
  import opened AcpRuns
  import opened AcpOrder

  // ----- queued commands wait for the model -----

  /** The agent answers requests in the order they were sent. */
  predicate AnswersInOrder(a: Actor, m: Message)
  {
    m.FromAgent? && m.line.Response? && m.line.id in a.rpcs.pending ==>
      forall id | id in a.rpcs.pending :: m.line.id <= id
  }

  predicate PossibleInOrder(a: Actor, messages: seq<Message>)
    decreases |messages|
  {
    messages == [] ||
    (Enabled(a, messages[0]) && AnswersInOrder(a, messages[0]) && PossibleInOrder(Next(a, messages[0]), messages[1..]))
  }

  /** The create-time set_model is unanswered. */
  predicate AwaitsModel(a: Actor)
  {
    a.notes.asked.Some? && a.notes.asked.value in a.rpcs.pending
  }

  predicate Waiting(a: Actor)
  {
    && (a.session.None? || a.requested.Some? ==> a.notes.asked.None?)
    && (a.notes.asked.Some? ==> a.notes.asked.value < a.rpcs.next)
    && (a.flushAfter <==> AwaitsModel(a))
    && (AwaitsModel(a) ==>
          && a.rpcs.pending[a.notes.asked.value].Model?
          && (forall id | id in a.rpcs.pending :: a.notes.asked.value <= id)
          && Held(a.notes.ran, a.notes.held) == [])
    && (forall k | k in a.notes.held :: k < a.notes.arrived)
    && NotYet(a)
  }

  /** Executing at once leaves the waiting as it is. */
  lemma RanWaiting(a: Actor, b: Actor)
    requires Waiting(a) && a.session.Some? && Pendings(a.rpcs, a.resume)
    requires OnlyRan(Arrived(a), b, [a.notes.arrived])
    ensures Waiting(b)
  {
    HeldPass(a.notes.ran, a.notes.held, a.notes.arrived);
    if AwaitsModel(b) {
      assert a.notes.asked.value in a.rpcs.pending;
    }
  }

  lemma CommandWaiting(a: Actor, command: Command)
    requires Waiting(a) && Handshaking(a)
    ensures Waiting(HandleCommand(a, command))
  {
    var n, t := Arrived(a), Ticket(a.notes.arrived, command);
    if command.Kill? {
      KillSame(Killed(DropQueue(n), t.number));
    } else if a.session.Some? {
      ExecuteRan(n, t);
      RanWaiting(a, Execute(n, t));
    }
  }

  /** Once nothing awaits a model, flushing keeps it so. */
  lemma FlushWaiting(a: Actor)
    requires Pendings(a.rpcs, a.resume) && a.session.Some? && a.requested.None? && !a.flushAfter && !AwaitsModel(a)
    requires a.notes.asked.Some? ==> a.notes.asked.value < a.rpcs.next
    requires forall k | k in a.notes.held :: k < a.notes.arrived
    ensures Waiting(Flush(a))
  {
    FlushRan(a);
  }

  lemma ReadyWaiting(a: Actor)
    requires Pendings(a.rpcs, a.resume) && a.rpcs.pending == map[]
    requires a.session.Some? && a.notes.asked.None? && !a.flushAfter && a.notes.ran == []
    requires forall k | k in a.notes.held :: k < a.notes.arrived
    ensures Waiting(ApplyRequestedModelThenFlush(a))
  {
    if a.requested.None? {
      FlushWaiting(a);
    } else if !a.supports {
      FlushWaiting(Emit(a.(requested := None), Failure));
    } else {
      SetModelSame(a.(requested := None, flushAfter := true, notes := a.notes.(asked := Some(a.rpcs.next))), a.requested.value);
    }
  }

  lemma FlushIfWaitingWaiting(a: Actor)
    requires Pendings(a.rpcs, a.resume) && a.session.Some? && !AwaitsModel(a) && NotYet(a)
    requires a.requested.Some? ==> a.notes.asked.None? && !a.flushAfter
    requires a.notes.asked.Some? ==> a.notes.asked.value < a.rpcs.next
    requires forall k | k in a.notes.held :: k < a.notes.arrived
    ensures Waiting(FlushIfWaiting(a))
  {
    if a.flushAfter {
      FlushWaiting(a.(flushAfter := false));
    }
  }

  /** The oldest request was answered: if the model was awaited, this was it. */
  lemma OldestAnswered(a: Actor, id: nat)
    requires Waiting(a) && Handshaking(a) && id in a.rpcs.pending
    requires forall j | j in a.rpcs.pending :: id <= j
    ensures !AwaitsModel(Answered(a, id))
    ensures a.flushAfter ==> a.rpcs.pending[id].Model? && a.requested.None?
  {
  }

  lemma HandshakeWaiting(a: Actor, rpc: Rpc, outcome: Outcome)
    requires Waiting(a) && Between(a) && IsHandshake(rpc) && (rpc.SessionLoad? ==> a.resume.Some?)
    ensures Waiting(if outcome.Done? then HandleResult(a, rpc, outcome.session, outcome.models) else HandleError(a, rpc))
  {
    if outcome.Done? {
      match rpc
      case Initialize =>
      case SessionNew => ReadyWaiting(Opened(a, Some(outcome.session), outcome.models.Some? && outcome.models.value));
      case SessionLoad =>
        ReadyWaiting(Opened(a, a.resume, if outcome.models.Some? then outcome.models.value else a.supports));
    }
  }

  lemma ModelWaiting(a: Actor, id: nat, outcome: Outcome)
    requires Waiting(a) && Handshaking(a) && id in a.rpcs.pending && a.rpcs.pending[id].Model?
    requires forall j | j in a.rpcs.pending :: id <= j
    ensures Waiting(HandleResponse(a, id, outcome))
  {
    AnsweredPendings(a, id);
    OldestAnswered(a, id);
    var b := Answered(a, id);
    FlushIfWaitingWaiting(if outcome.Done? then Tell(b, None) else Emit(b, Failure));
  }

  lemma ResponseWaiting(a: Actor, id: nat, outcome: Outcome)
    requires Waiting(a) && Handshaking(a)
    requires id in a.rpcs.pending ==> forall j | j in a.rpcs.pending :: id <= j
    ensures Waiting(HandleResponse(a, id, outcome))
  {
    if id in a.rpcs.pending {
      AnsweredPendings(a, id);
      OldestAnswered(a, id);
      var rpc := a.rpcs.pending[id];
      if IsHandshake(rpc) {
        HandshakeWaiting(Answered(a, id), rpc, outcome);
      } else if rpc.Model? {
        ModelWaiting(a, id, outcome);
      }
    }
  }

  lemma PermissionWaiting(a: Actor, request: string, allowed: Option<string>)
    requires Waiting(a)
    ensures Waiting(HandlePermission(a, request, allowed))
  {
  }

  lemma TimeoutWaiting(a: Actor, id: nat)
    requires Waiting(a) && Handshaking(a) && id in a.rpcs.watchdogs
    ensures Waiting(HandshakeTimeout(a, id))
  {
    if id in a.rpcs.pending {
      AnsweredPendings(a, id);
    }
  }

  lemma NextWaiting(a: Actor, m: Message)
    requires Waiting(a) && Handshaking(a) && Enabled(a, m) && AnswersInOrder(a, m)
    ensures Waiting(Next(a, m))
  {
    match m
    case Hub(command) => CommandWaiting(a, command);
    case FromAgent(line) =>
      match line {
        case Response(id, outcome) => ResponseWaiting(a, id, outcome);
        case Permission(request, allowed) => PermissionWaiting(a, request, allowed);
        case _ =>
      }
    case Eof =>
    case Timeout(id) => TimeoutWaiting(a, id);
  }

  lemma {:induction false} RunWaiting(a: Actor, messages: seq<Message>)
    requires Waiting(a) && Handshaking(a) && PossibleInOrder(a, messages)
    ensures Waiting(Run(a, messages))
    decreases |messages|
  {
    if messages != [] {
      NextWaiting(a, messages[0]);
      NextHandshaking(a, messages[0]);
      RunWaiting(Next(a, messages[0]), messages[1..]);
    }
  }

  /** Main result: if the agent answers in order, no command that was queued runs
      before the create-time set_model was answered. */
  lemma QueuedCommandsWaitForTheModel(start: Actor, resume: Option<string>, requested: Option<string>,
                                      autoRun: bool, messages: seq<Message>, k: nat)
    requires start == Begin(resume, requested, autoRun) && PossibleInOrder(start, messages)
    ensures var a := Run(start, messages);
      AwaitsModel(a) && k in a.notes.held ==> k !in a.notes.ran
  {
    BeginHandshaking(resume, requested, autoRun);
    RunWaiting(start, messages);
    var a := Run(start, messages);
    HeldMembers(a.notes.ran, a.notes.held);
  }

  /** Why order matters: while commands wait for the model, an answer lets them
      run exactly if it is to some set_model request, the awaited one or not. */
  lemma AnyModelAnswerFlushes(a: Actor, id: nat, outcome: Outcome)
    requires Handshaking(a) && a.flushAfter && AwaitsModel(a) && id in a.rpcs.pending && a.queue != []
    ensures var n := HandleResponse(a, id, outcome);
      && (n.queue == [] <==> a.rpcs.pending[id].Model?)
      && (n.queue == [] ==> n.notes.ran == a.notes.ran + Numbers(a.queue))
      && (AwaitsModel(n) <==> id != a.notes.asked.value)
  {
    AnsweredPendings(a, id);
    if a.rpcs.pending[id].Model? {
      var b := Answered(a, id);
      FlushRan((if outcome.Done? then Tell(b, None) else Emit(b, Failure)).(flushAfter := false));
    }
  }

  // ----- what a requested model costs -----

  /** A session with a model requested and one prompt queued, just before
      session/new is answered. */
  predicate AboutToOpen(a: Actor)
  {
    && a.session.None? && !a.flushAfter && !a.failed && a.requested == Some("m")
    && a.rpcs.pending == map[2 := SessionNew] && a.rpcs.next == 3
    && a.queue == [Ticket(0, Prompt("first"))] && a.notes.ran == [] && a.notes.arrived == 1
  }

  lemma OpensSoon(a0: Actor, a1: Actor, a2: Actor, session: string)
    requires a0 == Begin(None, Some("m"), false)
    requires a1 == Next(a0, Hub(Prompt("first")))
    requires a2 == Next(a1, FromAgent(Response(1, Done(session, None))))
    ensures AboutToOpen(a2)
  {
    assert a1.queue == [Ticket(0, Prompt("first"))] && a1.rpcs.pending == map[1 := Initialize];
    assert Answered(a1, 1).rpcs.pending == map[];
  }

  /** The set_model is sent, the prompt still queued. */
  predicate AskedModel(a: Actor)
  {
    && a.session.Some? && a.flushAfter && a.supports && a.notes.asked == Some(3) && a.rpcs.next == 4
    && a.rpcs.pending == map[3 := Model("m")] && a.rpcs.watchdogs <= {1, 2} && a.resume.None?
    && a.queue == [Ticket(0, Prompt("first"))] && a.notes.ran == [] && a.notes.arrived == 1
  }

  lemma OpensAsking(a2: Actor, a3: Actor, session: string)
    requires AboutToOpen(a2) && a2.rpcs.watchdogs <= {1, 2} && a2.resume.None?
    requires a3 == Next(a2, FromAgent(Response(2, Done(session, Some(true)))))
    ensures AskedModel(a3)
  {
    assert Answered(a2, 2).rpcs.pending == map[];
  }

  lemma SecondRunsFirst(a3: Actor, a4: Actor)
    requires AskedModel(a3) && a4 == Next(a3, Hub(Prompt("second")))
    ensures a4.notes.ran == [1] && a4.queue == a3.queue && a4.flushAfter && a4.session.Some?
    ensures a4.rpcs.pending == map[3 := Model("m"), 4 := Turn("second")] && a4.rpcs.watchdogs <= {1, 2} && a4.resume.None?
    ensures a4.rpcs.next == 5
  {
    PromptSame(Ran(Arrived(a3), 1), "second");
  }

  /** A prompt sent while the set_model is under way overtakes the queued one,
      although the agent answers in order. */
  lemma LaterCommandsOvertake(a3: Actor, a4: Actor, a5: Actor, session: string)
    requires AskedModel(a3) && a4 == Next(a3, Hub(Prompt("second")))
    requires a5 == Next(a4, FromAgent(Response(3, Done(session, None))))
    ensures AnswersInOrder(a4, FromAgent(Response(3, Done(session, None))))
    ensures a5.notes.ran == [1, 0]
  {
    SecondRunsFirst(a3, a4);
    var b := Tell(Answered(a4, 3), None).(flushAfter := false);
    assert a5 == Flush(b);
    FlushRan(b);
    assert Numbers(b.queue) == [0];
  }

  /** Such a state is reached. */
  lemma OvertakingIsReached(a0: Actor, a1: Actor, a2: Actor, a3: Actor, session: string)
    requires a0 == Begin(None, Some("m"), false)
    requires a1 == Next(a0, Hub(Prompt("first")))
    requires a2 == Next(a1, FromAgent(Response(1, Done(session, None))))
    requires a3 == Next(a2, FromAgent(Response(2, Done(session, Some(true)))))
    ensures AskedModel(a3)
  {
    OpensSoon(a0, a1, a2, session);
    OpensAsking(a2, a3, session);
  }

  /** From there: a model chosen in the meantime is answered first, and the queued
      prompt runs although the awaited model has not been answered. */
  lemma OutOfOrderAnswerIsTooEarly(a3: Actor, a4: Actor, a5: Actor, session: string)
    requires AskedModel(a3) && a4 == Next(a3, Hub(SetModel("other")))
    requires a5 == Next(a4, FromAgent(Response(4, Done(session, None))))
    ensures !AnswersInOrder(a4, FromAgent(Response(4, Done(session, None))))
    ensures a5.notes.ran == [1, 0] && AwaitsModel(a5)
  {
    SetModelSame(Ran(Arrived(a3), 1), "other");
    assert a4.rpcs.pending == map[3 := Model("m"), 4 := Model("other")];
    assert a4.notes.ran == [1] && a4.queue == a3.queue && a4.flushAfter;
    var b := Tell(Answered(a4, 4), None).(flushAfter := false);
    assert a5 == Flush(b);
    FlushRan(b);
    assert Numbers(b.queue) == [0];
    assert b.rpcs.pending[3] == Model("m");
  }
}
