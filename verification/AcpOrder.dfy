/** What becomes of the commands sent to an agent session, and in which order. */
module AcpOrder {
  import opened Basics
  import opened Acp
  import opened AcpRuns

  function First(n: nat): multiset<nat>
  {
    if n == 0 then multiset{} else First(n - 1) + multiset{n - 1}
  }

  lemma {:induction false} EachOnce(n: nat, k: nat)
    ensures First(n)[k] == if k < n then 1 else 0
  {
    if n > 0 {
      EachOnce(n - 1, k);
    }
  }

  predicate Increasing(s: seq<nat>)
  {
    forall i, j | 0 <= i < j < |s| :: s[i] < s[j]
  }

  /** The executed commands that had been queued. */
  function Held(ran: seq<nat>, held: set<nat>): seq<nat>
  {
    if ran == [] then []
    else Held(ran[..|ran| - 1], held) + if ran[|ran| - 1] in held then [ran[|ran| - 1]] else []
  }

  /** Every command received is executed, discarded, or waiting: once. */
  predicate Tallied(n: Notes, queue: seq<Ticket>)
  {
    multiset(n.ran) + multiset(n.kills) + multiset(n.dropped) + multiset(Numbers(queue)) == First(n.arrived)
  }

  /** Queued commands keep their order. */
  predicate InTurn(n: Notes, queue: seq<Ticket>)
  {
    && Increasing(Held(n.ran, n.held) + Numbers(queue))
    && (forall k | k in n.held :: k < n.arrived)
    && (forall k | k in Numbers(queue) :: k in n.held)
    && (forall k | k in n.ran :: k < n.arrived)
  }

  predicate Accounted(n: Notes, queue: seq<Ticket>)
  {
    Tallied(n, queue) && InTurn(n, queue)
  }

  // ----- what one step does with commands -----

  predicate SameTickets(a: Notes, b: Notes)
  {
    b.arrived == a.arrived && b.ran == a.ran && b.kills == a.kills && b.held == a.held && b.dropped == a.dropped
  }

  datatype Move = Nothing | RunNow | RunQueue | DropAll | KillAll | TurnAway | Wait(ticket: Ticket)

  function MovedQueue(queue: seq<Ticket>, m: Move): seq<Ticket>
  {
    match m
    case Wait(t) => queue + [t]
    case RunQueue => []
    case DropAll => []
    case KillAll => []
    case _ => queue
  }

  function MovedNotes(n: Notes, queue: seq<Ticket>, m: Move): Notes
  {
    match m
    case Nothing => n
    case RunNow => n.(arrived := n.arrived + 1, ran := n.ran + [n.arrived])
    case RunQueue => n.(ran := n.ran + Numbers(queue))
    case DropAll => n.(dropped := n.dropped + Numbers(queue))
    case KillAll =>
      n.(arrived := n.arrived + 1, dropped := n.dropped + Numbers(queue), kills := n.kills + [n.arrived])
    case TurnAway => n.(arrived := n.arrived + 1, dropped := n.dropped + [n.arrived])
    case Wait(t) => n.(arrived := n.arrived + 1, held := n.held + {t.number})
  }

  predicate Moves(a: Actor, b: Actor, m: Move)
  {
    && b.queue == MovedQueue(a.queue, m) && SameTickets(MovedNotes(a.notes, a.queue, m), b.notes)
    && (m.Wait? ==> m.ticket.number == a.notes.arrived)
  }

  lemma Pushed(s: seq<nat>, x: nat)
    ensures multiset(s + [x]) == multiset(s) + multiset{x}
  {
  }

  lemma NumbersPush(queue: seq<Ticket>, t: Ticket)
    ensures Numbers(queue + [t]) == Numbers(queue) + [t.number]
  {
  }

  lemma RunTallied(n: Notes, queue: seq<Ticket>)
    requires Tallied(n, queue)
    ensures Tallied(MovedNotes(n, queue, RunNow), queue)
  {
    OneMore(multiset(n.ran), multiset(n.kills), multiset(n.dropped), multiset(Numbers(queue)), n.arrived);
    Pushed(n.ran, n.arrived);
  }

  lemma TurnTallied(n: Notes, queue: seq<Ticket>)
    requires Tallied(n, queue)
    ensures Tallied(MovedNotes(n, queue, TurnAway), queue)
  {
    OneMore(multiset(n.ran), multiset(n.kills), multiset(n.dropped), multiset(Numbers(queue)), n.arrived);
    Pushed(n.dropped, n.arrived);
  }

  lemma WaitTallied(n: Notes, queue: seq<Ticket>, t: Ticket)
    requires Tallied(n, queue) && t.number == n.arrived
    ensures Tallied(MovedNotes(n, queue, Wait(t)), queue + [t])
  {
    OneMore(multiset(n.ran), multiset(n.kills), multiset(n.dropped), multiset(Numbers(queue)), n.arrived);
    NumbersPush(queue, t);
    Pushed(Numbers(queue), n.arrived);
  }

  lemma AllTallied(n: Notes, queue: seq<Ticket>, m: Move)
    requires Tallied(n, queue) && (m.RunQueue? || m.DropAll?)
    ensures Tallied(MovedNotes(n, queue, m), [])
  {
    AllOver(multiset(n.ran), multiset(n.kills), multiset(n.dropped), multiset(Numbers(queue)));
    Appended(n.ran, Numbers(queue));
    Appended(n.dropped, Numbers(queue));
    assert multiset(Numbers([])) == multiset{};
  }

  lemma KillTallied(n: Notes, queue: seq<Ticket>)
    requires Tallied(n, queue)
    ensures Tallied(MovedNotes(n, queue, KillAll), [])
  {
    var b := n.(dropped := n.dropped + Numbers(queue));
    AllTallied(n, queue, DropAll);
    OneMore(multiset(b.ran), multiset(b.kills), multiset(b.dropped), multiset(Numbers([])), n.arrived);
    Pushed(b.kills, n.arrived);
  }

  lemma MoveTallied(n: Notes, queue: seq<Ticket>, m: Move)
    requires Tallied(n, queue) && (m.Wait? ==> m.ticket.number == n.arrived)
    ensures Tallied(MovedNotes(n, queue, m), MovedQueue(queue, m))
  {
    match m
    case Nothing =>
    case KillAll => KillTallied(n, queue);
    case Wait(t) => WaitTallied(n, queue, t);
    case RunNow => RunTallied(n, queue);
    case TurnAway => TurnTallied(n, queue);
    case _ => AllTallied(n, queue, m);
  }

  lemma Appended(s: seq<nat>, t: seq<nat>)
    ensures multiset(s + t) == multiset(s) + multiset(t)
  {
  }

  /** Wherever a new command is put, it is one more in all. */
  lemma OneMore(r: multiset<nat>, k: multiset<nat>, d: multiset<nat>, q: multiset<nat>, x: nat)
    ensures (r + multiset{x}) + k + d + q == (r + k + d + q) + multiset{x}
    ensures r + (k + multiset{x}) + d + q == (r + k + d + q) + multiset{x}
    ensures r + k + (d + multiset{x}) + q == (r + k + d + q) + multiset{x}
    ensures r + k + d + (q + multiset{x}) == (r + k + d + q) + multiset{x}
  {
  }

  /** Moving the whole queue changes nothing in all. */
  lemma AllOver(r: multiset<nat>, k: multiset<nat>, d: multiset<nat>, q: multiset<nat>)
    ensures (r + q) + k + d + multiset{} == r + k + d + q
    ensures r + k + (d + q) + multiset{} == r + k + d + q
  {
  }

  lemma {:induction false} HeldMembers(ran: seq<nat>, held: set<nat>)
    ensures forall k :: k in Held(ran, held) <==> k in ran && k in held
  {
    if ran != [] {
      HeldMembers(ran[..|ran| - 1], held);
    }
  }

  lemma {:induction false} HeldAppend(ran: seq<nat>, more: seq<nat>, held: set<nat>)
    requires forall k | k in more :: k in held
    ensures Held(ran + more, held) == Held(ran, held) + more
  {
    if more == [] {
      assert ran + more == ran;
    } else {
      var n := |more| - 1;
      assert (ran + more)[..|ran| + n] == ran + more[..n];
      HeldAppend(ran, more[..n], held);
      assert more[n] in more && more == more[..n] + [more[n]];
    }
  }

  lemma {:induction false} HeldNew(ran: seq<nat>, held: set<nat>, x: nat)
    requires x !in ran
    ensures Held(ran, held + {x}) == Held(ran, held)
  {
    if ran != [] {
      HeldNew(ran[..|ran| - 1], held, x);
      assert ran[|ran| - 1] in ran;
    }
  }

  lemma HeldPass(ran: seq<nat>, held: set<nat>, x: nat)
    requires x !in held
    ensures Held(ran + [x], held) == Held(ran, held)
  {
    assert (ran + [x])[..|ran|] == ran;
  }

  lemma IncreasingPrefix(s: seq<nat>, t: seq<nat>)
    requires Increasing(s + t)
    ensures Increasing(s)
  {
    forall i, j | 0 <= i < j < |s| ensures s[i] < s[j] {
      assert (s + t)[i] == s[i] && (s + t)[j] == s[j];
    }
  }

  lemma IncreasingPush(s: seq<nat>, x: nat)
    requires Increasing(s) && forall k | k in s :: k < x
    ensures Increasing(s + [x])
  {
    assert forall i | 0 <= i < |s| :: s[i] in s;
  }

  lemma WaitInTurn(n: Notes, queue: seq<Ticket>, t: Ticket)
    requires InTurn(n, queue) && t.number == n.arrived
    ensures InTurn(MovedNotes(n, queue, Wait(t)), queue + [t])
  {
    var was := Held(n.ran, n.held);
    HeldNew(n.ran, n.held, n.arrived);
    HeldMembers(n.ran, n.held);
    NumbersPush(queue, t);
    forall k | k in was + Numbers(queue) ensures k < n.arrived {
      assert k in was || k in Numbers(queue);
    }
    IncreasingPush(was + Numbers(queue), n.arrived);
    Assoc(was, Numbers(queue), [n.arrived]);
  }

  lemma FlushInTurn(n: Notes, queue: seq<Ticket>)
    requires InTurn(n, queue)
    ensures InTurn(MovedNotes(n, queue, RunQueue), [])
  {
    HeldAppend(n.ran, Numbers(queue), n.held);
    assert Held(n.ran, n.held) + Numbers(queue) + Numbers([]) == Held(n.ran, n.held) + Numbers(queue);
  }

  lemma MoveInTurn(n: Notes, queue: seq<Ticket>, m: Move)
    requires InTurn(n, queue) && (m.Wait? ==> m.ticket.number == n.arrived)
    ensures InTurn(MovedNotes(n, queue, m), MovedQueue(queue, m))
  {
    match m
    case Nothing =>
    case RunNow => HeldPass(n.ran, n.held, n.arrived);
    case RunQueue => FlushInTurn(n, queue);
    case TurnAway =>
    case Wait(t) => WaitInTurn(n, queue, t);
    case _ =>
      var was := Held(n.ran, n.held);
      IncreasingPrefix(was, Numbers(queue));
      assert was + Numbers([]) == was;
  }

  // ----- each handler is one such move -----

  lemma CommandMoves(a: Actor, command: Command) returns (m: Move)
    requires Handshaking(a)
    ensures Moves(a, HandleCommand(a, command), m)
    ensures m.RunNow? <==> !command.Kill? && a.session.Some?
    ensures !m.RunQueue? && !m.Nothing?
  {
    var n, t := Arrived(a), Ticket(a.notes.arrived, command);
    if command.Kill? {
      KillSame(Killed(DropQueue(n), t.number));
      m := KillAll;
    } else if a.session.Some? {
      ExecuteRan(n, t);
      m := RunNow;
    } else if a.failed || |a.queue| >= MAX_QUEUED_COMMANDS {
      m := TurnAway;
    } else {
      m := Wait(t);
    }
  }

  lemma FlushMoves(a: Actor, b: Actor)
    requires b.queue == a.queue && SameTickets(a.notes, b.notes) && Pendings(b.rpcs, b.resume)
    ensures Moves(a, Flush(b), RunQueue) && Flush(b).session == b.session
  {
    FlushRan(b);
  }

  lemma ReadyMoves(a: Actor, b: Actor) returns (m: Move)
    requires b.queue == a.queue && SameTickets(a.notes, b.notes) && Pendings(b.rpcs, b.resume)
    ensures Moves(a, ApplyRequestedModelThenFlush(b), m) && (m.Nothing? || m.RunQueue?)
    ensures ApplyRequestedModelThenFlush(b).session == b.session
  {
    if b.requested.None? {
      FlushMoves(a, b);
      m := RunQueue;
    } else if !b.supports {
      FlushMoves(a, Emit(b.(requested := None), Failure));
      m := RunQueue;
    } else {
      SetModelSame(b.(requested := None, flushAfter := true, notes := b.notes.(asked := Some(b.rpcs.next))), b.requested.value);
      m := Nothing;
    }
  }

  lemma WaitingMoves(a: Actor, b: Actor) returns (m: Move)
    requires b.queue == a.queue && SameTickets(a.notes, b.notes) && Pendings(b.rpcs, b.resume)
    ensures Moves(a, FlushIfWaiting(b), m) && m == (if b.flushAfter then RunQueue else Nothing)
    ensures FlushIfWaiting(b).session == b.session
  {
    m := if b.flushAfter then RunQueue else Nothing;
    if b.flushAfter {
      FlushMoves(a, b.(flushAfter := false));
    }
  }

  lemma ResultMoves(a: Actor, b: Actor, rpc: Rpc, session: string, models: Option<bool>) returns (m: Move)
    requires b.queue == a.queue && SameTickets(a.notes, b.notes) && Pendings(b.rpcs, b.resume)
    requires (rpc.SessionLoad? ==> b.resume.Some?) && (rpc.Model? ==> b.session.Some?)
    ensures Moves(a, HandleResult(b, rpc, session, models), m) && (m.Nothing? || m.RunQueue?)
    ensures m.RunQueue? ==> HandleResult(b, rpc, session, models).session.Some?
  {
    match rpc {
      case SessionNew =>
        m := ReadyMoves(a, Opened(b, Some(session), models.Some? && models.value));
      case SessionLoad =>
        m := ReadyMoves(a, Opened(b, b.resume, if models.Some? then models.value else b.supports));
      case Model(_) => m := WaitingMoves(a, Tell(b, None));
      case _ => m := Nothing;
    }
  }

  lemma ErrorMoves(a: Actor, b: Actor, rpc: Rpc) returns (m: Move)
    requires b.queue == a.queue && SameTickets(a.notes, b.notes) && Pendings(b.rpcs, b.resume) && !b.failed
    requires rpc.Model? ==> b.session.Some?
    ensures Moves(a, HandleError(b, rpc), m) && (m.Nothing? || m.RunQueue? || m.DropAll?)
    ensures m.RunQueue? ==> HandleError(b, rpc).session.Some?
  {
    match rpc {
      case Model(_) => m := WaitingMoves(a, Emit(b, Failure));
      case Initialize => m := DropAll;
      case SessionNew => m := DropAll;
      case _ => m := Nothing;
    }
  }

  lemma ResponseMoves(a: Actor, id: nat, outcome: Outcome) returns (m: Move)
    requires Handshaking(a)
    ensures Moves(a, HandleResponse(a, id, outcome), m) && (m.Nothing? || m.RunQueue? || m.DropAll?)
    ensures m.RunQueue? ==> HandleResponse(a, id, outcome).session.Some?
  {
    if id !in a.rpcs.pending {
      m := Nothing;
    } else {
      AnsweredPendings(a, id);
      if outcome.Done? {
        m := ResultMoves(a, Answered(a, id), a.rpcs.pending[id], outcome.session, outcome.models);
      } else {
        m := ErrorMoves(a, Answered(a, id), a.rpcs.pending[id]);
      }
    }
  }

  lemma LineMoves(a: Actor, line: Line) returns (m: Move)
    requires Handshaking(a)
    ensures Moves(a, HandleLine(a, line), m) && (m.Nothing? || m.RunQueue? || m.DropAll?)
    ensures m.RunQueue? ==> HandleLine(a, line).session.Some?
  {
    m := Nothing;
    match line {
      case Response(id, outcome) => m := ResponseMoves(a, id, outcome);
      case Permission(request, allowed) => PermissionMoves(a, request, allowed);
      case _ =>
    }
  }

  lemma NextMoves(a: Actor, msg: Message) returns (m: Move)
    requires Handshaking(a) && Enabled(a, msg)
    ensures Moves(a, Next(a, msg), m)
    ensures m.RunNow? <==> msg.Hub? && !msg.command.Kill? && a.session.Some?
    ensures m.RunQueue? ==> Next(a, msg).session.Some?
  {
    match msg {
      case Hub(command) => m := CommandMoves(a, command);
      case FromAgent(line) => m := LineMoves(a, line);
      case Eof => m := DropAll;
      case Timeout(id) => m := TimeoutMoves(a, id);
    }
  }

  lemma TimeoutMoves(a: Actor, id: nat) returns (m: Move)
    requires Handshaking(a) && id in a.rpcs.watchdogs
    ensures Moves(a, HandshakeTimeout(a, id), m) && (m.Nothing? || m.DropAll?)
  {
    m := if id in a.rpcs.pending then DropAll else Nothing;
    if id in a.rpcs.pending {
      AnsweredPendings(a, id);
    }
  }

  lemma PermissionMoves(a: Actor, request: string, allowed: Option<string>)
    ensures Moves(a, HandlePermission(a, request, allowed), Nothing)
  {
  }

  // ----- every run -----

  lemma MoveAccounted(a: Actor, b: Actor, m: Move)
    requires Accounted(a.notes, a.queue) && Moves(a, b, m)
    ensures Accounted(b.notes, b.queue)
  {
    MoveTallied(a.notes, a.queue, m);
    MoveInTurn(a.notes, a.queue, m);
  }

  lemma {:induction false} RunAccounted(a: Actor, messages: seq<Message>)
    requires Handshaking(a) && Accounted(a.notes, a.queue) && Possible(a, messages)
    ensures Accounted(Run(a, messages).notes, Run(a, messages).queue)
    decreases |messages|
  {
    if messages != [] {
      var m := NextMoves(a, messages[0]);
      MoveAccounted(a, Next(a, messages[0]), m);
      NextHandshaking(a, messages[0]);
      RunAccounted(Next(a, messages[0]), messages[1..]);
    }
  }

  // ----- order -----

  /** Nothing runs before there is a session. */
  predicate NotYet(a: Actor)
  {
    a.session.None? ==> a.notes.ran == []
  }

  lemma NextNotYet(a: Actor, msg: Message)
    requires Handshaking(a) && NotYet(a) && Enabled(a, msg)
    ensures NotYet(Next(a, msg))
  {
    var m := NextMoves(a, msg);
    NextLater(a, msg);
  }

  predicate Ordered(n: Notes, queue: seq<Ticket>)
  {
    && Increasing(n.ran + Numbers(queue))
    && (forall k | k in n.ran :: k < n.arrived) && (forall k | k in Numbers(queue) :: k < n.arrived)
  }

  lemma MoveOrdered(n: Notes, queue: seq<Ticket>, m: Move)
    requires Ordered(n, queue) && (m.Wait? ==> m.ticket.number == n.arrived) && (m.RunNow? ==> queue == [])
    ensures Ordered(MovedNotes(n, queue, m), MovedQueue(queue, m))
  {
    var ran, waiting, x := n.ran, Numbers(queue), n.arrived;
    match m
    case RunNow =>
      assert ran + waiting == ran;
      IncreasingPush(ran, x);
      assert ran + [x] + waiting == ran + [x];
    case Wait(t) =>
      NumbersPush(queue, t);
      assert forall k | k in ran + waiting :: k in ran || k in waiting;
      IncreasingPush(ran + waiting, x);
      Assoc(ran, waiting, [x]);
    case RunQueue => assert ran + waiting + Numbers([]) == ran + waiting;
    case Nothing =>
    case TurnAway =>
    case _ =>
      IncreasingPrefix(ran, waiting);
      assert ran + Numbers([]) == ran;
  }

  /** With no model requested, commands run in the order they came. */
  predicate InOrder(a: Actor)
  {
    a.requested.None? && !a.flushAfter && Ordered(a.notes, a.queue)
  }

  lemma NextInOrder(a: Actor, msg: Message)
    requires Handshaking(a) && InOrder(a) && Enabled(a, msg)
    ensures InOrder(Next(a, msg))
  {
    var m := NextMoves(a, msg);
    NextLater(a, msg);
    MoveOrdered(a.notes, a.queue, m);
  }

  lemma {:induction false} RunNotYet(a: Actor, messages: seq<Message>)
    requires Handshaking(a) && NotYet(a) && Possible(a, messages)
    ensures NotYet(Run(a, messages))
    ensures InOrder(a) ==> InOrder(Run(a, messages))
    decreases |messages|
  {
    if messages != [] {
      NextNotYet(a, messages[0]);
      if InOrder(a) { NextInOrder(a, messages[0]); }
      NextHandshaking(a, messages[0]);
      RunNotYet(Next(a, messages[0]), messages[1..]);
    }
  }

  /** Main result: every command received is executed once, in the queue, or
      discarded; queued ones run in the order they came; nothing runs before the
      session exists; and with no model requested everything that runs does so in
      the order it came. */
  lemma CommandsRunInTurn(start: Actor, resume: Option<string>, requested: Option<string>, autoRun: bool,
                          messages: seq<Message>, k: nat)
    requires start == Begin(resume, requested, autoRun) && Possible(start, messages)
    ensures var a := Run(start, messages);
      && (multiset(a.notes.ran) + multiset(a.notes.kills) + multiset(a.notes.dropped) + multiset(Numbers(a.queue)))[k]
         == (if k < a.notes.arrived then 1 else 0)
      && Increasing(Held(a.notes.ran, a.notes.held) + Numbers(a.queue))
      && (a.session.None? ==> a.notes.ran == [])
      && (requested.None? ==> Increasing(a.notes.ran))
      && |a.queue| <= MAX_QUEUED_COMMANDS
  {
    var a := Run(start, messages);
    BeginHandshaking(resume, requested, autoRun);
    RunHandshaking(start, messages);
    RunAccounted(start, messages);
    RunNotYet(start, messages);
    EachOnce(a.notes.arrived, k);
    if requested.None? {
      assert InOrder(start);
      IncreasingPrefix(a.notes.ran, Numbers(a.queue));
    }
  }
}
