/** What holds of a session at any time, and what a caller may rely on. */
module AcpValid {
  import opened Basics
  import opened Acp
  import opened AcpRuns
  import opened AcpOrder
  import opened AcpQuestions

  ghost predicate SessionValid(a: Actor)
  {
    Handshaking(a) && Told(a) && Accounted(a.notes, a.queue) && Questions(a)
  }

  lemma BeginValid(start: Actor, resume: Option<string>, requested: Option<string>, autoRun: bool)
    requires start == Begin(resume, requested, autoRun)
    ensures SessionValid(start) && !start.ended
  {
    BeginHandshaking(resume, requested, autoRun);
    BeginTold(resume, requested, autoRun);
    BeginQuestions(start);
  }

  lemma BeginQuestions(a: Actor)
    requires a.output.stdin == [Request(1, Initialize)] && a.question.None?
    requires a.notes.permissions == 0 && a.notes.forgotten == []
    ensures Questions(a)
  {
    NoReplies(a.output.stdin);
  }

  lemma NextSessionValid(a: Actor, m: Message)
    requires SessionValid(a) && Enabled(a, m)
    ensures SessionValid(Next(a, m)) && (Next(a, m).ended <==> m.Eof?)
  {
    NextHandshaking(a, m);
    NextTold(a, m);
    NextQuestions(a, m);
    NextLater(a, m);
    var move := NextMoves(a, m);
    MoveAccounted(a, Next(a, m), move);
  }

  /** The handshake requests that have not been answered. */
  function HandshakesPending(pending: map<nat, Rpc>): set<nat>
  {
    set id | id in pending && IsHandshake(pending[id])
  }

  /** What a caller can rely on between messages. */
  lemma ValidMeans(a: Actor)
    requires SessionValid(a)
    ensures |a.queue| <= MAX_QUEUED_COMMANDS
    ensures |HandshakesPending(a.rpcs.pending)| == if a.session.Some? || a.failed then 0 else 1
    ensures a.failed ==> a.session.None? && a.queue == []
    ensures a.ended ==> Exits(a.output.hub) == 1
    ensures |a.notes.ran| + |a.notes.kills| + |a.notes.dropped| + |a.queue| == a.notes.arrived
  {
    var open := HandshakesPending(a.rpcs.pending);
    if a.session.Some? || a.failed {
      assert open == {};
    } else {
      var id :| id in a.rpcs.pending && IsHandshake(a.rpcs.pending[id]);
      assert open == {id};
    }
    CountAll(a.notes, a.queue);
  }

  lemma {:induction false} FirstSize(n: nat)
    ensures |First(n)| == n
  {
    if n > 0 {
      FirstSize(n - 1);
    }
  }

  lemma CountAll(n: Notes, queue: seq<Ticket>)
    requires Tallied(n, queue)
    ensures |n.ran| + |n.kills| + |n.dropped| + |queue| == n.arrived
  {
    FirstSize(n.arrived);
    var r, k, d, q := multiset(n.ran), multiset(n.kills), multiset(n.dropped), multiset(Numbers(queue));
    assert |r| == |n.ran| && |k| == |n.kills| && |d| == |n.dropped| && |q| == |queue|;
    assert |r + k + d + q| == |r| + |k| + |d| + |q|;
  }

  lemma KillMeans(a: Actor)
    ensures var n := HandleCommand(a, Kill);
      && n.session == a.session && n.failed == a.failed && n.queue == [] && n.notes.ran == a.notes.ran
  {
    KillSame(Killed(DropQueue(Arrived(a)), a.notes.arrived));
  }

  lemma RunMeans(a: Actor, command: Command)
    requires Handshaking(a) && !command.Kill? && a.session.Some?
    ensures var n := HandleCommand(a, command);
      && n.session == a.session && n.failed == a.failed && n.queue == a.queue
      && n.notes.ran == a.notes.ran + [a.notes.arrived]
  {
    ExecuteRan(Arrived(a), Ticket(a.notes.arrived, command));
  }

  lemma WaitMeans(a: Actor, command: Command)
    requires !command.Kill? && a.session.None?
    ensures var n := HandleCommand(a, command);
      && n.session == a.session && n.failed == a.failed && n.notes.ran == a.notes.ran
      && n.queue == (if !a.failed && |a.queue| < MAX_QUEUED_COMMANDS
                     then a.queue + [Ticket(a.notes.arrived, command)] else a.queue)
  {
    RejectSame(Arrived(a), a.notes.arrived);
  }

  lemma RejectSame(a: Actor, number: nat)
    ensures var n := Reject(a, number);
      && n.session == a.session && n.failed == a.failed && n.queue == a.queue && n.notes.ran == a.notes.ran
  {
  }

  /** What becomes of a command: it runs, waits, or is dropped. */
  predicate CommandDone(a: Actor, n: Actor, command: Command)
  {
    && n.session == a.session && n.failed == a.failed
    && (command.Kill? ==> n.queue == [])
    && n.notes.ran == (if !command.Kill? && a.session.Some? then a.notes.ran + [a.notes.arrived] else a.notes.ran)
    && (!command.Kill? ==>
          n.queue == (if a.session.None? && !a.failed && |a.queue| < MAX_QUEUED_COMMANDS
                      then a.queue + [Ticket(a.notes.arrived, command)] else a.queue))
  }

  lemma CommandMeans(a: Actor, command: Command)
    requires SessionValid(a) && !a.ended
    ensures CommandDone(a, Next(a, Hub(command)), command)
  {
    if command.Kill? {
      KillMeans(a);
    } else if a.session.Some? {
      RunMeans(a, command);
    } else {
      WaitMeans(a, command);
    }
  }

  /** What becomes of a watchdog: it fails a session that still waits for its
      request, and changes nothing else. */
  lemma TimeoutMeans(a: Actor, id: nat)
    requires SessionValid(a) && Enabled(a, Timeout(id))
    ensures var n := Next(a, Timeout(id));
      && (n.failed <==> a.failed || id in a.rpcs.pending)
      && n.session == a.session && n.notes.ran == a.notes.ran
      && (id !in a.rpcs.pending ==> n.queue == a.queue && n.output == a.output && n.rpcs.pending == a.rpcs.pending)
  {
    WatchdogFailsExactly(a, id);
  }

  /** A line from the agent never takes a session's id away, revives a failed one,
      or ends one. */
  lemma LineMeans(a: Actor, line: Line)
    requires SessionValid(a) && !a.ended
    ensures var n := Next(a, FromAgent(line));
      && !n.ended && (a.session.Some? ==> n.session == a.session) && (a.failed ==> n.failed && n.session.None?)
      && n.notes.arrived == a.notes.arrived && n.notes.kills == a.notes.kills && a.notes.ran <= n.notes.ran
  {
    NextLater(a, FromAgent(line));
    NextHandshaking(a, FromAgent(line));
    var m := LineMoves(a, line);
  }
}
