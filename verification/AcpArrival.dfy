/** When the commands of an agent session run in the order in which they came. */
module AcpArrival {
  import opened Basics
  import opened Acp
  import opened AcpRuns
  import opened AcpOrder

  /** A command that comes while others wait, although the session is ready: the
      create-time model has not been answered. It runs at once. */
  predicate Overtakes(a: Actor, m: Message)
  {
    m.Hub? && !m.command.Kill? && a.session.Some? && a.queue != []
  }

  lemma OutOfPlace(ran: seq<nat>, x: nat, waiting: seq<nat>)
    requires waiting != [] && waiting[0] < x
    ensures !Increasing(ran + [x] + waiting)
  {
    var s := ran + [x] + waiting;
    assert s[|ran|] == x && s[|ran| + 1] == waiting[0];
  }

  /** Main result for one message: as long as commands have run, and wait, in the
      order in which they came, they go on to, except exactly when one overtakes. */
  lemma OrderStaysExactly(a: Actor, msg: Message)
    requires Handshaking(a) && Ordered(a.notes, a.queue) && Enabled(a, msg)
    ensures Ordered(Next(a, msg).notes, Next(a, msg).queue) <==> !Overtakes(a, msg)
  {
    var m := NextMoves(a, msg);
    var n := Next(a, msg);
    if Overtakes(a, msg) {
      var waiting := Numbers(a.queue);
      assert waiting[0] in waiting;
      OutOfPlace(a.notes.ran, a.notes.arrived, waiting);
      assert n.notes.ran + Numbers(n.queue) == a.notes.ran + [a.notes.arrived] + waiting;
    } else {
      MoveOrdered(a.notes, a.queue, m);
    }
  }

  /** In every state of the run commands have run, and wait, in the order in which
      they came. */
  predicate OrderedThroughout(a: Actor, messages: seq<Message>)
    decreases |messages|
  {
    && Ordered(a.notes, a.queue)
    && (messages == [] || OrderedThroughout(Next(a, messages[0]), messages[1..]))
  }

  /** Some message of the run overtakes. */
  predicate OvertakesEver(a: Actor, messages: seq<Message>)
    decreases |messages|
  {
    messages != [] && (Overtakes(a, messages[0]) || OvertakesEver(Next(a, messages[0]), messages[1..]))
  }

  lemma {:induction false} RunOrderExactly(a: Actor, messages: seq<Message>)
    requires Handshaking(a) && Ordered(a.notes, a.queue) && Possible(a, messages)
    ensures OrderedThroughout(a, messages) <==> !OvertakesEver(a, messages)
    decreases |messages|
  {
    if messages != [] {
      var n := Next(a, messages[0]);
      OrderStaysExactly(a, messages[0]);
      NextHandshaking(a, messages[0]);
      if !Overtakes(a, messages[0]) {
        RunOrderExactly(n, messages[1..]);
      } else {
        assert !Ordered(n.notes, n.queue);
      }
    }
  }

  /** Main result: over a whole session, with or without a requested model, commands
      run in the order in which they came exactly if none comes to a ready session
      while others still wait. */
  lemma ArrivalOrderExactly(start: Actor, resume: Option<string>, requested: Option<string>, autoRun: bool,
                            messages: seq<Message>)
    requires start == Begin(resume, requested, autoRun) && Possible(start, messages)
    ensures OrderedThroughout(start, messages) <==> !OvertakesEver(start, messages)
  {
    BeginHandshaking(resume, requested, autoRun);
    assert start.notes.ran + Numbers(start.queue) == [];
    RunOrderExactly(start, messages);
  }
}
