/** An attach's writer serves typed text and composer messages in the order in which
    they were handed to it. */
module ComposerOrder {
  import opened Basics
  import opened Composer

  /** What a command leaves in the pty when it is carried out. */
  function MarksOf(c: Command): seq<Mark>
  {
    match c
    case Input(data) => [Typed(data)]
    case Paste(r) => [Pasted(r), Submit(r)]
  }

  function AllMarks(commands: seq<Command>): seq<Mark>
  {
    if commands == [] then []
    else AllMarks(commands[..|commands| - 1]) + MarksOf(commands[|commands| - 1])
  }

  lemma MarksPush(commands: seq<Command>, c: Command)
    ensures AllMarks(commands + [c]) == AllMarks(commands) + MarksOf(c)
  {
    assert (commands + [c])[..|commands|] == commands;
  }

  /** What a command that failed may have left. */
  predicate Leftover(c: Command, rest: seq<Mark>)
  {
    match c
    case Input(data) => rest == [] || rest == [Typed(data)]
    case Paste(r) => rest == [] || rest == [Part(r)] || rest == [Pasted(r)] || rest == [Pasted(r), Submit(r)]
  }

  /** The first `n` commands were carried out. A writer that lives has the others still
      in its queue, one that died may have begun the next. */
  predicate Upto(writer: Writer, given: seq<Command>, n: nat)
    requires n <= |given|
  {
    var done := AllMarks(given[..n]);
    if writer.alive then writer.log == done && writer.queue == given[n..]
    else
      && writer.queue == [] && done <= writer.log
      && (writer.log == done || (n < |given| && Leftover(given[n], writer.log[|done|..])))
  }

  ghost predicate InTurn(writer: Writer, given: seq<Command>)
  {
    exists n: nat :: n <= |given| && Upto(writer, given, n)
  }

  lemma QueuedInTurn(writer: Writer, given: seq<Command>, c: Command)
    requires writer.alive && InTurn(writer, given)
    ensures InTurn(Queued(writer, c), given + [c])
  {
    var n: nat :| n <= |given| && Upto(writer, given, n);
    assert (given + [c])[..n] == given[..n] && (given + [c])[n..] == given[n..] + [c];
    assert Upto(Queued(writer, c), given + [c], n);
  }

  lemma PerformedInTurn(writer: Writer, given: seq<Command>, outcome: Write)
    requires writer.alive && writer.queue != [] && InTurn(writer, given)
    ensures InTurn(Performed(writer, outcome), given)
  {
    var n: nat :| n <= |given| && Upto(writer, given, n);
    var c := writer.queue[0];
    assert given[n] == c && given[..n + 1] == given[..n] + [c] && given[n + 1..] == writer.queue[1..];
    MarksPush(given[..n], c);
    if outcome.Succeeds? {
      assert Upto(Performed(writer, outcome), given, n + 1);
    } else {
      FailedLeaves(writer, outcome);
      assert Upto(Performed(writer, outcome), given, n);
    }
  }

  lemma FailedLeaves(writer: Writer, outcome: Write)
    requires writer.queue != [] && !outcome.Succeeds?
    ensures var n := Performed(writer, outcome);
      && !n.alive && n.queue == [] && writer.log <= n.log
      && Leftover(writer.queue[0], n.log[|writer.log|..])
  {
  }

  lemma StoppedInTurn(writer: Writer, given: seq<Command>)
    requires InTurn(writer, given)
    ensures InTurn(writer.(alive := false, queue := []), given)
  {
    var n: nat :| n <= |given| && Upto(writer, given, n);
    assert Upto(writer.(alive := false, queue := []), given, n);
  }

  // ----- every run -----

  /** The commands a step hands to the writer of an attach, read from the step: typed
      text, and a message that was prepared and found its attach. */
  function Handed(w: World, s: Step, a: Name): seq<Command>
    requires Enabled(w, s)
  {
    match s
    case Type(b, data) => if b == a then [Input(data)] else []
    case Prepare(r, prepared, found) =>
      if prepared && found && w.requests[r].attach == a && a in w.writers && w.writers[a].alive then [Paste(r)] else []
    case _ => []
  }

  function HandedAll(w: World, steps: seq<Step>, a: Name): seq<Command>
    requires Possible(w, steps)
    decreases |steps|
  {
    if steps == [] then [] else Handed(w, steps[0], a) + HandedAll(Next(w, steps[0]), steps[1..], a)
  }

  ghost predicate Served(w: World, a: Name, given: seq<Command>)
  {
    if a in w.writers then InTurn(w.writers[a], given) else given == []
  }

  lemma PrepareServed(w: World, s: Step, a: Name, given: seq<Command>)
    requires Enabled(w, s) && s.Prepare? && Served(w, a, given)
    ensures Served(Next(w, s), a, given + Handed(w, s, a))
  {
    assert given + [] == given;
    if Handed(w, s, a) != [] {
      QueuedInTurn(w.writers[a], given, Paste(s.request));
    }
  }

  lemma PerformServed(w: World, s: Step, a: Name, given: seq<Command>)
    requires Enabled(w, s) && s.Perform? && Served(w, a, given)
    ensures Served(Next(w, s), a, given)
  {
    if s.attach == a {
      PerformedInTurn(w.writers[a], given, s.outcome);
    }
  }

  lemma WriterServed(w: World, s: Step, a: Name, given: seq<Command>)
    requires Enabled(w, s) && (s.Open? || s.Type? || s.Stop?) && Served(w, a, given)
    ensures Served(Next(w, s), a, given + Handed(w, s, a))
  {
    assert given + [] == given;
    match s
    case Open(b) =>
      if b == a { assert Upto(Next(w, s).writers[a], [], 0); }
    case Type(b, data) =>
      if b == a { QueuedInTurn(w.writers[a], given, Input(data)); }
    case Stop(b) =>
      if b == a { StoppedInTurn(w.writers[a], given); }
  }

  lemma NextServed(w: World, s: Step, a: Name, given: seq<Command>)
    requires Enabled(w, s) && Served(w, a, given)
    ensures Served(Next(w, s), a, given + Handed(w, s, a))
  {
    assert given + [] == given;
    match s
    case Prepare(_, _, _) => PrepareServed(w, s, a, given);
    case Perform(_, _) => PerformServed(w, s, a, given);
    case Open(_) => WriterServed(w, s, a, given);
    case Type(_, _) => WriterServed(w, s, a, given);
    case Stop(_) => WriterServed(w, s, a, given);
    case Decide(_, _, _) => DecideServed(w, s, a, given);
    case Answer(_, _) =>
    case _ => HubServed(w, s, a, given);
  }

  lemma DecideServed(w: World, s: Step, a: Name, given: seq<Command>)
    requires Enabled(w, s) && s.Decide? && Served(w, a, given)
    ensures Served(Next(w, s), a, given)
  {
    assert Next(w, s).writers == w.writers;
  }

  lemma HubServed(w: World, s: Step, a: Name, given: seq<Command>)
    requires Enabled(w, s) && (s.Send? || s.Hear? || s.GiveUp? || s.Finish? || s.HubDies?) && Served(w, a, given)
    ensures Served(Next(w, s), a, given)
  {
    assert Next(w, s).writers == w.writers;
  }

  lemma {:induction false} RunServed(w: World, steps: seq<Step>, a: Name, given: seq<Command>)
    requires Possible(w, steps) && Served(w, a, given)
    ensures Served(Run(w, steps), a, given + HandedAll(w, steps, a))
    decreases |steps|
  {
    if steps == [] {
      assert given + [] == given;
    } else {
      NextServed(w, steps[0], a, given);
      RunServed(Next(w, steps[0]), steps[1..], a, given + Handed(w, steps[0], a));
      Assoc(given, Handed(w, steps[0], a), HandedAll(Next(w, steps[0]), steps[1..], a));
    }
  }

  /** Main result: in every run, with typed text and composer messages in any mix, what
      an attach's pty has been given is what was handed to its writer, in that order and
      each once: while the writer lives, the rest waits in its queue; one that died
      stopped at one command, of which it may have written a part. */
  lemma WriterServesInOrder(start: World, steps: seq<Step>, a: Name)
    requires start == Start() && Possible(start, steps)
    ensures var w := Run(start, steps);
      if a in w.writers then InTurn(w.writers[a], HandedAll(start, steps, a)) else HandedAll(start, steps, a) == []
  {
    RunServed(start, steps, a, []);
    assert [] + HandedAll(start, steps, a) == HandedAll(start, steps, a);
  }
}
