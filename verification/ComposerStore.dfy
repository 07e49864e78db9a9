/** The two ends of the composer protocol as the program writes them: the hub's
    table of receipts (crates/hub/src/composer.rs) and the writer loop of an
    attach (crates/machine/src/attach.rs). */
module ComposerStore {
  import opened ComposerPaste
  import opened Composer
  import opened ComposerOrder

  /** The table remembers which content each id was first used for. */
  predicate Binds(rows: map<Key, Row>, bound: map<Key, Message>)
  {
    rows.Keys == bound.Keys && forall key | key in rows :: rows[key].content == bound[key]
  }

  class Receipts {
    var rows: map<Key, Row>
    ghost var bound: map<Key, Message>    // the content each id was first used for

    ghost predicate Valid()
      reads this
    {
      Binds(rows, bound)
    }

    constructor ()
      ensures Valid() && bound == map[]
    {
      rows, bound := map[], map[];
    }

    /** INSERT OR IGNORE; if nothing was inserted, compare with what is there. An id
        is fresh once; from then on it is bound to its first content, and any other
        is refused. */
    method ReserveId(key: Key, content: Message) returns (r: Reservation)
      requires Valid()
      modifies this
      ensures Valid() && (rows, r) == Reserve(old(rows), key, content)
      ensures r.Fresh? <==> key !in old(bound)
      ensures r.Refusal? <==> key in old(bound) && old(bound)[key] != content
      ensures r.Existing? ==> rows[key].status == r.status
      ensures bound == if r.Fresh? then old(bound)[key := content] else old(bound)
      ensures key in bound && !r.Fresh? ==> rows == old(rows)
    {
      if key !in rows {
        rows, bound := rows[key := Row(content, Unknown)], bound[key := content];
        return Fresh;
      }
      var stored := rows[key];
      r := if stored.content == content then Existing(stored.status) else Refusal;
    }

    /** A receipt changes; what the ids are bound to does not. */
    method Update(key: Key, status: Status)
      requires Valid()
      modifies this
      ensures Valid() && rows == Store(old(rows), key, status)
      ensures bound == old(bound) && (key in bound ==> rows[key] == Row(bound[key], status))
    {
      if key in rows {
        rows := rows[key := rows[key].(status := status)];
      }
    }

    /** A submission from end to end. `answer` is what the machine would say;
        `dispatched` tells whether it was asked. */
    method SubmitMessage(key: Key, content: Message, canControl: bool, supports: bool, reserves: bool, stores: bool,
                         answer: Status)
      returns (status: Status, dispatched: bool)
      requires Valid()
      modifies this
      ensures Valid()
      ensures dispatched <==> ComposerPaste.Valid(content) && reserves && key !in old(rows) && canControl && supports
      ensures key in old(rows) ==> rows == old(rows)
      ensures dispatched ==> status == answer && rows == old(rows)[key := Row(content, if stores then answer else Unknown)]
      ensures !dispatched ==> !status.Delivered? || (key in old(rows) && old(rows)[key] == Row(content, Delivered))
      ensures forall other | other != key :: other in rows <==> other in old(rows)
      ensures forall other | other != key && other in rows :: rows[other] == old(rows)[other]
    {
      dispatched := false;
      var refusal := Validate(content);
      if refusal.Some? { return Failed, false; }
      if !reserves { return Unknown, false; }
      var reservation := ReserveId(key, content);
      match reservation {
        case Existing(stored) => return stored, false;
        case Refusal => return Unknown, false;
        case Fresh =>
      }
      if canControl && supports {
        status, dispatched := answer, true;
      } else {
        status := Failed;
      }
      if stores { Update(key, status); }
    }
  }

  class AttachWriter {
    var alive: bool
    var queue: seq<Command>
    var log: seq<Mark>
    ghost var given: seq<Command>    // what it was handed, in order

    function State(): Writer
      reads this
    {
      Writer(alive, queue, log)
    }

    /** What was written, and what waits, is what was given, in that order. */
    ghost predicate Valid()
      reads this
    {
      InTurn(State(), given)
    }

    constructor ()
      ensures Valid() && State() == Writer(true, [], []) && given == []
    {
      alive, queue, log, given := true, [], [], [];
      new;
      assert Upto(State(), given, 0);
    }

    method Push(c: Command)
      requires Valid() && alive
      modifies this
      ensures Valid() && State() == Queued(old(State()), c)
      ensures given == old(given) + [c] && log == old(log)
    {
      QueuedInTurn(State(), given, c);
      queue, given := queue + [c], given + [c];
    }

    /** The next command, and whether it was acknowledged. The paste is written
        and flushed before the submit key; any failure ends the loop. */
    method PerformNext(outcome: Write) returns (ack: bool)
      requires Valid() && alive && queue != []
      modifies this
      ensures Valid() && given == old(given) && State() == Performed(old(State()), outcome)
      ensures ack <==> old(queue[0]).Paste? && outcome.Succeeds?
      ensures ack ==> log == old(log) + [Pasted(old(queue[0]).request), Submit(old(queue[0]).request)]
      ensures outcome.Succeeds? ==> alive && queue == old(queue)[1..] && log == old(log) + MarksOf(old(queue[0]))
      ensures !outcome.Succeeds? ==> !alive && queue == [] && old(log) <= log
    {
      PerformedInTurn(State(), given, outcome);
      var command := queue[0];
      queue := queue[1..];
      match command {
        case Input(data) =>
          WriteInput(data, outcome);
          ack := false;
        case Paste(r) => ack := WriteMessage(r, outcome);
      }
    }

    method WriteInput(data: string, outcome: Write)
      requires alive
      modifies this`alive, this`queue, this`log
      ensures State() == if outcome.Succeeds? then Writer(true, old(queue), old(log) + [Typed(data)])
                         else Writer(false, [], old(log) + if outcome == Fails(true) then [Typed(data)] else [])
    {
      if outcome.Succeeds? || outcome == Fails(true) { log := log + [Typed(data)]; }
      if !outcome.Succeeds? { Quit(); }
    }

    method WriteMessage(r: RequestId, outcome: Write) returns (ack: bool)
      requires alive
      modifies this`alive, this`queue, this`log
      ensures State() == if outcome.Succeeds? then Writer(true, old(queue), old(log) + Written(r, outcome))
                         else Writer(false, [], old(log) + Written(r, outcome))
      ensures ack <==> outcome.Succeeds?
    {
      var pasted := WritePaste(r, outcome);
      if pasted && (outcome.Succeeds? || outcome == SubmitFails(true)) { log := log + [Submit(r)]; }
      ack := outcome.Succeeds?;
      if !ack { Quit(); }
    }

    method WritePaste(r: RequestId, outcome: Write) returns (ok: bool)
      modifies this`log
      ensures ok <==> !outcome.Fails?
      ensures log == old(log) + match outcome { case Fails(partly) => if partly then [Part(r)] else [] case _ => [Pasted(r)] }
    {
      match outcome {
        case Fails(partly) =>
          ok := false;
          log := log + if partly then [Part(r)] else [];
        case _ =>
          ok := true;
          log := log + [Pasted(r)];
      }
    }

    method Quit()
      modifies this`alive, this`queue
      ensures State() == Writer(false, [], old(log))
    {
      alive, queue := false, [];
    }
  }
}
