/** Properties of whole runs of the outbound multiplexer: per-key order without
    loss, at most one partly sent message, and a starvation bound that holds
    against every pattern of arrivals. */
module OutboundRuns {
  import opened Basics
  import opened Outbound

  datatype Event =
    | AcquirePermit(key: string, bytes: seq<byte>)
    | GetSlot(index: nat)
    | SendNow(key: string, bytes: seq<byte>)
    | Heartbeat(key: string, bytes: seq<byte>)
    | Close
    | Pass
    | WakeUp

  /** The queue together with what an observer has seen so far. */
  datatype World = World(
    mux: Mux,
    log: seq<Sent>,          // every record, in the order it was sent
    accepted: seq<Queued>,   // what entered the data channel, in order
    lost: seq<Queued>,       // what the data channel held when the writer returned
    tickets: nat)

  function Initial(): World { World(Start(), [], [], [], 0) }

  function Next(w: World, e: Event): World
    requires Valid(w.mux)
  {
    match e
    case AcquirePermit(key, bytes) =>
      w.(mux := Acquire(w.mux, w.tickets, key, bytes), tickets := w.tickets + 1)
    case GetSlot(index) => Record(w, Deliver(w.mux, index))
    case SendNow(key, bytes) =>
      Record(w, TrySend(w.mux, w.tickets, key, bytes)).(tickets := w.tickets + 1)
    case Heartbeat(key, bytes) =>
      w.(mux := TrySendControl(w.mux, w.tickets, key, bytes), tickets := w.tickets + 1)
    case Close => w.(mux := CloseSenders(w.mux))
    case Pass =>
      var (after, sent) := Iterate(w.mux);
      w.(mux := after, log := if sent.Some? then w.log + [sent.value] else w.log)
    case WakeUp =>
      var after := Wake(w.mux);
      w.(mux := after,
         lost := if after.phase.Returned? then w.lost + w.mux.data else w.lost)
  }

  /** Note the message that `after` has and `w.mux` has not in its data channel. */
  function Record(w: World, after: Mux): World
  {
    w.(mux := after,
       accepted := if |after.data| > |w.mux.data| then w.accepted + [after.data[|w.mux.data|]] else w.accepted)
  }

  lemma NextValid(w: World, e: Event)
    requires Valid(w.mux)
    ensures Valid(Next(w, e).mux)
  {
    match e
    case AcquirePermit(key, bytes) => AcquireValid(w.mux, w.tickets, key, bytes);
    case GetSlot(index) => DeliverValid(w.mux, index);
    case SendNow(key, bytes) => TrySendValid(w.mux, w.tickets, key, bytes);
    case Heartbeat(key, bytes) => TrySendControlValid(w.mux, w.tickets, key, bytes);
    case Close =>
    case Pass => IterateValid(w.mux);
    case WakeUp => WakeValid(w.mux);
  }

  /** A run: any events in any order. */
  function Run(w: World, events: seq<Event>): (r: World)
    requires Valid(w.mux)
    ensures Valid(r.mux)
    decreases |events|
  {
    if events == [] then w
    else
      NextValid(w, events[0]);
      Run(Next(w, events[0]), events[1..])
  }

  // ----- what the writer holds, as one line -----

  /** The active bulk message, the window and the data channel, in sending order. */
  function Line(s: Mux): seq<Queued>
  {
    AsSeq(s.bulk) + s.waiting + s.data
  }

  predicate SameMessage(a: Queued, b: Queued)
  {
    a.ticket == b.ticket && a.key == b.key && a.permit == b.permit && a.message.data == b.message.data
  }

  /** What one pass that chose `c` does to the line: a heartbeat leaves it alone,
      an overtaking message leaves from behind messages of other keys only, and
      otherwise the head advances by one fragment. */
  predicate Advances(c: Choice, before: Mux, after: Mux, sent: Sent)
  {
    var line, q := Line(before), sent.queued;
    match c
    case Urgent =>
      Line(after) == line && after.streak == before.streak && !q.permit && q.message.Finished()
    case Overtake(i) =>
      var j := |AsSeq(before.bulk)| + i;
      j < |line| && Overtook(line, Line(after), j, q) && after.streak == before.streak + 1
      && before.streak < STREAK_LIMIT && after.bulk == before.bulk
    case Nothing => false
    case _ =>
      line != [] && line[0].permit && after.streak == 0 && SentHead(line[0], q)
      && Line(after) == Rest(q) + line[1..]
  }

  /** What is left of the head of the line after its fragment `q` was sent. */
  function Rest(q: Queued): seq<Queued>
  {
    if q.message.Finished() then [] else [q]
  }

  predicate Overtook(line: seq<Queued>, after: seq<Queued>, j: nat, q: Queued)
    requires j < |line|
  {
    && after == line[..j] + line[j + 1..]
    && SameMessage(q, line[j]) && q.message.Finished()
    && !KeyIn(q.key, line[..j])
  }

  predicate SentHead(head: Queued, q: Queued)
  {
    && SameMessage(q, head) && head.message.Valid() && q.message.Valid()
    && q.message.Fragments() == head.message.Fragments() - 1
    && (q.message.Finished() <==> q.message.Fragments() == 0)
  }

  lemma PullLine(s: Mux)
    ensures Line(Pull(s)) == Line(s)
  {
    PullSame(s);
    Assoc(AsSeq(s.bulk), s.waiting, s.data);
    Assoc(AsSeq(s.bulk), Pull(s).waiting, Pull(s).data);
  }

  lemma OvertakeLine(s: Mux, i: nat)
    requires Shape(s) && i < |s.waiting| && MayOvertake(s.waiting, s.bulk, i)
    ensures var j := |AsSeq(s.bulk)| + i;
            j < |Line(s)| && Line(s)[j] == s.waiting[i] && !KeyIn(s.waiting[i].key, Line(s)[..j])
            && Line(s.(waiting := s.waiting[..i] + s.waiting[i + 1..])) == Line(s)[..j] + Line(s)[j + 1..]
  {
    RemoveInside(AsSeq(s.bulk), s.waiting, s.data, i);
    forall k | 0 <= k < |AsSeq(s.bulk)| + i ensures Line(s)[k].key != s.waiting[i].key {
      if k >= |AsSeq(s.bulk)| {
        assert Line(s)[k] == s.waiting[..i][k - |AsSeq(s.bulk)|];
      }
    }
  }

  lemma RemoveInside<T>(a: seq<T>, b: seq<T>, c: seq<T>, i: nat)
    requires i < |b|
    ensures (a + b + c)[|a| + i] == b[i] && (a + b + c)[..|a| + i] == a + b[..i]
    ensures a + (b[..i] + b[i + 1..]) + c == (a + b + c)[..|a| + i] + (a + b + c)[|a| + i + 1..]
  {
    assert (a + b + c)[|a| + i + 1..] == b[i + 1..] + c;
  }

  function Chosen(s: Mux): Choice { Choose(Pull(s)) }

  lemma UrgentAdvances(p: Mux)
    requires Shape(p) && Choose(p).Urgent?
    ensures var (next, rest) := Take(p, Choose(p));
            next.message.Valid() && !next.message.Finished()
            && Advances(Choose(p), p, Emit(rest, next).0, Emit(rest, next).1)
  {
    TakenIsReady(p);
    OvertakerFinishes(p);
    assert p.control[0] in p.control;
  }

  lemma OvertakeAdvances(p: Mux)
    requires Shape(p) && Choose(p).Overtake?
    ensures var (next, rest) := Take(p, Choose(p));
            next.message.Valid() && !next.message.Finished()
            && Advances(Choose(p), p, Emit(rest, next).0, Emit(rest, next).1)
  {
    TakenIsReady(p);
    OvertakerFinishes(p);
    OvertakeLine(p, Choose(p).index);
    var (next, rest) := Take(p, Choose(p));
    EmitLast(rest, next);
    assert Line(rest) == Line(p.(waiting := rest.waiting));
  }

  /** Sending a message's last fragment leaves the line as it is. */
  lemma EmitLast(s: Mux, next: Queued)
    requires next.message.Valid() && !next.message.Finished() && EncodeNext(s.nextId, next.message).1.Finished()
    ensures var (after, sent) := Emit(s, next);
      && Line(after) == Line(s) && after.streak == s.streak && after.bulk == s.bulk
      && SameMessage(sent.queued, next) && sent.queued.message.Finished()
  {
  }

  lemma HeadAdvances(p: Mux)
    requires Shape(p) && (Choose(p).Resume? || Choose(p).Front?)
    ensures var (next, rest) := Take(p, Choose(p));
            next.message.Valid() && !next.message.Finished()
            && Advances(Choose(p), p, Emit(rest, next).0, Emit(rest, next).1)
  {
    TakenIsReady(p);
    var (next, rest) := Take(p, Choose(p));
    FragmentBudget(rest.nextId, next.message);
    assert SentHead(next, Emit(rest, next).1.queued);
    if Choose(p).Front? && !p.waiting[0].permit {
      HeartbeatMayOvertake(p);
    }
    HeadLine(p);
  }

  lemma HeadLine(p: Mux)
    requires Shape(p) && (Choose(p).Resume? || Choose(p).Front?)
    ensures var (next, rest) := Take(p, Choose(p));
            Line(p) == [next] + Line(rest) && Line(p)[1..] == Line(rest) && rest.bulk.None?
            && forall q :: Line(rest.(bulk := Some(q))) == [q] + Line(rest)
  {
    var (next, rest) := Take(p, Choose(p));
    assert Line(rest) == rest.waiting + rest.data;
    forall q ensures Line(rest.(bulk := Some(q))) == [q] + Line(rest) {
      Assoc([q], rest.waiting, rest.data);
    }
    if Choose(p).Front? {
      assert p.waiting == [next] + rest.waiting;
      Assoc([next], rest.waiting, rest.data);
    } else {
      Assoc([next], rest.waiting, rest.data);
    }
    assert ([next] + Line(rest))[1..] == Line(rest);
  }

  /** Pulling first makes no difference to the line. */
  lemma AdvancesSame(c: Choice, s: Mux, p: Mux, after: Mux, sent: Sent)
    requires Line(p) == Line(s) && p.bulk == s.bulk && p.streak == s.streak && Advances(c, p, after, sent)
    ensures Advances(c, s, after, sent)
  {
  }

  lemma ChoiceAdvances(p: Mux)
    requires Shape(p) && !Choose(p).Nothing?
    ensures var (next, rest) := Take(p, Choose(p));
            next.message.Valid() && !next.message.Finished()
            && Advances(Choose(p), p, Emit(rest, next).0, Emit(rest, next).1)
  {
    match Choose(p)
    case Urgent => UrgentAdvances(p);
    case Overtake(i) => OvertakeAdvances(p);
    case _ => HeadAdvances(p);
  }

  lemma PassAdvances(s: Mux)
    requires Valid(s) && Iterate(s).1.Some?
    ensures Advances(Chosen(s), s, Iterate(s).0, Iterate(s).1.value)
  {
    var p := Pull(s);
    PullShape(s);
    PullLine(s);
    ChoiceAdvances(p);
    var (next, rest) := Take(p, Choose(p));
    AdvancesSame(Choose(p), s, p, Emit(rest, next).0, Emit(rest, next).1);
  }

  // ----- order and no loss, per key -----

  /** The data messages of one key, as the receiver should see them. */
  function KeyStream(queue: seq<Queued>, key: string): seq<seq<byte>>
  {
    if queue == [] then []
    else (if queue[0].permit && queue[0].key == key then [queue[0].message.data] else [])
         + KeyStream(queue[1..], key)
  }

  /** Messages whose last fragment has been sent, in the order of that fragment. */
  function Finished(log: seq<Sent>): seq<Queued>
  {
    if log == [] then []
    else
      Finished(log[..|log| - 1]) + Done(log[|log| - 1].queued)
  }

  function Done(q: Queued): seq<Queued>
  {
    if q.message.Finished() then [q] else []
  }

  lemma {:induction false} KeyStreamAppend(a: seq<Queued>, b: seq<Queued>, key: string)
    ensures KeyStream(a + b, key) == KeyStream(a, key) + KeyStream(b, key)
  {
    if a == [] {
      assert a + b == b;
    } else {
      assert (a + b)[1..] == a[1..] + b;
      KeyStreamAppend(a[1..], b, key);
    }
  }

  lemma {:induction false} KeyStreamWithout(queue: seq<Queued>, key: string)
    requires !KeyIn(key, queue)
    ensures KeyStream(queue, key) == []
  {
    if queue != [] {
      assert queue[0].key != key;
      forall i | 0 <= i < |queue| - 1 ensures queue[1..][i].key != key {
        assert queue[i + 1].key != key;
      }
      KeyStreamWithout(queue[1..], key);
    }
  }

  lemma FinishedPush(log: seq<Sent>, sent: Sent)
    ensures Finished(log + [sent]) == Finished(log) + Done(sent.queued)
  {
    assert (log + [sent])[..|log|] == log;
  }

  /** In every state: finished messages of a key, then what is still in line,
      then what was dropped at the end, are the accepted messages in order. */
  ghost predicate Ordered(w: World, key: string)
  {
    KeyStream(Finished(w.log), key) + KeyStream(Line(w.mux), key) + KeyStream(w.lost, key)
      == KeyStream(w.accepted, key)
    && (w.lost != [] ==> w.mux.phase.Returned?)
  }

  /** A message is in the key's stream while it is in line, and in it when done. */
  lemma OneKeyStream(q: Queued, key: string)
    ensures KeyStream([q], key) == if q.permit && q.key == key then [q.message.data] else []
  {
    assert [q][1..] == [];
  }

  lemma AdvanceOrdered(done: seq<Queued>, line: seq<Queued>, q: Queued, key: string)
    requires line != [] && SameMessage(q, line[0])
    ensures KeyStream(done + Done(q), key) + KeyStream(Rest(q) + line[1..], key)
            == KeyStream(done, key) + KeyStream(line, key)
  {
    OneKeyStream(q, key);
    KeyStreamAppend(done, Done(q), key);
    KeyStreamAppend(Rest(q), line[1..], key);
    Regroup(KeyStream(done, key), KeyStream(Done(q), key), KeyStream(Rest(q), key), KeyStream(line[1..], key));
    assert KeyStream(line, key) == KeyStream([q], key) + KeyStream(line[1..], key);
    assert KeyStream([q], key) == KeyStream(Done(q), key) + KeyStream(Rest(q), key);
  }

  lemma KeyStreamSplit(line: seq<Queued>, j: nat, key: string)
    requires j < |line|
    ensures KeyStream(line, key)
            == KeyStream(line[..j], key) + (KeyStream([line[j]], key) + KeyStream(line[j + 1..], key))
  {
    assert line == line[..j] + ([line[j]] + line[j + 1..]);
    KeyStreamAppend(line[..j], [line[j]] + line[j + 1..], key);
    KeyStreamAppend([line[j]], line[j + 1..], key);
  }

  lemma OvertakeOrdered(done: seq<Queued>, line: seq<Queued>, j: nat, q: Queued, key: string)
    requires j < |line| && SameMessage(q, line[j]) && !KeyIn(q.key, line[..j])
    ensures KeyStream(done + [q], key) + KeyStream(line[..j] + line[j + 1..], key)
            == KeyStream(done, key) + KeyStream(line, key)
  {
    OneKeyStream(q, key);
    OneKeyStream(line[j], key);
    KeyStreamAppend(done, [q], key);
    KeyStreamAppend(line[..j], line[j + 1..], key);
    KeyStreamSplit(line, j, key);
    if key == q.key {
      KeyStreamWithout(line[..j], key);
    }
    MoveForward(KeyStream(done, key), KeyStream([q], key), KeyStream(line[..j], key), KeyStream(line[j + 1..], key));
  }

  lemma HeartbeatOrdered(done: seq<Queued>, q: Queued, key: string)
    requires !q.permit
    ensures KeyStream(done + [q], key) == KeyStream(done, key)
  {
    KeyStreamAppend(done, [q], key);
    OneKeyStream(q, key);
  }

  lemma AdvancesKeepsStream(c: Choice, before: Mux, after: Mux, sent: Sent, log: seq<Sent>, key: string)
    requires Advances(c, before, after, sent)
    ensures KeyStream(Finished(log + [sent]), key) + KeyStream(Line(after), key)
            == KeyStream(Finished(log), key) + KeyStream(Line(before), key)
  {
    var q := sent.queued;
    FinishedPush(log, sent);
    match c
    case Urgent => HeartbeatOrdered(Finished(log), q, key);
    case Overtake(i) => OvertakeOrdered(Finished(log), Line(before), |AsSeq(before.bulk)| + i, q, key);
    case _ => AdvanceOrdered(Finished(log), Line(before), q, key);
  }

  lemma PassOrdered(w: World, key: string)
    requires Valid(w.mux) && Ordered(w, key)
    ensures Ordered(Next(w, Pass), key)
  {
    var (after, o) := Iterate(w.mux);
    if o.Some? {
      PassAdvances(w.mux);
      AdvancesKeepsStream(Chosen(w.mux), w.mux, after, o.value, w.log, key);
    } else {
      PullLine(w.mux);
    }
    assert Next(w, Pass).lost == w.lost;
  }

  lemma EnqueueOrdered(w: World, after: Mux, q: Queued, key: string)
    requires Ordered(w, key) && !w.mux.phase.Returned?
    requires after.bulk == w.mux.bulk && after.waiting == w.mux.waiting
    requires after.data == w.mux.data + [q]
    ensures Ordered(Record(w, after), key)
  {
    assert Line(after) == Line(w.mux) + [q];
    KeyStreamAppend(Line(w.mux), [q], key);
    KeyStreamAppend(w.accepted, [q], key);
  }

  lemma WakeOrdered(w: World, key: string)
    requires Valid(w.mux) && Ordered(w, key)
    ensures Ordered(Next(w, WakeUp), key)
  {
    var s, t := w.mux, Wake(w.mux);
    if s.phase.Running? {
      assert t == s;
    } else if s.phase.Returned? {
      assert w.lost + s.data == w.lost;
    } else {
      ParkedWakeOrdered(w, key);
    }
  }

  lemma BeatWakeOrdered(w: World, key: string)
    requires Valid(w.mux) && Ordered(w, key) && w.mux.phase.Parked? && w.mux.control != []
    ensures Ordered(Next(w, WakeUp), key)
  {
    var n := Next(w, WakeUp);
    BeatWakes(w);
    assert w.mux.control[0] in w.mux.control;
    HeartbeatFirst(w.mux.control[0], w.mux.data, key);
    assert KeyStream(Line(n.mux), key) == KeyStream(Line(w.mux), key);
    SameStream(w, n, key);
  }

  lemma BeatWakes(w: World)
    requires Valid(w.mux) && w.mux.phase.Parked? && w.mux.control != []
    ensures var n := Next(w, WakeUp);
      && n.log == w.log && n.accepted == w.accepted && n.lost == w.lost
      && Line(w.mux) == w.mux.data && Line(n.mux) == [w.mux.control[0]] + w.mux.data
  {
    ParkedLine(w.mux);
  }

  lemma CloseWakeOrdered(w: World, key: string)
    requires Valid(w.mux) && Ordered(w, key) && w.mux.phase.Parked? && w.mux.control == [] && !w.mux.open
    ensures Ordered(Next(w, WakeUp), key)
  {
    ParkedLine(w.mux);
    var n := Next(w, WakeUp);
    assert n.lost == w.mux.data by { assert [] + w.mux.data == w.mux.data; }
    assert KeyStream(Line(n.mux), key) == [];
    SameStream(w, n, key);
  }

  lemma ParkedWakeOrdered(w: World, key: string)
    requires Valid(w.mux) && Ordered(w, key) && w.mux.phase.Parked?
    ensures Ordered(Next(w, WakeUp), key)
  {
    if w.mux.control != [] {
      BeatWakeOrdered(w, key);
    } else if !w.mux.open {
      CloseWakeOrdered(w, key);
    } else {
      ParkedLine(w.mux);
      SameStream(w, Next(w, WakeUp), key);
    }
  }

  /** Nothing but the split between line and loss has moved. */
  lemma SameStream(w: World, n: World, key: string)
    requires Ordered(w, key) && n.log == w.log && n.accepted == w.accepted
    requires KeyStream(Line(n.mux), key) + KeyStream(n.lost, key) == KeyStream(Line(w.mux), key) + KeyStream(w.lost, key)
    requires n.lost != [] ==> n.mux.phase.Returned?
    ensures Ordered(n, key)
  {
    Assoc(KeyStream(Finished(w.log), key), KeyStream(Line(w.mux), key), KeyStream(w.lost, key));
    Assoc(KeyStream(Finished(n.log), key), KeyStream(Line(n.mux), key), KeyStream(n.lost, key));
  }

  /** The line before and after a parked writer wakes. */
  lemma ParkedLine(s: Mux)
    requires Shape(s) && s.phase.Parked?
    ensures Line(s) == s.data
    ensures Line(Wake(s)) == if s.control != [] then [s.control[0]] + s.data else if !s.open then [] else s.data
  {
  }

  lemma HeartbeatFirst(beat: Queued, data: seq<Queued>, key: string)
    requires !beat.permit
    ensures KeyStream([beat] + data, key) == KeyStream(data, key)
  {
    KeyStreamAppend([beat], data, key);
    OneKeyStream(beat, key);
  }

  lemma NextOrdered(w: World, e: Event, key: string)
    requires Valid(w.mux) && Ordered(w, key)
    ensures Ordered(Next(w, e), key)
  {
    match e
    case AcquirePermit(_, _) =>
    case GetSlot(index) => SlotOrdered(w, index, key);
    case SendNow(k, bytes) => SendOrdered(w, k, bytes, key);
    case Heartbeat(_, _) =>
    case Close =>
    case Pass => PassOrdered(w, key);
    case WakeUp => WakeOrdered(w, key);
  }

  lemma SlotOrdered(w: World, index: nat, key: string)
    requires Valid(w.mux) && Ordered(w, key)
    ensures Ordered(Next(w, GetSlot(index)), key)
  {
    var after := Deliver(w.mux, index);
    if after != w.mux { EnqueueOrdered(w, after, w.mux.sending[index], key); }
  }

  lemma SendOrdered(w: World, k: string, bytes: seq<byte>, key: string)
    requires Valid(w.mux) && Ordered(w, key)
    ensures Ordered(Next(w, SendNow(k, bytes)), key)
  {
    var after := TrySend(w.mux, w.tickets, k, bytes);
    if after != w.mux { EnqueueOrdered(w, after, after.data[|w.mux.data|], key); }
  }

  /** Main result: in every run and for every key, messages are finished in the
      order in which they were accepted, and nothing taken in is forgotten. */
  lemma {:induction false} RunOrdered(w: World, events: seq<Event>, key: string)
    requires Valid(w.mux) && Ordered(w, key)
    ensures Ordered(Run(w, events), key)
    decreases |events|
  {
    if events != [] {
      NextValid(w, events[0]);
      NextOrdered(w, events[0], key);
      RunOrdered(Next(w, events[0]), events[1..], key);
    }
  }

  /** When the writer has returned, everything was sent except, exactly, what
      the data channel held at that moment. */
  lemma ReturnedMeansSent(events: seq<Event>, key: string)
    requires Run(Initial(), events).mux.phase.Returned?
    ensures var w := Run(Initial(), events);
            KeyStream(Finished(w.log), key) + KeyStream(w.lost, key) == KeyStream(w.accepted, key)
    ensures var w := Run(Initial(), events);
            KeyStream(Finished(w.log), key) == KeyStream(w.accepted, key) <==> KeyStream(w.lost, key) == []
  {
    RunOrdered(Initial(), events, key);
    var w := Run(Initial(), events);
    assert Line(w.mux) == [];
    assert KeyStream(Finished(w.log), key) + [] == KeyStream(Finished(w.log), key);
    if KeyStream(Finished(w.log), key) == KeyStream(w.accepted, key) {
      assert |KeyStream(w.lost, key)| == 0;
    }
  }

  /** The world with the one message `held` in the data channel of a parked writer. */
  function ParkedWith(held: seq<Queued>, open: bool, tickets: nat): World
    requires Charged(held) <= QUEUED_BYTES
  {
    World(Mux(QUEUED_BYTES - Charged(held), [], held, [], [], None, 0, Parked, open, 1), [], held, [], tickets)
  }

  lemma ParkedSend(key: string, bytes: seq<byte>)
    requires 0 < |bytes| <= MAX_MESSAGE
    ensures var q := Queued(0, key, true, Outgoing(bytes, 0, None));
            Charged([q]) == |bytes| && Valid(ParkedWith([], true, 0).mux)
            && Next(ParkedWith([], true, 0), SendNow(key, bytes)) == ParkedWith([q], true, 1)
  {
    var q := Queued(0, key, true, Outgoing(bytes, 0, None));
    ChargedOne(q);
    ParkedEmptyValid();
  }

  lemma ChargedOne(q: Queued)
    ensures Charged([q]) == Charge(q)
  {
    assert [q][1..] == [];
  }

  lemma ParkedEmptyValid()
    ensures Valid(ParkedWith([], true, 0).mux)
  {
    ParkedEmptyIs();
    assert Outstanding(ParkedWith([], true, 0).mux) == [];
  }

  lemma ParkedEmptyIs()
    ensures ParkedWith([], true, 0)
            == World(Mux(QUEUED_BYTES, [], [], [], [], None, 0, Parked, true, 1), [], [], [], 0)
  {
  }

  lemma ParkedClose(q: Queued)
    requires Charged([q]) <= QUEUED_BYTES && Valid(ParkedWith([q], true, 1).mux)
    ensures Next(ParkedWith([q], true, 1), Close) == ParkedWith([q], false, 1)
  {
  }

  lemma ParkedReturn(q: Queued)
    requires Charged([q]) <= QUEUED_BYTES && Valid(ParkedWith([q], false, 1).mux)
    ensures var w := Next(ParkedWith([q], false, 1), WakeUp);
            w.mux.phase.Returned? && w.log == [] && w.lost == [q] && w.accepted == [q]
  {
  }

  lemma ParkedLoses(w: World, key: string, bytes: seq<byte>)
    requires 0 < |bytes| <= MAX_MESSAGE && Valid(w.mux) && Next(w, Pass) == ParkedWith([], true, 0)
    ensures var r := Run(w, [Pass, SendNow(key, bytes), Close, WakeUp]);
            r.mux.phase.Returned? && r.log == []
            && KeyStream(r.accepted, key) == [bytes] && KeyStream(r.lost, key) == [bytes]
  {
    var q := Queued(0, key, true, Outgoing(bytes, 0, None));
    ParkedSend(key, bytes);
    RunFour(w, [Pass, SendNow(key, bytes), Close, WakeUp]);
    ParkedClose(q);
    ParkedReturn(q);
    OneKeyStream(q, key);
  }

  /** A message sent while the writer is parked is lost when the last sender
      goes away before the writer wakes. */
  lemma CloseMayLoseAMessage(start: World, key: string, bytes: seq<byte>)
    requires start == Initial() && 0 < |bytes| <= MAX_MESSAGE
    ensures Valid(start.mux)
    ensures var r := Run(start, [Pass, SendNow(key, bytes), Close, WakeUp]);
            r.mux.phase.Returned? && r.log == []
            && KeyStream(r.accepted, key) == [bytes] && KeyStream(r.lost, key) == [bytes]
  {
    InitialValid(start);
    PassParks(start);
    ParkedEmpty(start, Next(start, Pass));
    ParkedLoses(start, key, bytes);
  }

  lemma PassParks(w: World)
    requires Valid(w.mux) && w.mux.phase.Running? && w.mux.streak == 0
    requires w.mux.waiting == [] && w.mux.data == [] && w.mux.control == [] && w.mux.bulk.None?
    ensures Next(w, Pass) == w.(mux := w.mux.(phase := Parked))
  {
    EmptyParks(w.mux);
  }

  lemma ParkedEmpty(w: World, n: World)
    requires w == World(w.mux, [], [], [], 0) && n == w.(mux := w.mux.(phase := Parked))
    requires w.mux == Mux(QUEUED_BYTES, [], [], [], [], None, 0, Running, true, 1)
    ensures n == ParkedWith([], true, 0)
  {
  }

  lemma InitialValid(w: World)
    requires w == Initial()
    ensures Valid(w.mux) && w == World(w.mux, [], [], [], 0)
    ensures w.mux == Mux(QUEUED_BYTES, [], [], [], [], None, 0, Running, true, 1)
  {
    assert Outstanding(w.mux) == [];
  }

  lemma EmptyParks(s: Mux)
    requires Valid(s) && s.phase.Running? && s.streak == 0
    requires s.waiting == [] && s.data == [] && s.control == [] && s.bulk.None?
    ensures Iterate(s) == (s.(phase := Parked), None)
  {
    assert Pull(s) == s;
  }

  lemma RunOne(w: World, events: seq<Event>)
    requires Valid(w.mux) && events != []
    ensures Valid(Next(w, events[0]).mux) && Run(w, events) == Run(Next(w, events[0]), events[1..])
  {
    NextValid(w, events[0]);
  }

  lemma RunFour(w: World, events: seq<Event>)
    requires Valid(w.mux) && |events| == 4
    ensures Valid(Next(w, events[0]).mux) && Valid(Next(Next(w, events[0]), events[1]).mux)
    ensures Valid(Next(Next(Next(w, events[0]), events[1]), events[2]).mux)
    ensures Run(w, events) == Next(Next(Next(Next(w, events[0]), events[1]), events[2]), events[3])
  {
    RunOne(w, events);
    var x := Next(w, events[0]);
    RunOne(x, events[1..]);
    var y := Next(x, events[1]);
    RunOne(y, events[1..][1..]);
    var z := Next(y, events[2]);
    RunOne(z, events[1..][1..][1..]);
  }

  // ----- the heartbeat lane is not ordered -----

  function Beat(ticket: nat, key: string, bytes: seq<byte>): Queued
  {
    Queued(ticket, key, false, Outgoing(bytes, 0, None))
  }

  /** A running writer that holds `window` and whose heartbeat channel holds `control`. */
  function Beating(control: seq<Queued>, window: seq<Queued>, streak: nat, nextId: nat): Mux
  {
    Mux(QUEUED_BYTES, [], [], control, window, None, streak, Running, true, nextId)
  }

  lemma UrgentBeat(a: Queued, b: Queued)
    requires Ready(a) && Ready(b) && !a.permit && !b.permit
    ensures Valid(Beating([b], [a], 0, 1))
    ensures var (after, sent) := Iterate(Beating([b], [a], 0, 1));
            after == Beating([], [a], 0, 2) && sent.Some? && sent.value.record.data == b.message.data
  {
    var s := Beating([b], [a], 0, 1);
    assert AsSeq(s.bulk) + s.waiting + s.data + s.sending == [a];
    assert [a][1..] == [];
    assert Pull(s) == s;
    assert b.message.data[0..|b.message.data|] == b.message.data;
  }

  lemma WindowBeat(a: Queued)
    requires Ready(a) && !a.permit
    ensures Valid(Beating([], [a], 0, 2))
    ensures var (after, sent) := Iterate(Beating([], [a], 0, 2));
            after == Beating([], [], 1, 3) && sent.Some? && sent.value.record.data == a.message.data
  {
    var s := Beating([], [a], 0, 2);
    assert AsSeq(s.bulk) + s.waiting + s.data + s.sending == [a];
    assert [a][1..] == [];
    assert Pull(s) == s;
    HeartbeatMayOvertake(s);
    assert a.message.data[0..|a.message.data|] == a.message.data;
  }

  lemma SecondBeatArrives(w: World, key: string, first: seq<byte>, second: seq<byte>)
    requires w == ParkedWith([], true, 0) && Valid(w.mux)
    requires 0 < |first| <= FRAGMENT_BYTES && 0 < |second| <= FRAGMENT_BYTES
    ensures var x := Next(w, Heartbeat(key, first));
            Valid(x.mux) && Valid(Next(x, WakeUp).mux)
            && var y := Next(Next(x, WakeUp), Heartbeat(key, second));
               y.mux == Beating([Beat(1, key, second)], [Beat(0, key, first)], 0, 1) && y.log == []
  {
    var x := Next(w, Heartbeat(key, first));
    NextValid(w, Heartbeat(key, first));
    assert x.mux == ParkedMux([Beat(0, key, first)]) && x.log == [] && x.tickets == 1;
    NextValid(x, WakeUp);
    BeatEnters(Beat(0, key, first));
    BeatComesIn(Beating([], [Beat(0, key, first)], 0, 1), key, second);
  }

  function ParkedMux(control: seq<Queued>): Mux
  {
    Mux(QUEUED_BYTES, [], [], control, [], None, 0, Parked, true, 1)
  }

  lemma BeatEnters(beat: Queued)
    ensures Wake(ParkedMux([beat])) == Beating([], [beat], 0, 1)
  {
    assert [beat][1..] == [];
  }

  lemma BeatComesIn(s: Mux, key: string, bytes: seq<byte>)
    requires s.open && s.phase.Running? && s.control == [] && 0 < |bytes| <= FRAGMENT_BYTES
    ensures TrySendControl(s, 1, key, bytes) == s.(control := [Beat(1, key, bytes)])
  {
  }

  lemma BeatsLeave(y: World, a: Queued, b: Queued)
    requires Ready(a) && Ready(b) && !a.permit && !b.permit
    requires y.mux == Beating([b], [a], 0, 1) && y.log == []
    ensures Valid(y.mux) && Valid(Next(y, Pass).mux)
    ensures var log := Next(Next(y, Pass), Pass).log;
            |log| == 2 && log[0].record.data == b.message.data && log[1].record.data == a.message.data
  {
    UrgentBeat(a, b);
    NextValid(y, Pass);
    WindowBeat(a);
  }

  /** Two heartbeats can leave in the wrong order: the one that wakes the writer
      waits in the window while a later one is urgent. */
  lemma HeartbeatsMayReorder(w: World, key: string, first: seq<byte>, second: seq<byte>)
    requires w == ParkedWith([], true, 0)
    requires 0 < |first| <= FRAGMENT_BYTES && 0 < |second| <= FRAGMENT_BYTES
    ensures Valid(w.mux)
    ensures var r := Run(w, [Heartbeat(key, first), WakeUp, Heartbeat(key, second), Pass, Pass]);
            |r.log| == 2 && r.log[0].record.data == second && r.log[1].record.data == first
  {
    var events := [Heartbeat(key, first), WakeUp, Heartbeat(key, second), Pass, Pass];
    RunOne(w, events);
    var x := Next(w, events[0]);
    RunFour(x, events[1..]);
    SecondBeatArrives(w, key, first, second);
    BeatsLeave(Next(Next(x, WakeUp), Heartbeat(key, second)), Beat(0, key, first), Beat(1, key, second));
  }
}
