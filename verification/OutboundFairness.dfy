/** Fairness of the outbound writer: how long a message can be held back. */
module OutboundFairness {
  import opened Basics
  import opened Outbound
  import opened OutboundRuns

  predicate Is(q: Queued, ticket: nat) { q.permit && q.ticket == ticket }

  ghost predicate InLine(line: seq<Queued>, ticket: nat)
  {
    exists i | 0 <= i < |line| :: Is(line[i], ticket)
  }

  /** Records a message still needs; heartbeats do not count. */
  function Need(q: Queued): nat
  {
    if q.permit && q.message.offset <= |q.message.data| then q.message.Fragments() else 0
  }

  /** Records needed by everything in line up to and including the ticket. */
  function WorkTo(line: seq<Queued>, ticket: nat): nat
  {
    if line == [] then 0
    else Need(line[0]) + if Is(line[0], ticket) then 0 else WorkTo(line[1..], ticket)
  }

  /** Every data record lowers it while the ticket is in line. */
  function Potential(s: Mux, ticket: nat): int
  {
    (STREAK_LIMIT + 1) * WorkTo(Line(s), ticket) + STREAK_LIMIT - s.streak
  }

  function DataRecords(log: seq<Sent>): nat
  {
    if log == [] then 0
    else DataRecords(log[..|log| - 1]) + if log[|log| - 1].queued.permit then 1 else 0
  }

  /** The last fragment of the ticket's message is in the log after `from`. */
  ghost predicate FullySent(log: seq<Sent>, from: nat, ticket: nat)
  {
    exists i | from <= i < |log| :: Is(log[i].queued, ticket) && log[i].queued.message.Finished()
  }

  lemma DataRecordsPush(log: seq<Sent>, sent: Sent)
    ensures DataRecords(log + [sent]) == DataRecords(log) + if sent.queued.permit then 1 else 0
  {
    assert (log + [sent])[..|log|] == log;
  }

  lemma {:induction false} WorkToAppend(line: seq<Queued>, more: seq<Queued>, ticket: nat)
    requires InLine(line, ticket)
    ensures InLine(line + more, ticket) && WorkTo(line + more, ticket) == WorkTo(line, ticket)
  {
    var i :| 0 <= i < |line| && Is(line[i], ticket);
    assert (line + more)[i] == line[i];
    assert (line + more)[1..] == line[1..] + more;
    if !Is(line[0], ticket) {
      assert line[1..][i - 1] == line[i];
      WorkToAppend(line[1..], more, ticket);
    }
  }

  /** Removing another message never adds work. */
  lemma {:induction false} WorkToRemove(line: seq<Queued>, j: nat, ticket: nat)
    requires j < |line| && InLine(line, ticket) && !Is(line[j], ticket)
    ensures InLine(line[..j] + line[j + 1..], ticket)
    ensures WorkTo(line[..j] + line[j + 1..], ticket) <= WorkTo(line, ticket)
  {
    var rest := line[..j] + line[j + 1..];
    var i :| 0 <= i < |line| && Is(line[i], ticket);
    assert rest[if i < j then i else i - 1] == line[i];
    if j == 0 {
      assert rest == line[1..];
    } else {
      assert rest[0] == line[0];
      assert rest[1..] == line[1..][..j - 1] + line[1..][j..];
      if !Is(line[0], ticket) {
        assert line[1..][i - 1] == line[i];
        WorkToRemove(line[1..], j - 1, ticket);
      }
    }
  }

  lemma WorkToHead(line: seq<Queued>, q: Queued, ticket: nat)
    requires line != [] && line[0].permit && SentHead(line[0], q) && InLine(line, ticket)
    ensures (Is(q, ticket) && q.message.Finished())
            || (InLine(Rest(q) + line[1..], ticket)
                && WorkTo(Rest(q) + line[1..], ticket) < WorkTo(line, ticket))
  {
    var i :| 0 <= i < |line| && Is(line[i], ticket);
    var after := Rest(q) + line[1..];
    if i > 0 {
      assert after[|Rest(q)| + i - 1] == line[i];
    }
    if !q.message.Finished() {
      assert after[0] == q && after[1..] == line[1..];
    } else {
      assert after == line[1..];
    }
  }

  lemma {:induction false} WorkToPositive(line: seq<Queued>, ticket: nat)
    requires InLine(line, ticket)
    requires forall i | 0 <= i < |line| :: line[i].message.Valid() && !line[i].message.Finished()
    ensures WorkTo(line, ticket) > 0
  {
    if !Is(line[0], ticket) {
      var i :| 0 <= i < |line| && Is(line[i], ticket);
      assert line[1..][i - 1] == line[i];
      WorkToPositive(line[1..], ticket);
    }
  }

  lemma LineUnfinished(s: Mux)
    requires Shape(s)
    ensures forall i | 0 <= i < |Line(s)| :: Line(s)[i].message.Valid() && !Line(s)[i].message.Finished()
  {
    forall i | 0 <= i < |Line(s)| ensures Line(s)[i].message.Valid() && !Line(s)[i].message.Finished() {
      var q := Line(s)[i];
      assert (s.bulk.Some? && q == s.bulk.value) || q in s.waiting || q in s.data;
    }
  }

  /** The heart of the fairness argument: one pass, whatever it chose. */
  lemma AdvanceLowers(c: Choice, before: Mux, after: Mux, sent: Sent, ticket: nat)
    requires Advances(c, before, after, sent) && InLine(Line(before), ticket)
    requires before.streak <= STREAK_LIMIT
    ensures (Is(sent.queued, ticket) && sent.queued.message.Finished())
            || (InLine(Line(after), ticket)
                && Potential(after, ticket) + (if sent.queued.permit then 1 else 0) <= Potential(before, ticket))
  {
    var line, q := Line(before), sent.queued;
    match c
    case Urgent =>
    case Overtake(i) =>
      var j := |AsSeq(before.bulk)| + i;
      if !Is(line[j], ticket) {
        WorkToRemove(line, j, ticket);
      }
    case _ =>
      WorkToHead(line, q, ticket);
  }

  lemma NothingMeansEmpty(s: Mux)
    requires Choose(Pull(s)).Nothing?
    ensures Line(s) == []
  {
    PullLine(s);
  }

  ghost predicate Bounded(start: World, w: World, ticket: nat)
  {
    || w.mux.phase.Returned?
    || FullySent(w.log, |start.log|, ticket)
    || (InLine(Line(w.mux), ticket)
        && Potential(w.mux, ticket) + DataRecords(w.log) <= Potential(start.mux, ticket) + DataRecords(start.log))
  }

  lemma PassBounded(start: World, w: World, ticket: nat)
    requires Valid(w.mux) && |start.log| <= |w.log| && Bounded(start, w, ticket)
    ensures Bounded(start, Next(w, Pass), ticket)
  {
    var (after, o) := Iterate(w.mux);
    var n := Next(w, Pass);
    if w.mux.phase.Returned? {
    } else if FullySent(w.log, |start.log|, ticket) {
      SentStays(w.log, n.log, |start.log|, ticket);
    } else if o.Some? {
      PassAdvances(w.mux);
      AdvanceLowers(Chosen(w.mux), w.mux, after, o.value, ticket);
      DataRecordsPush(w.log, o.value);
      assert n.log[|w.log|] == o.value;
    } else if w.mux.phase.Running? {
      NothingMeansEmpty(w.mux);
    }
  }

  lemma SentStays(log: seq<Sent>, longer: seq<Sent>, from: nat, ticket: nat)
    requires log <= longer && FullySent(log, from, ticket)
    ensures FullySent(longer, from, ticket)
  {
    var i :| from <= i < |log| && Is(log[i].queued, ticket) && log[i].queued.message.Finished();
    assert longer[i] == log[i];
  }

  /** Arrivals go to the back of the line; a waking heartbeat costs nothing. */
  lemma OtherBounded(start: World, w: World, e: Event, ticket: nat)
    requires Valid(w.mux) && Bounded(start, w, ticket) && !e.Pass?
    ensures Bounded(start, Next(w, e), ticket)
  {
    var n := Next(w, e);
    assert n.log == w.log;
    if InLine(Line(w.mux), ticket) && !n.mux.phase.Returned? {
      match e
      case GetSlot(index) => ArrivalBounded(w.mux, Deliver(w.mux, index), ticket);
      case SendNow(key, bytes) => ArrivalBounded(w.mux, TrySend(w.mux, w.tickets, key, bytes), ticket);
      case WakeUp => WakeBounded(w.mux, ticket);
      case _ => assert Line(n.mux) == Line(w.mux);
    }
  }

  lemma ArrivalBounded(s: Mux, n: Mux, ticket: nat)
    requires n.bulk == s.bulk && n.waiting == s.waiting && s.data <= n.data && n.streak == s.streak
    requires InLine(Line(s), ticket)
    ensures InLine(Line(n), ticket) && Potential(n, ticket) == Potential(s, ticket)
  {
    var more := n.data[|s.data|..];
    assert n.data == s.data + more;
    Assoc(AsSeq(s.bulk) + s.waiting, s.data, more);
    WorkToAppend(Line(s), more, ticket);
  }

  lemma WakeBounded(s: Mux, ticket: nat)
    requires Valid(s) && InLine(Line(s), ticket) && !Wake(s).phase.Returned?
    ensures InLine(Line(Wake(s)), ticket) && Potential(Wake(s), ticket) == Potential(s, ticket)
  {
    if s.phase.Parked? && s.control != [] {
      assert s.control[0] in s.control;
      assert Line(s) == s.data;
      assert Line(Wake(s)) == [s.control[0]] + s.data;
      assert ([s.control[0]] + s.data)[1..] == s.data;
      var i :| 0 <= i < |s.data| && Is(s.data[i], ticket);
      assert ([s.control[0]] + s.data)[i + 1] == s.data[i];
    } else {
      assert Line(Wake(s)) == Line(s);
    }
  }

  lemma {:induction false} RunBounded(start: World, w: World, events: seq<Event>, ticket: nat)
    requires Valid(w.mux) && |start.log| <= |w.log| && Bounded(start, w, ticket)
    ensures Bounded(start, Run(w, events), ticket)
    decreases |events|
  {
    if events != [] {
      NextValid(w, events[0]);
      if events[0].Pass? {
        PassBounded(start, w, ticket);
      } else {
        OtherBounded(start, w, events[0], ticket);
      }
      RunBounded(start, Next(w, events[0]), events[1..], ticket);
    }
  }

  /** Main result: whatever else arrives, a message in line behind W records of
      work (its own included) is fully sent within 9 * W data records. */
  lemma NoStarvation(start: World, events: seq<Event>, ticket: nat)
    requires Valid(start.mux) && InLine(Line(start.mux), ticket)
    requires !Run(start, events).mux.phase.Returned?
    requires DataRecords(Run(start, events).log)
             >= DataRecords(start.log) + (STREAK_LIMIT + 1) * WorkTo(Line(start.mux), ticket)
    ensures FullySent(Run(start, events).log, |start.log|, ticket)
  {
    RunBounded(start, start, events, ticket);
    var w := Run(start, events);
    if !FullySent(w.log, |start.log|, ticket) {
      LineUnfinished(w.mux);
      WorkToPositive(Line(w.mux), ticket);
    }
  }

  // ----- the active bulk message -----

  /** Either the bulk message has moved since `start`, or nothing has happened
      to it and at most the rest of the streak has overtaken it. */
  ghost predicate BulkHeld(start: World, w: World)
    requires start.mux.bulk.Some?
  {
    || (exists i | |start.log| <= i < |w.log| :: SameMessage(w.log[i].queued, start.mux.bulk.value))
    || (w.mux.bulk == start.mux.bulk
        && DataRecords(w.log) + start.mux.streak <= DataRecords(start.log) + w.mux.streak)
  }

  lemma PassBulkHeld(start: World, w: World)
    requires Valid(w.mux) && start.mux.bulk.Some? && start.log <= w.log && BulkHeld(start, w)
    ensures BulkHeld(start, Next(w, Pass))
  {
    var (after, o) := Iterate(w.mux);
    var n := Next(w, Pass);
    if i :| |start.log| <= i < |w.log| && SameMessage(w.log[i].queued, start.mux.bulk.value) {
      assert n.log[i] == w.log[i];
    } else if o.Some? {
      PassAdvances(w.mux);
      DataRecordsPush(w.log, o.value);
      assert n.log[|w.log|] == o.value;
      assert Line(w.mux)[0] == w.mux.bulk.value;
    } else if w.mux.phase.Running? {
      NothingMeansEmpty(w.mux);
    }
  }

  lemma OtherBulkHeld(start: World, w: World, e: Event)
    requires Valid(w.mux) && start.mux.bulk.Some? && start.log <= w.log && BulkHeld(start, w) && !e.Pass?
    ensures BulkHeld(start, Next(w, e)) && Next(w, e).log == w.log
  {
    var n := Next(w, e);
    assert n.log == w.log && (w.mux.bulk.Some? ==> n.mux.bulk == w.mux.bulk && n.mux.streak == w.mux.streak);
    if i :| |start.log| <= i < |w.log| && SameMessage(w.log[i].queued, start.mux.bulk.value) {
      assert n.log[i] == w.log[i];
    }
  }

  lemma {:induction false} RunBulkHeld(start: World, w: World, events: seq<Event>)
    requires Valid(w.mux) && start.mux.bulk.Some? && start.log <= w.log && BulkHeld(start, w)
    ensures BulkHeld(start, Run(w, events)) && start.log <= Run(w, events).log
    decreases |events|
  {
    if events != [] {
      var n := Next(w, events[0]);
      NextValid(w, events[0]);
      if events[0].Pass? {
        PassBulkHeld(start, w);
      } else {
        OtherBulkHeld(start, w, events[0]);
      }
      RunBulkHeld(start, n, events[1..]);
    }
  }

  /** Nine data records never pass without a fragment of the bulk message that
      was active before them. */
  lemma BulkMovesWithinNine(start: World, events: seq<Event>)
    requires Valid(start.mux) && start.mux.bulk.Some?
    requires DataRecords(Run(start, events).log) > DataRecords(start.log) + STREAK_LIMIT
    ensures var log := Run(start, events).log;
            exists i | |start.log| <= i < |log| :: SameMessage(log[i].queued, start.mux.bulk.value)
  {
    RunBulkHeld(start, start, events);
  }

  // ----- the budget -----

  lemma {:induction false} ChargedZero(queue: seq<Queued>)
    requires forall i | 0 <= i < |queue| :: queue[i].message.Valid()
    ensures Charged(queue) == 0 <==> forall i | 0 <= i < |queue| :: !queue[i].permit
  {
    if queue != [] {
      ChargedZero(queue[1..]);
      assert forall i | 0 <= i < |queue| - 1 :: queue[1..][i] == queue[i + 1];
      assert forall i | 1 <= i < |queue| :: queue[i] == queue[1..][i - 1];
    }
  }

  /** In every reachable state the queue reports idle exactly when no data
      message is being sent, queued, waiting or partly sent. */
  lemma IdleMeansNothingOutstanding(start: World, events: seq<Event>)
    requires start == Initial() && Valid(start.mux)
    ensures var s := Run(start, events).mux;
            IsIdle(s) <==> forall i | 0 <= i < |Outstanding(s)| :: !Outstanding(s)[i].permit
  {
    var s := Run(start, events).mux;
    forall i | 0 <= i < |Outstanding(s)| ensures Outstanding(s)[i].message.Valid() {
      var q := Outstanding(s)[i];
      assert (s.bulk.Some? && q == s.bulk.value) || q in s.waiting || q in s.data || q in s.sending;
    }
    ChargedZero(Outstanding(s));
  }
}
