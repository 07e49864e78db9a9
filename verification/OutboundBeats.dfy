/** In which order heartbeats leave. */
module OutboundBeats {
  import opened Basics
  import opened Outbound
  import opened OutboundRuns
  import opened Reassembly

  /** A heartbeat that woke the writer and still waits in the window. */
  function Woken(s: Mux): seq<Queued>
  {
    if s.waiting != [] && !s.waiting[0].permit then [s.waiting[0]] else []
  }

  /** The heartbeats not yet sent, oldest first. */
  function Beats(s: Mux): seq<Queued>
  {
    Woken(s) + s.control
  }

  /** The pass to come sends a later heartbeat before the one that woke the writer. */
  predicate Crossing(s: Mux)
  {
    s.phase.Running? && Woken(s) != [] && s.control != []
  }

  lemma PullWoken(s: Mux)
    requires Shape(s)
    ensures Woken(Pull(s)) == Woken(s) && Pull(s).control == s.control
  {
    if s.waiting == [] && s.data != [] {
      assert s.data[0] in s.data;
    }
  }

  /** What a pass does with heartbeats, after the pull. */
  lemma ChosenBeat(p: Mux)
    requires Shape(p) && p.phase.Running? && Beats(p) != []
    ensures !Choose(p).Nothing?
    ensures var (next, rest) := Take(p, Choose(p));
      && !next.permit && next.message.Fresh() && next.message.IsSmall()
      && next == (if p.control != [] then p.control[0] else p.waiting[0])
      && Beats(rest) == if p.control != [] then Woken(p) + p.control[1..] else []
  {
    TakenIsReady(p);
    if p.control == [] {
      HeartbeatMayOvertake(p);
      assert p.waiting[..0] + p.waiting[1..] == p.waiting[1..];
    } else {
      assert p.control[0] in p.control;
    }
  }

  lemma EmitBeat(s: Mux, next: Queued)
    requires !next.permit && next.message.Fresh() && next.message.IsSmall()
    ensures var (after, sent) := Emit(s, next);
      Beats(after) == Beats(s) && sent.queued.ticket == next.ticket && !sent.queued.permit
  {
  }

  /** A running writer that has heartbeats sends one. */
  lemma PassSendsBeat(s: Mux)
    requires Valid(s) && s.phase.Running? && Beats(s) != []
    ensures var (after, o) := Iterate(s);
      && o.Some? && !o.value.queued.permit
      && o.value.queued.ticket == (if s.control != [] then s.control[0] else s.waiting[0]).ticket
      && Beats(after) == if s.control != [] then Woken(s) + s.control[1..] else []
  {
    var p := Pull(s);
    PullShape(s);
    PullWoken(s);
    ChosenBeat(p);
    var (next, rest) := Take(p, Choose(p));
    EmitBeat(rest, next);
  }

  /** Main result for one pass: the oldest heartbeat is the one that leaves
      exactly if none that woke the writer is overtaken by another one. */
  lemma PassTakesTheOldestExactly(s: Mux)
    requires Valid(s) && s.phase.Running? && Beats(s) != []
    ensures Beats(Iterate(s).0) == Beats(s)[1..] <==> !Crossing(s) || s.control[0] == s.waiting[0]
  {
    PassSendsBeat(s);
    if Woken(s) == [] {
      assert Beats(s) == s.control && [] + s.control[1..] == s.control[1..];
    } else if s.control == [] {
      assert Beats(s)[1..] == [];
    } else {
      assert Beats(s)[1..] == s.control;
      assert Woken(s) + s.control[1..] == [s.waiting[0]] + s.control[1..];
      assert s.control == [s.control[0]] + s.control[1..];
      if Woken(s) + s.control[1..] == s.control {
        assert (Woken(s) + s.control[1..])[0] == s.waiting[0];
      }
    }
  }

  // ----- every run -----

  function Tickets(queue: seq<Queued>): (r: seq<nat>)
    ensures |r| == |queue|
  {
    seq(|queue|, i requires 0 <= i < |queue| => queue[i].ticket)
  }

  /** The heartbeats that left, by ticket; each takes one record. */
  function Left(log: seq<Sent>): seq<nat>
  {
    if log == [] then []
    else
      var q := log[|log| - 1].queued;
      Left(log[..|log| - 1]) + if q.permit then [] else [q.ticket]
  }

  /** The heartbeats an event lets into their channel, by ticket. */
  function Entering(w: World, e: Event): seq<nat>
    requires Valid(w.mux)
  {
    if e.Heartbeat? && TrySendControl(w.mux, w.tickets, e.key, e.bytes) != w.mux then [w.tickets] else []
  }

  function Entered(w: World, events: seq<Event>): seq<nat>
    requires Valid(w.mux)
    decreases |events|
  {
    if events == [] then []
    else
      NextValid(w, events[0]);
      Entering(w, events[0]) + Entered(Next(w, events[0]), events[1..])
  }

  /** Some pass of the run finds a heartbeat waiting and another one urgent. */
  predicate Crosses(w: World, events: seq<Event>)
    requires Valid(w.mux)
    decreases |events|
  {
    events != [] &&
    (NextValid(w, events[0]);
     (events[0].Pass? && Crossing(w.mux)) || Crosses(Next(w, events[0]), events[1..]))
  }

  predicate Rising(s: seq<nat>, limit: nat)
  {
    && (forall i, j | 0 <= i < j < |s| :: s[i] < s[j])
    && (forall i | 0 <= i < |s| :: s[i] < limit)
  }

  /** So far heartbeats left in the order in which they came. */
  predicate BeatsInOrder(w: World, came: seq<nat>)
  {
    Left(w.log) + Tickets(Beats(w.mux)) == came && Rising(came, w.tickets)
  }

  /** Some heartbeat left in the place of another. */
  predicate Misplaced(left: seq<nat>, came: seq<nat>)
  {
    exists i :: 0 <= i < |left| && i < |came| && left[i] != came[i]
  }

  lemma LeftPush(log: seq<Sent>, sent: Sent)
    ensures Left(log + [sent]) == Left(log) + if sent.queued.permit then [] else [sent.queued.ticket]
  {
    assert (log + [sent])[..|log|] == log;
  }

  lemma TicketsAppend(a: seq<Queued>, b: seq<Queued>)
    ensures Tickets(a + b) == Tickets(a) + Tickets(b)
  {
  }

  lemma WakeBeats(s: Mux)
    requires Shape(s)
    ensures Beats(Wake(s)) == Beats(s)
  {
    if s.phase.Parked? && s.control != [] {
      assert s.control[0] in s.control;
      assert s.control == [s.control[0]] + s.control[1..];
    } else if s.phase.Parked? && s.open && s.data != [] {
      assert s.data[0] in s.data;
    }
  }

  lemma HeartbeatBeats(s: Mux, ticket: nat, key: string, bytes: seq<byte>)
    ensures var n := TrySendControl(s, ticket, key, bytes);
      Tickets(Beats(n)) == Tickets(Beats(s)) + if n != s then [ticket] else []
  {
    var n := TrySendControl(s, ticket, key, bytes);
    if n != s {
      var q := Queued(ticket, key, false, Outgoing(bytes, 0, None));
      Assoc(Woken(s), s.control, [q]);
      TicketsAppend(Beats(s), [q]);
    }
  }

  /** Everything but a pass only lets heartbeats in. */
  lemma OtherBeats(w: World, e: Event)
    requires Valid(w.mux) && !e.Pass?
    ensures var n := Next(w, e);
      && n.log == w.log && w.tickets <= n.tickets
      && Tickets(Beats(n.mux)) == Tickets(Beats(w.mux)) + Entering(w, e)
      && (Entering(w, e) != [] ==> n.tickets == w.tickets + 1)
  {
    OtherKeepsWriter(w, e);
    match e
    case Heartbeat(key, bytes) => HeartbeatBeats(w.mux, w.tickets, key, bytes);
    case WakeUp => WakeBeats(w.mux);
    case _ => SendersBeats(w, e);
  }

  lemma SendersBeats(w: World, e: Event)
    requires Valid(w.mux) && (e.AcquirePermit? || e.GetSlot? || e.SendNow? || e.Close?)
    ensures var n := Next(w, e);
      w.tickets <= n.tickets && n.mux.waiting == w.mux.waiting && n.mux.control == w.mux.control
  {
  }

  /** Without heartbeats only data goes out. */
  lemma NoBeatLeaves(s: Mux)
    requires Valid(s) && s.phase.Running? && Beats(s) == []
    ensures var (after, o) := Iterate(s);
      Beats(after) == [] && (o.Some? ==> o.value.queued.permit)
  {
    var p := Pull(s);
    PullShape(s);
    PullWoken(s);
    if !Choose(p).Nothing? {
      TakenIsReady(p);
      DataTaken(p);
      EmitData(Take(p, Choose(p)).1, Take(p, Choose(p)).0);
    }
  }

  predicate AllPermitted(queue: seq<Queued>)
  {
    forall i | 0 <= i < |queue| :: queue[i].permit
  }

  lemma DataTaken(p: Mux)
    requires Shape(p) && Beats(p) == [] && !Choose(p).Nothing?
    ensures Take(p, Choose(p)).0.permit && Beats(Take(p, Choose(p)).1) == []
  {
    assert AllPermitted(p.waiting);
    var rest := Take(p, Choose(p)).1;
    assert rest.control == [] && AllPermitted(rest.waiting);
  }

  lemma EmitData(s: Mux, next: Queued)
    requires next.message.Valid() && !next.message.Finished() && next.permit && Beats(s) == []
    ensures var (after, sent) := Emit(s, next); Beats(after) == [] && sent.queued.permit
  {
  }

  lemma RisingPush(s: seq<nat>, limit: nat, more: seq<nat>, next: nat)
    requires Rising(s, limit) && limit <= next && |more| <= 1
    requires more != [] ==> more[0] == limit && next == limit + 1
    ensures Rising(s + more, next)
  {
  }

  lemma OtherInOrder(w: World, e: Event, came: seq<nat>)
    requires Valid(w.mux) && BeatsInOrder(w, came) && !e.Pass?
    ensures BeatsInOrder(Next(w, e), came + Entering(w, e))
  {
    OtherBeats(w, e);
    RisingPush(came, w.tickets, Entering(w, e), Next(w, e).tickets);
    Assoc(Left(w.log), Tickets(Beats(w.mux)), Entering(w, e));
  }

  lemma FirstLeaves(left: seq<nat>, beats: seq<nat>)
    requires beats != []
    ensures (left + [beats[0]]) + beats[1..] == left + beats
  {
  }

  lemma PassInOrder(w: World, came: seq<nat>)
    requires Valid(w.mux) && BeatsInOrder(w, came) && !Crossing(w.mux)
    ensures BeatsInOrder(Next(w, Pass), came)
  {
    var s := w.mux;
    var (after, o) := Iterate(s);
    if s.phase.Running? && Beats(s) == [] {
      NoBeatLeaves(s);
      if o.Some? { LeftPush(w.log, o.value); }
    } else if s.phase.Running? {
      OldestLeaves(s);
      LeftPush(w.log, o.value);
      FirstLeaves(Left(w.log), Tickets(Beats(s)));
    }
  }

  lemma OldestLeaves(s: Mux)
    requires Valid(s) && s.phase.Running? && Beats(s) != [] && !Crossing(s)
    ensures var (after, o) := Iterate(s);
      && o.Some? && !o.value.queued.permit && o.value.queued.ticket == Tickets(Beats(s))[0]
      && Tickets(Beats(after)) == Tickets(Beats(s))[1..]
  {
    PassSendsBeat(s);
    PassTakesTheOldestExactly(s);
    TicketsTail(Beats(s));
  }

  lemma TicketsTail(queue: seq<Queued>)
    requires queue != []
    ensures Tickets(queue[1..]) == Tickets(queue)[1..]
  {
  }

  lemma CrossingMisplaces(w: World, came: seq<nat>)
    requires Valid(w.mux) && BeatsInOrder(w, came) && Crossing(w.mux)
    ensures Misplaced(Left(Next(w, Pass).log), came)
  {
    var s := w.mux;
    PassSendsBeat(s);
    LeftPush(w.log, Iterate(s).1.value);
    var n := |Left(w.log)|;
    assert Tickets(Beats(s))[0] == s.waiting[0].ticket && Tickets(Beats(s))[1] == s.control[0].ticket;
    assert came[n] == s.waiting[0].ticket && came[n + 1] == s.control[0].ticket;
    var left := Left(Next(w, Pass).log);
    assert left == Left(w.log) + [s.control[0].ticket];
    assert left[n] != came[n];
  }

  lemma {:induction false} LeftGrows(w: World, events: seq<Event>)
    requires Valid(w.mux)
    ensures Left(w.log) <= Left(Run(w, events).log)
    decreases |events|
  {
    if events != [] {
      NextValid(w, events[0]);
      NextLeft(w, events[0]);
      LeftGrows(Next(w, events[0]), events[1..]);
    }
  }

  lemma NextLeft(w: World, e: Event)
    requires Valid(w.mux)
    ensures Left(w.log) <= Left(Next(w, e).log)
  {
    if e.Pass? {
      var o := Iterate(w.mux).1;
      if o.Some? {
        LeftPush(w.log, o.value);
      }
    } else {
      OtherKeepsWriter(w, e);
    }
  }

  lemma MisplacedStays(left: seq<nat>, came: seq<nat>, longer: seq<nat>, more: seq<nat>)
    requires Misplaced(left, came) && left <= longer
    ensures Misplaced(longer, came + more)
  {
    var i :| 0 <= i < |left| && i < |came| && left[i] != came[i];
    assert longer[i] == left[i] && (came + more)[i] == came[i];
  }

  /** Main result: heartbeats leave in the order in which they came exactly if no
      pass of the run finds one that woke the writer still waiting and another one
      in the heartbeat channel. */
  lemma {:induction false} BeatsInOrderExactly(w: World, came: seq<nat>, events: seq<Event>)
    requires Valid(w.mux) && BeatsInOrder(w, came)
    ensures var r := Run(w, events);
      && (Misplaced(Left(r.log), came + Entered(w, events)) <==> Crosses(w, events))
      && (!Crosses(w, events) ==> Left(r.log) + Tickets(Beats(r.mux)) == came + Entered(w, events))
    decreases |events|
  {
    if events == [] {
      assert came + Entered(w, events) == came;
    } else {
      NextValid(w, events[0]);
      var n := Next(w, events[0]);
      Assoc(came, Entering(w, events[0]), Entered(n, events[1..]));
      if events[0].Pass? && Crossing(w.mux) {
        CrossingMisplaces(w, came);
        LeftGrows(n, events[1..]);
        MisplacedStays(Left(n.log), came, Left(Run(n, events[1..]).log), Entered(w, events));
      } else {
        if events[0].Pass? {
          PassInOrder(w, came);
          assert came + Entering(w, events[0]) == came;
        } else {
          OtherInOrder(w, events[0], came);
        }
        BeatsInOrderExactly(n, came + Entering(w, events[0]), events[1..]);
      }
    }
  }

  /** The same from a new queue. */
  lemma HeartbeatsInOrderExactly(start: World, events: seq<Event>)
    requires start == Initial() && Valid(start.mux)
    ensures Misplaced(Left(Run(start, events).log), Entered(start, events)) <==> Crosses(start, events)
  {
    assert BeatsInOrder(start, []);
    BeatsInOrderExactly(start, [], events);
    assert [] + Entered(start, events) == Entered(start, events);
  }
}
