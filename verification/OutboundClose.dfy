/** What is lost when the last sender goes away. */
module OutboundClose {
  import opened Outbound
  import opened OutboundRuns
  import opened OutboundFairness

  /** The writer sleeps on a data message that nobody has told it of yet. */
  predicate Unnoticed(s: Mux)
  {
    s.phase.Parked? && s.control == [] && s.data != []
  }

  /** A closed queue that loses nothing any more. */
  predicate Draining(w: World)
  {
    w.lost == [] && Drains(w.mux)
  }

  predicate Drains(s: Mux)
  {
    && !s.open && s.sending == []
    && (s.phase.Parked? && s.control == [] ==> s.data == [])
    && (s.phase.Returned? ==> s.data == [])
  }

  lemma NothingPulled(s: Mux)
    requires Valid(s) && s.phase.Running? && Choose(Pull(s)).Nothing?
    ensures Iterate(s).0.data == [] && Iterate(s).0.control == []
  {
    NothingMeansEmpty(s);
    PullLine(s);
  }

  lemma PassDraining(w: World)
    requires Valid(w.mux) && Draining(w)
    ensures Draining(Next(w, Pass))
  {
    PassDrains(w.mux, Iterate(w.mux).0);
  }

  lemma PassDrains(s: Mux, after: Mux)
    requires Valid(s) && Drains(s) && after == Iterate(s).0
    ensures Drains(after)
  {
    PassKeepsSenders(s);
  }

  lemma TakeKeepsSenders(p: Mux)
    requires !Choose(p).Nothing?
    ensures var rest := Take(p, Choose(p)).1;
      rest.open == p.open && rest.sending == p.sending && rest.phase == p.phase
  {
  }

  lemma EmitKeepsSenders(s: Mux, next: Queued)
    requires next.message.Valid() && !next.message.Finished()
    ensures var after := Emit(s, next).0;
      after.open == s.open && after.sending == s.sending && after.phase == s.phase
  {
  }

  /** A pass leaves the senders alone, and parks only when nothing is left. */
  lemma PassKeepsSenders(s: Mux)
    requires Valid(s)
    ensures var after := Iterate(s).0;
      && after.open == s.open && after.sending == s.sending
      && (s.phase.Running? ==> after.phase.Running? || (after.phase.Parked? && after.data == []))
      && (!s.phase.Running? ==> after == s)
  {
    if s.phase.Running? {
      var p := Pull(s);
      PullShape(s);
      if Choose(p).Nothing? {
        NothingPulled(s);
      } else {
        TakenIsReady(p);
        TakeKeepsSenders(p);
        EmitKeepsSenders(Take(p, Choose(p)).1, Take(p, Choose(p)).0);
      }
    }
  }

  lemma WakeDraining(w: World)
    requires Valid(w.mux) && Draining(w)
    ensures Draining(Next(w, WakeUp))
  {
  }

  /** The last sender goes away. */
  function Closed(w: World): (r: World)
    requires Valid(w.mux)
    ensures Valid(r.mux)
  {
    NextValid(w, Close);
    Next(w, Close)
  }

  /** Nothing gets into a closed queue. */
  lemma ClosedStays(w: World, e: Event)
    requires Valid(w.mux) && !w.mux.open && !e.Pass? && !e.WakeUp?
    ensures Next(w, e).mux == w.mux && Next(w, e).lost == w.lost && Next(w, e).log == w.log
  {
  }

  lemma {:induction false} RunDraining(w: World, events: seq<Event>)
    requires Valid(w.mux) && Draining(w)
    ensures Draining(Run(w, events))
    decreases |events|
  {
    if events != [] {
      NextValid(w, events[0]);
      match events[0] {
        case Pass => PassDraining(w);
        case WakeUp => WakeDraining(w);
        case _ => ClosedStays(w, events[0]);
      }
      RunDraining(Next(w, events[0]), events[1..]);
    }
  }

  /** A closed queue that sleeps on data loses them when it wakes, whatever else happens. */
  lemma {:induction false} RunLoses(w: World, events: seq<Event>)
    requires Valid(w.mux) && !w.mux.open && Unnoticed(w.mux) && w.lost == []
    ensures var r := Run(w, events);
      if r.mux.phase.Returned? then r.lost == w.mux.data else r.mux == w.mux
    decreases |events|
  {
    if events != [] {
      NextValid(w, events[0]);
      var n := Next(w, events[0]);
      if events[0].WakeUp? {
        assert n.mux.phase.Returned? && n.lost == w.mux.data;
        ReturnedStays(n, events[1..]);
      } else if events[0].Pass? {
        assert n.mux == w.mux;
        RunLoses(n, events[1..]);
      } else {
        ClosedStays(w, events[0]);
        RunLoses(n, events[1..]);
      }
    }
  }

  lemma {:induction false} ReturnedStays(w: World, events: seq<Event>)
    requires Valid(w.mux) && w.mux.phase.Returned?
    ensures Run(w, events).mux.phase.Returned? && Run(w, events).lost == w.lost
    decreases |events|
  {
    if events != [] {
      NextValid(w, events[0]);
      var n := Next(w, events[0]);
      if !events[0].Pass? && !events[0].WakeUp? {
        ClosedStays(w, events[0]);
      } else {
        assert w.lost + [] == w.lost;
        assert n.mux == w.mux && n.lost == w.lost;
      }
      ReturnedStays(n, events[1..]);
    }
  }

  /** Main result: what is lost after the last sender has gone is decided when it
      goes. If the writer sleeps on data then, exactly those are lost; in every
      other case nothing is. */
  lemma LostExactly(w: World, events: seq<Event>)
    requires Valid(w.mux) && w.mux.open && w.mux.sending == [] && w.lost == []
    requires Run(Closed(w), events).mux.phase.Returned?
    ensures Run(Closed(w), events).lost == if Unnoticed(w.mux) then w.mux.data else []
  {
    if Unnoticed(w.mux) {
      RunLoses(Closed(w), events);
    } else {
      RunDraining(Closed(w), events);
    }
  }

  lemma SomeKeyHas(queue: seq<Queued>)
    requires AllReady(queue, true) && queue != []
    ensures KeyStream(queue, queue[0].key) != []
  {
    assert queue[0] in queue;
  }

  /** A queue with every message accounted for, per key. */
  ghost predicate Accounted(w: World)
  {
    forall key :: Ordered(w, key)
  }

  lemma RunAccounted(w: World, events: seq<Event>)
    requires Valid(w.mux) && Accounted(w)
    ensures Accounted(Run(w, events))
  {
    forall key ensures Ordered(Run(w, events), key) {
      RunOrdered(w, events, key);
    }
  }

  lemma CloseAccounted(w: World)
    requires Valid(w.mux) && Accounted(w)
    ensures Accounted(Closed(w))
  {
    forall key ensures Ordered(Closed(w), key) {
      NextOrdered(w, Close, key);
    }
  }

  /** Every message that was accepted has been sent in full. */
  ghost predicate AllSent(w: World)
  {
    forall key :: KeyStream(Finished(w.log), key) == KeyStream(w.accepted, key)
  }

  lemma ReturnedAllSent(r: World)
    requires Valid(r.mux) && Accounted(r) && r.mux.phase.Returned? && AllReady(r.lost, true)
    ensures AllSent(r) <==> r.lost == []
  {
    assert Line(r.mux) == [];
    forall key ensures KeyStream(Finished(r.log), key) + KeyStream(r.lost, key) == KeyStream(r.accepted, key) {
      assert Ordered(r, key);
      assert KeyStream(Finished(r.log), key) + [] == KeyStream(Finished(r.log), key);
    }
    if r.lost != [] {
      SomeKeyHas(r.lost);
      var key := r.lost[0].key;
      assert |KeyStream(Finished(r.log), key)| < |KeyStream(r.accepted, key)|;
    }
  }

  /** Main result: when the writer has returned, everything that was accepted has
      been sent exactly if the last sender did not go away while the writer slept
      on data; in particular if the queue was idle when it did. */
  lemma AllSentExactly(start: World, before: seq<Event>, after: seq<Event>)
    requires start == Initial() && Valid(start.mux)
    requires Run(start, before).mux.open && Run(start, before).mux.sending == []
    requires Run(Closed(Run(start, before)), after).mux.phase.Returned?
    ensures var w, r := Run(start, before), Run(Closed(Run(start, before)), after);
      && (AllSent(r) <==> !Unnoticed(w.mux))
      && (IsIdle(w.mux) ==> AllSent(r))
  {
    var w := Run(start, before);
    InitialAccounted(start);
    RunAccounted(start, before);
    CloseAccounted(w);
    RunAccounted(Closed(w), after);
    var r := Run(Closed(w), after);
    NothingLostYet(w);
    LostExactly(w, after);
    ReturnedAllSent(r);
    if IsIdle(w.mux) {
      IdleNotUnnoticed(w.mux);
    }
  }

  lemma NothingLostYet(w: World)
    requires Valid(w.mux) && w.mux.open && Accounted(w)
    ensures w.lost == []
  {
    assert Ordered(w, "");
  }

  lemma InitialAccounted(start: World)
    requires start == Initial()
    ensures Accounted(start)
  {
    forall key ensures Ordered(start, key) {
      assert KeyStream(Line(start.mux), key) == [];
    }
  }

  /** A caller can tell: an idle queue has no data. */
  lemma IdleNotUnnoticed(s: Mux)
    requires Valid(s) && IsIdle(s)
    ensures s.data == [] && !Unnoticed(s)
  {
    ChargedParts(s);
    assert Charged(s.data) == 0;
  }
}
