/** Runs of a hub: any overlap of registrations, disconnects, reports and the other
    messages of every machine, and what a report tells. */
module TerminalRuns {
  import opened Basics
  import opened Terminals

  datatype Step =
    | DoRegister(machine: Name, order: seq<Name>)
    | DoUnregister(machine: Name, connId: nat, order: seq<Name>)
    | DoReport(machine: Name, infos: seq<Info>)
    | DoAssign(machine: Name, id: Name, group: Option<Name>)
    | DoRetitle(machine: Name, id: Name, title: string, source: Source)
    | DoCreate(machine: Name, id: Name, title: string, cwd: string)
    | DoDestroy(machine: Name, id: Name)
    | DoRemove(machine: Name)

  /** A report names each terminal once, and a stash lists each record once. What
      a machine sent on a connection may be handled at any time, also when another
      connection has replaced that one or none is left. */
  predicate Enabled(h: Hub, s: Step)
  {
    match s
    case DoRegister(m, order) => m in h.live ==> Lists(h.live[m].terminals, order)
    case DoUnregister(m, c, order) => IsCurrent(h, m, c) ==> Lists(h.live[m].terminals, order)
    case DoReport(_, infos) => DistinctIds(infos)
    case _ => true
  }

  /** The step does not come late: a connection reports once, and before its other
      terminal messages. */
  predicate OnTime(h: Hub, s: Step)
  {
    match s
    case DoReport(m, _) => m in h.live && !h.live[m].reported
    case DoRetitle(m, _, _, _) => m in h.live && h.live[m].reported
    case DoCreate(m, _, _, _) => m in h.live && h.live[m].reported
    case DoDestroy(m, _) => m in h.live && h.live[m].reported
    case _ => true
  }

  function Next(h: Hub, s: Step): Hub
    requires Enabled(h, s)
  {
    match s
    case DoRegister(m, order) => Register(h, m, order)
    case DoUnregister(m, c, order) => Unregister(h, m, c, order)
    case DoReport(m, infos) => Report(h, m, infos)
    case DoAssign(m, id, group) => Assign(h, m, id, group).0
    case DoRetitle(m, id, title, source) => Retitle(h, m, id, title, source)
    case DoCreate(m, id, title, cwd) => Create(h, m, id, title, cwd)
    case DoDestroy(m, id) => Destroy(h, m, id)
    case DoRemove(m) => Remove(h, m)
  }

  predicate Possible(h: Hub, steps: seq<Step>)
    decreases |steps|
  {
    steps == [] || (Enabled(h, steps[0]) && Possible(Next(h, steps[0]), steps[1..]))
  }

  predicate Punctual(h: Hub, steps: seq<Step>)
    requires Possible(h, steps)
    decreases |steps|
  {
    steps == [] || (OnTime(h, steps[0]) && Punctual(Next(h, steps[0]), steps[1..]))
  }

  function Run(h: Hub, steps: seq<Step>): Hub
    requires Possible(h, steps)
    decreases |steps|
  {
    if steps == [] then h else Run(Next(h, steps[0]), steps[1..])
  }

  lemma StashedValid(stash: map<Name, seq<Info>>, machine: Name, conn: Conn, order: seq<Name>)
    requires Lists(conn.terminals, order) && forall x | x in conn.terminals :: conn.terminals[x].id == x
    ensures conn.terminals != map[] ==> order != [] && DistinctIds(Unreachable(conn.terminals, order))
  {
    if conn.terminals != map[] {
      var x :| x in conn.terminals;
      assert x in order;
    }
    var r := Unreachable(conn.terminals, order);
    forall i, j | 0 <= i < j < |r| ensures r[i].id != r[j].id {
      assert order[i] in order && order[j] in order;
    }
  }

  lemma AdoptDistinct(infos: seq<Info>, persisted: map<Name, Info>)
    requires DistinctIds(infos)
    ensures DistinctIds(AdoptAll(infos, persisted))
  {
  }

  lemma ReconnectWellFormed(h: Hub, s: Step)
    requires WellFormed(h) && Enabled(h, s) && (s.DoRegister? || s.DoUnregister?)
    ensures WellFormed(Next(h, s))
  {
    match s
    case DoRegister(m, order) =>
      if m in h.live { StashedValid(h.stash, m, h.live[m], order); }
    case DoUnregister(m, c, order) =>
      if IsCurrent(h, m, c) { StashedValid(h.stash, m, h.live[m], order); }
  }

  lemma ReportWellFormed(h: Hub, m: Name, infos: seq<Info>)
    requires WellFormed(h) && DistinctIds(infos)
    ensures WellFormed(Report(h, m, infos))
  {
    if m in h.live {
      InsertKeeps(h.live[m].terminals, AdoptAll(infos, Insert(map[], StashOf(h, m))));
    }
  }

  lemma AssignWellFormed(h: Hub, m: Name, id: Name, group: Option<Name>)
    requires WellFormed(h)
    ensures WellFormed(Assign(h, m, id, group).0)
  {
    var n := Assign(h, m, id, group).0;
    if n.stash != h.stash {
      SameIdsDistinct(h.stash[m], n.stash[m]);
    }
  }

  lemma SameIdsDistinct(before: seq<Info>, after: seq<Info>)
    requires |after| == |before| && forall i | 0 <= i < |before| :: after[i].id == before[i].id
    requires before != [] && DistinctIds(before)
    ensures after != [] && DistinctIds(after)
  {
  }

  lemma NextWellFormed(h: Hub, s: Step)
    requires WellFormed(h) && Enabled(h, s)
    ensures WellFormed(Next(h, s))
  {
    match s
    case DoRegister(_, _) => ReconnectWellFormed(h, s);
    case DoUnregister(_, _, _) => ReconnectWellFormed(h, s);
    case DoReport(m, infos) => ReportWellFormed(h, m, infos);
    case DoAssign(m, id, group) => AssignWellFormed(h, m, id, group);
    case _ =>
  }

  lemma {:induction false} RunWellFormed(h: Hub, steps: seq<Step>)
    requires WellFormed(h) && Possible(h, steps)
    ensures WellFormed(Run(h, steps))
    decreases |steps|
  {
    if steps != [] {
      NextWellFormed(h, steps[0]);
      RunWellFormed(Next(h, steps[0]), steps[1..]);
    }
  }

  /** A terminal is created under a connection that has not reported: its message
      came from a connection that has been replaced. */
  predicate CreatesEarly(h: Hub, s: Step)
  {
    s.DoCreate? && s.machine in h.live && !h.live[s.machine].reported
  }

  lemma NextValidExactly(h: Hub, s: Step)
    requires Valid(h) && Enabled(h, s)
    ensures Valid(Next(h, s)) <==> !CreatesEarly(h, s)
  {
    NextWellFormed(h, s);
    if CreatesEarly(h, s) {
      assert s.id in Next(h, s).live[s.machine].terminals;
    } else {
      NextApart(h, s);
    }
  }

  lemma NextApart(h: Hub, s: Step)
    requires Valid(h) && Enabled(h, s) && !CreatesEarly(h, s) && WellFormed(Next(h, s))
    ensures Valid(Next(h, s))
  {
    match s
    case DoRegister(_, _) =>
    case DoUnregister(_, _, _) =>
    case DoReport(_, _) =>
    case DoAssign(m, id, group) => AssignApart(h, m, id, group);
    case _ =>
  }

  lemma AssignApart(h: Hub, m: Name, id: Name, group: Option<Name>)
    requires Valid(h)
    ensures var n := Assign(h, m, id, group).0;
      && n.stash.Keys == h.stash.Keys && n.live.Keys == h.live.Keys
      && forall x | x in h.live :: n.live[x].reported == h.live[x].reported
                                   && n.live[x].terminals.Keys == h.live[x].terminals.Keys
  {
  }

  predicate CreatesEarlyEver(h: Hub, steps: seq<Step>)
    requires Possible(h, steps)
    decreases |steps|
  {
    steps != [] && (CreatesEarly(h, steps[0]) || CreatesEarlyEver(Next(h, steps[0]), steps[1..]))
  }

  predicate ValidThroughout(h: Hub, steps: seq<Step>)
    requires Possible(h, steps)
    decreases |steps|
  {
    Valid(h) && (steps == [] || ValidThroughout(Next(h, steps[0]), steps[1..]))
  }

  /** In every run, however late messages are handled: live records and stash of a
      machine are never both non-empty, and a connection that has not reported has
      no records, exactly if no terminal is created under one. */
  lemma {:induction false} RunValidExactly(h: Hub, steps: seq<Step>)
    requires Valid(h) && Possible(h, steps)
    ensures ValidThroughout(h, steps) <==> !CreatesEarlyEver(h, steps)
    decreases |steps|
  {
    if steps != [] {
      var n := Next(h, steps[0]);
      NextValidExactly(h, steps[0]);
      if CreatesEarly(h, steps[0]) {
        assert !ValidThroughout(n, steps[1..]);
      } else {
        RunValidExactly(n, steps[1..]);
      }
    }
  }

  // ----- reports -----

  /** The terminal an arrival or departure event is about. */
  function Subject(e: Event): Name
  {
    match e
    case ReachableChanged(_, id, _) => id
    case Created(_, info) => info.id
    case Destroyed(_, id) => id
    case Updated(_, info) => info.id
    case Online(m) => m
    case Offline(m) => m
    case Removed(m) => m
  }

  lemma {:induction false} DeparturesSubjects(machine: Name, stash: seq<Info>, reported: seq<Info>)
    requires DistinctIds(stash)
    ensures var d := Departures(machine, stash, reported);
            && (forall e :: e in d <==> e.Destroyed? && e.machine == machine && HasId(stash, e.terminal)
                                        && !HasId(reported, e.terminal))
            && (forall i, j | 0 <= i < j < |d| :: d[i] != d[j])
  {
    if stash != [] {
      var rest := stash[1..];
      assert forall i | 0 <= i < |rest| :: rest[i] == stash[i + 1];
      assert DistinctIds(rest);
      DeparturesSubjects(machine, rest, reported);
      forall x ensures HasId(stash, x) <==> stash[0].id == x || HasId(rest, x) {
        if HasId(stash, x) && stash[0].id != x {
          var i :| 0 <= i < |stash| && stash[i].id == x;
          assert rest[i - 1].id == x;
        }
        if HasId(rest, x) {
          var i :| 0 <= i < |rest| && rest[i].id == x;
          assert stash[i + 1].id == x;
        }
      }
      assert !HasId(rest, stash[0].id);
    }
  }

  lemma InsertHas(stash: seq<Info>, id: Name)
    ensures id in Insert(map[], stash) <==> HasId(stash, id)
  {
    InsertKeeps(map[], stash);
  }

  lemma ArrivalsSubjects(m: Name, infos: seq<Info>, persisted: map<Name, Info>, id: Name)
    ensures var a := Arrivals(m, AdoptAll(infos, persisted), persisted);
            && (forall i | 0 <= i < |a| :: Subject(a[i]) == infos[i].id && !a[i].Destroyed?)
            && (ReachableChanged(m, id, true) in a <==> id in persisted && HasId(infos, id))
            && ((exists e | e in a :: e.Created? && e.info.id == id) <==> id !in persisted && HasId(infos, id))
  {
    var adopted := AdoptAll(infos, persisted);
    var a := Arrivals(m, adopted, persisted);
    assert forall i | 0 <= i < |infos| :: adopted[i].id == infos[i].id;
    if HasId(infos, id) {
      var k :| 0 <= k < |infos| && infos[k].id == id;
      assert a[k] in a;
    }
  }

  lemma ReportEventsDistinct(h: Hub, m: Name, infos: seq<Info>)
    requires WellFormed(h) && DistinctIds(infos)
    ensures var events := ReportEvents(h, m, infos);
            forall i, j | 0 <= i < j < |events| :: Subject(events[i]) != Subject(events[j])
  {
    var stash := StashOf(h, m);
    var persisted := Insert(map[], stash);
    var arrivals, departures := Arrivals(m, AdoptAll(infos, persisted), persisted), Departures(m, stash, infos);
    ArrivalsSubjects(m, infos, persisted, "");
    DeparturesSubjects(m, stash, infos);
    forall i, j | 0 <= i < j < |arrivals| ensures Subject(arrivals[i]) != Subject(arrivals[j]) {
      assert infos[i].id != infos[j].id;
    }
    forall i, j | 0 <= i < j < |departures| ensures Subject(departures[i]) != Subject(departures[j]) {
      assert departures[i] in departures && departures[j] in departures && departures[i] != departures[j];
    }
    forall i, j | 0 <= i < |arrivals| && 0 <= j < |departures| ensures Subject(arrivals[i]) != Subject(departures[j]) {
      assert departures[j] in departures && HasId(infos, infos[i].id);
    }
    DistinctTogether(arrivals, departures);
  }

  lemma DistinctTogether(a: seq<Event>, b: seq<Event>)
    requires forall i, j | 0 <= i < j < |a| :: Subject(a[i]) != Subject(a[j])
    requires forall i, j | 0 <= i < j < |b| :: Subject(b[i]) != Subject(b[j])
    requires forall i, j | 0 <= i < |a| && 0 <= j < |b| :: Subject(a[i]) != Subject(b[j])
    ensures forall i, j | 0 <= i < j < |a + b| :: Subject((a + b)[i]) != Subject((a + b)[j])
  {
  }

  /** Every terminal that was stashed or is reported gets exactly one event:
      reachable again, newly created, or destroyed; no other terminal gets one. */
  lemma ReportTellsOfEachOnce(h: Hub, m: Name, infos: seq<Info>, id: Name)
    requires WellFormed(h) && DistinctIds(infos)
    ensures var events := ReportEvents(h, m, infos);
            var stashed, reported := HasId(StashOf(h, m), id), HasId(infos, id);
            && (ReachableChanged(m, id, true) in events <==> stashed && reported)
            && ((exists e | e in events :: e.Created? && e.info.id == id) <==> !stashed && reported)
            && (Event.Destroyed(m, id) in events <==> stashed && !reported)
            && (forall i, j | 0 <= i < j < |events| :: Subject(events[i]) != Subject(events[j]))
  {
    var stash := StashOf(h, m);
    InsertHas(stash, id);
    ArrivalsSubjects(m, infos, Insert(map[], stash), id);
    DeparturesSubjects(m, stash, infos);
    ReportEventsDistinct(h, m, infos);
    var arrivals := Arrivals(m, AdoptAll(infos, Insert(map[], stash)), Insert(map[], stash));
    assert forall e :: e in ReportEvents(h, m, infos) <==> e in arrivals || e in Departures(m, stash, infos);
  }

  /** After a report on a live connection its records are the reported terminals and
      what it had, which on time is nothing; and nothing is left in the stash. */
  lemma ReportLeavesTheReported(h: Hub, m: Name, infos: seq<Info>)
    requires m in h.live
    ensures var n := Report(h, m, infos);
            && m !in n.stash
            && (forall x :: x in n.live[m].terminals <==> HasId(infos, x) || x in h.live[m].terminals)
            && (Valid(h) && OnTime(h, DoReport(m, infos)) ==> forall x :: x in n.live[m].terminals <==> HasId(infos, x))
  {
    var adopted := AdoptAll(infos, Insert(map[], StashOf(h, m)));
    InsertKeys(h.live[m].terminals, adopted);
    forall x ensures HasId(adopted, x) <==> HasId(infos, x) {
      AdoptedIds(infos, Insert(map[], StashOf(h, m)), x);
    }
  }

  lemma AdoptedIds(infos: seq<Info>, persisted: map<Name, Info>, x: Name)
    ensures HasId(AdoptAll(infos, persisted), x) <==> HasId(infos, x)
  {
    var adopted := AdoptAll(infos, persisted);
    if HasId(infos, x) {
      var k :| 0 <= k < |infos| && infos[k].id == x;
      assert adopted[k].id == x;
    }
    if HasId(adopted, x) {
      var k :| 0 <= k < |adopted| && adopted[k].id == x;
      assert infos[k].id == x;
    }
  }
}
