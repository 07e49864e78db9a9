/** The whole record of a terminal, step by step, and what the browsers are told of it. */
module TerminalNotices {
  import opened Basics
  import opened Terminals
  import opened TerminalRuns
  import opened TerminalCards

  // ----- the record -----

  /** What a report makes of a terminal: the hub's group and title if they are stashed,
      and everything else as reported. */
  function Reported(h: Hub, m: Name, infos: seq<Info>, id: Name): Option<Info>
  {
    if m !in h.live then None
    else if HasId(infos, id) then
      var t, kept := Find(infos, id), Find(StashOf(h, m), id);
      if t.None? || kept.None? then t
      else Some(Info(t.value.id, kept.value.title, kept.value.source, kept.value.group, t.value.cwd, t.value.reachable))
    else if id in h.live[m].terminals then Some(h.live[m].terminals[id]) else None
  }

  /** What putting a connection aside makes of it. */
  function PutAside(h: Hub, m: Name, id: Name): Option<Info>
  {
    if m !in h.live || h.live[m].terminals == map[] then Find(StashOf(h, m), id)
    else if id in h.live[m].terminals then
      var t := h.live[m].terminals[id];
      Some(Info(t.id, t.title, t.source, t.group, t.cwd, false))
    else None
  }

  /** The record of a terminal after a step. */
  function RecordAfter(h: Hub, s: Step, m: Name, id: Name): Option<Info>
  {
    var now := Lookup(h, m, id);
    if s.machine != m then now
    else
      match s
      case DoRegister(_, _) => PutAside(h, m, id)
      case DoUnregister(_, c, _) => if IsCurrent(h, m, c) then PutAside(h, m, id) else now
      case DoReport(_, infos) => Reported(h, m, infos, id)
      case DoAssign(_, x, group) => if x == id && now.Some? then Some(now.value.(group := group)) else now
      case DoRetitle(_, x, title, source) =>
        if x == id && m in h.live && id in h.live[m].terminals then Some(now.value.(title := title, source := source)) else now
      case DoCreate(_, x, title, cwd) =>
        if x == id && m in h.live then Some(Info(id, title, Unset, None, cwd, true)) else now
      case DoDestroy(_, x) => if x == id && m in h.live then Find(StashOf(h, m), id) else now
      case DoRemove(_) => None
  }

  lemma ReconnectRecord(h: Hub, s: Step, m: Name, id: Name)
    requires WellFormed(h) && Enabled(h, s) && (s.DoRegister? || s.DoUnregister?)
    ensures Lookup(Next(h, s), m, id) == RecordAfter(h, s, m, id)
  {
    if s.machine == m && m in h.live && (s.DoUnregister? ==> IsCurrent(h, m, s.connId)) {
      UnreachableCard(h.live[m].terminals, s.order, id);
    }
  }

  lemma ReportRecord(h: Hub, m: Name, infos: seq<Info>, id: Name)
    requires WellFormed(h) && DistinctIds(infos)
    ensures Lookup(Report(h, m, infos), m, id) == Reported(h, m, infos, id)
  {
    if m in h.live {
      if HasId(infos, id) {
        ReportedRecord(h, m, infos, id);
      } else {
        UnreportedCard(h, m, infos, id);
      }
    }
  }

  lemma ReportedRecord(h: Hub, m: Name, infos: seq<Info>, id: Name)
    requires WellFormed(h) && m in h.live && DistinctIds(infos) && HasId(infos, id)
    ensures Lookup(Report(h, m, infos), m, id) == Reported(h, m, infos, id)
  {
    var k :| 0 <= k < |infos| && infos[k].id == id;
    FindAt(infos, k);
    var persisted := Insert(map[], StashOf(h, m));
    AdoptedLive(h.live[m].terminals, infos, persisted, k);
    PersistedFind(StashOf(h, m), id);
  }

  lemma AssignRecord(h: Hub, n: Name, x: Name, group: Option<Name>, m: Name, id: Name)
    requires WellFormed(h)
    ensures Lookup(Assign(h, n, x, group).0, m, id) == RecordAfter(h, DoAssign(n, x, group), m, id)
  {
    if n == m && !(m in h.live && x in h.live[m].terminals) {
      AssignedStash(h, m, x, group, id);
    }
  }

  lemma OtherRecord(h: Hub, s: Step, m: Name, id: Name)
    requires WellFormed(h) && (s.DoRetitle? || s.DoCreate? || s.DoDestroy? || s.DoRemove?)
    ensures Lookup(Next(h, s), m, id) == RecordAfter(h, s, m, id)
  {
  }

  /** Main result: after any step the hub's record of a terminal is exactly that: an
      adopted one is the reported one but for group and title, one put aside is the same
      but unreachable, and no step changes more than it says. */
  lemma NextRecord(h: Hub, s: Step, m: Name, id: Name)
    requires WellFormed(h) && Enabled(h, s)
    ensures Lookup(Next(h, s), m, id) == RecordAfter(h, s, m, id)
  {
    match s
    case DoRegister(_, _) => ReconnectRecord(h, s, m, id);
    case DoUnregister(_, _, _) => ReconnectRecord(h, s, m, id);
    case DoReport(n, infos) =>
      if n == m { ReportRecord(h, m, infos, id); } else { OtherReport(h, m, infos, n, id); }
    case DoAssign(n, x, group) => AssignRecord(h, n, x, group, m, id);
    case _ => OtherRecord(h, s, m, id);
  }

  // ----- what the browsers make of the notices -----

  /** The record a browser has of a terminal, as the notices leave it. */
  function Shown(log: seq<Event>, m: Name, id: Name): Option<Info>
  {
    if log == [] then None else Noticed(Shown(log[..|log| - 1], m, id), log[|log| - 1], m, id)
  }

  function Noticed(before: Option<Info>, e: Event, m: Name, id: Name): Option<Info>
  {
    match e
    case ReachableChanged(n, x, reachable) =>
      if n == m && x == id && before.Some? then Some(before.value.(reachable := reachable)) else before
    case Created(n, info) => if n == m && info.id == id then Some(info) else before
    case Updated(n, info) => if n == m && info.id == id then Some(info) else before
    case Destroyed(n, x) => if n == m && x == id then None else before
    case Removed(n) => if n == m then None else before
    case _ => before
  }

  /** Going on from what is shown. */
  function ShownOn(before: Option<Info>, events: seq<Event>, m: Name, id: Name): Option<Info>
  {
    if events == [] then before
    else Noticed(ShownOn(before, events[..|events| - 1], m, id), events[|events| - 1], m, id)
  }

  lemma {:induction false} ShownAppend(log: seq<Event>, events: seq<Event>, m: Name, id: Name)
    ensures Shown(log + events, m, id) == ShownOn(Shown(log, m, id), events, m, id)
  {
    if events == [] {
      assert log + events == log;
    } else {
      ButLast(log, events);
      ShownAppend(log, events[..|events| - 1], m, id);
    }
  }

  predicate About(e: Event, m: Name, id: Name)
  {
    match e
    case ReachableChanged(n, x, _) => n == m && x == id
    case Created(n, info) => n == m && info.id == id
    case Updated(n, info) => n == m && info.id == id
    case Destroyed(n, x) => n == m && x == id
    case Removed(n) => n == m
    case _ => false
  }

  lemma {:induction false} NothingShown(before: Option<Info>, events: seq<Event>, m: Name, id: Name)
    requires forall i | 0 <= i < |events| :: !About(events[i], m, id)
    ensures ShownOn(before, events, m, id) == before
  {
    if events != [] {
      NothingShown(before, events[..|events| - 1], m, id);
    }
  }

  /** One notice among others that are about something else. */
  lemma {:induction false} OneShown(before: Option<Info>, events: seq<Event>, k: nat, m: Name, id: Name)
    requires k < |events| && About(events[k], m, id)
    requires forall i | 0 <= i < |events| && i != k :: !About(events[i], m, id)
    ensures ShownOn(before, events, m, id) == Noticed(before, events[k], m, id)
  {
    var n := |events| - 1;
    if k == n {
      NothingShown(before, events[..n], m, id);
    } else {
      OneShown(before, events[..n], k, m, id);
    }
  }

  lemma OneMore(log: seq<Event>, e: Event, m: Name, id: Name)
    ensures Shown(log + [e], m, id) == Noticed(Shown(log, m, id), e, m, id)
  {
    assert (log + [e])[..|log|] == log;
  }

  /** The browsers know what the hub knows of the terminal. */
  predicate Agrees(h: Hub, m: Name, id: Name)
  {
    Shown(h.log, m, id) == Lookup(h, m, id)
  }

  /** After the step the browsers take the terminal for something it is not. A connection
      that is replaced is put aside without a notice, an overwritten or dropped stash is
      too, a reported terminal that was stashed is told of only as reachable whatever else
      the report says, and an end is told of although the stash still has a record. */
  predicate Misleads(h: Hub, s: Step, m: Name, id: Name)
  {
    var kept := Find(StashOf(h, m), id);
    s.machine == m &&
    match s
    case DoRegister(_, _) =>
      m in h.live && h.live[m].terminals != map[]
      && if id in h.live[m].terminals then h.live[m].terminals[id].reachable else kept.Some?
    case DoUnregister(_, c, _) => IsCurrent(h, m, c) && StashLoses(h, m, id) && kept.Some?
    case DoReport(_, infos) =>
      kept.Some? && if m !in h.live then true
                    else if HasId(infos, id)
                    then Reported(h, m, infos, id) != Some(Lookup(h, m, id).value.(reachable := true))
                    else id in h.live[m].terminals
    case DoDestroy(_, x) => x == id && m in h.live && kept.Some?
    case _ => false
  }

  /** Some notices follow. */
  lemma Follow(h: Hub, n: Hub, events: seq<Event>, m: Name, id: Name)
    requires Agrees(h, m, id) && n.log == h.log + events
    ensures Shown(n.log, m, id) == ShownOn(Lookup(h, m, id), events, m, id)
  {
    ShownAppend(h.log, events, m, id);
  }

  lemma RegisterAgrees(h: Hub, s: Step, m: Name, id: Name)
    requires WellFormed(h) && Enabled(h, s) && s.DoRegister? && Agrees(h, m, id)
    ensures Agrees(Next(h, s), m, id) <==> !Misleads(h, s, m, id)
  {
    OneMore(h.log, Online(s.machine), m, id);
    ReconnectRecord(h, s, m, id);
  }

  lemma AwayShown(before: Option<Info>, n: Name, order: seq<Name>, m: Name, id: Name)
    requires forall i, j | 0 <= i < j < |order| :: order[i] != order[j]
    ensures ShownOn(before, WentAway(n, order) + [Offline(n)], m, id)
            == if n == m && id in order && before.Some? then Some(before.value.(reachable := false)) else before
  {
    var events := WentAway(n, order) + [Offline(n)];
    if n == m && id in order {
      var k :| 0 <= k < |order| && order[k] == id;
      assert events[k] == ReachableChanged(m, id, false);
      OneShown(before, events, k, m, id);
    } else {
      NothingShown(before, events, m, id);
    }
  }

  lemma UnregisterAgrees(h: Hub, s: Step, m: Name, id: Name)
    requires WellFormed(h) && Enabled(h, s) && s.DoUnregister? && Agrees(h, m, id)
    ensures Agrees(Next(h, s), m, id) <==> !Misleads(h, s, m, id)
  {
    if IsCurrent(h, s.machine, s.connId) {
      var events := WentAway(s.machine, s.order) + [Offline(s.machine)];
      Assoc(h.log, WentAway(s.machine, s.order), [Offline(s.machine)]);
      Follow(h, Next(h, s), events, m, id);
      AwayShown(Lookup(h, m, id), s.machine, s.order, m, id);
      ReconnectRecord(h, s, m, id);
    }
  }

  /** What the notices of a report make of a terminal. */
  function ReportSays(h: Hub, m: Name, infos: seq<Info>, id: Name, before: Option<Info>): Option<Info>
  {
    if HasId(infos, id) then
      if !HasId(StashOf(h, m), id) then Find(infos, id)
      else if before.Some? then Some(before.value.(reachable := true)) else before
    else if HasId(StashOf(h, m), id) then None
    else before
  }

  /** Every notice of a report is about one of the machine's terminals. */
  lemma ReportAbout(h: Hub, m: Name, infos: seq<Info>, e: Event, n: Name, id: Name)
    requires WellFormed(h) && e in ReportEvents(h, m, infos)
    ensures About(e, n, id) <==> n == m && Subject(e) == id
    ensures e.Created? || e.Destroyed? || (e.ReachableChanged? && e.reachable)
  {
    var stash := StashOf(h, m);
    var persisted := Insert(map[], stash);
    var arrivals := Arrivals(m, AdoptAll(infos, persisted), persisted);
    DeparturesSubjects(m, stash, infos);
    assert e in arrivals || e in Departures(m, stash, infos);
  }

  lemma ReportShown(h: Hub, m: Name, infos: seq<Info>, id: Name, before: Option<Info>)
    requires WellFormed(h) && DistinctIds(infos)
    ensures ShownOn(before, ReportEvents(h, m, infos), m, id) == ReportSays(h, m, infos, id, before)
  {
    var events := ReportEvents(h, m, infos);
    ReportTellsOfEachOnce(h, m, infos, id);
    if e :| e in events && About(e, m, id) {
      var k :| 0 <= k < |events| && events[k] == e;
      ReportAbout(h, m, infos, e, m, id);
      forall i | 0 <= i < |events| && i != k ensures !About(events[i], m, id) {
        ReportAbout(h, m, infos, events[i], m, id);
      }
      OneShown(before, events, k, m, id);
      ReportKind(h, m, infos, e, id, before);
    } else {
      NothingShown(before, events, m, id);
      NoneToTell(h, m, infos, id);
    }
  }

  lemma NoneToTell(h: Hub, m: Name, infos: seq<Info>, id: Name)
    requires WellFormed(h) && DistinctIds(infos)
    requires forall e | e in ReportEvents(h, m, infos) :: !About(e, m, id)
    ensures !HasId(infos, id) && !HasId(StashOf(h, m), id)
  {
    ReportTellsOfEachOnce(h, m, infos, id);
    var events := ReportEvents(h, m, infos);
    assert ReachableChanged(m, id, true) !in events && Event.Destroyed(m, id) !in events;
    forall e | e in events ensures !(e.Created? && e.info.id == id) {
      ReportAbout(h, m, infos, e, m, id);
    }
  }

  /** The notice of a report about one terminal. */
  lemma ReportKind(h: Hub, m: Name, infos: seq<Info>, e: Event, id: Name, before: Option<Info>)
    requires WellFormed(h) && DistinctIds(infos) && e in ReportEvents(h, m, infos) && About(e, m, id)
    ensures Noticed(before, e, m, id) == ReportSays(h, m, infos, id, before)
    ensures HasId(infos, id) || HasId(StashOf(h, m), id)
  {
    ReportTellsOfEachOnce(h, m, infos, id);
    ReportAbout(h, m, infos, e, m, id);
    if e.Created? {
      CreatedSays(h, m, infos, e, id);
    }
  }

  lemma CreatedSays(h: Hub, m: Name, infos: seq<Info>, e: Event, id: Name)
    requires WellFormed(h) && DistinctIds(infos) && e in ReportEvents(h, m, infos) && e.Created? && e.info.id == id
    ensures Find(infos, id) == Some(e.info)
  {
    var stash := StashOf(h, m);
    var persisted := Insert(map[], stash);
    var arrivals := Arrivals(m, AdoptAll(infos, persisted), persisted);
    DeparturesSubjects(m, stash, infos);
    assert e in arrivals;
    var k :| 0 <= k < |arrivals| && arrivals[k] == e;
    assert e.info == Adopt(infos[k], persisted);
    FindAt(infos, k);
  }

  lemma ReportAgrees(h: Hub, n: Name, infos: seq<Info>, m: Name, id: Name)
    requires WellFormed(h) && DistinctIds(infos) && Agrees(h, m, id)
    ensures Agrees(Report(h, n, infos), m, id) <==> !Misleads(h, DoReport(n, infos), m, id)
  {
    if n != m {
      OtherReportAgrees(h, n, infos, m, id);
    } else if m in h.live {
      OwnReportAgrees(h, infos, m, id);
    } else {
      ReportRecord(h, m, infos, id);
    }
  }

  lemma OwnReportAgrees(h: Hub, infos: seq<Info>, m: Name, id: Name)
    requires WellFormed(h) && DistinctIds(infos) && Agrees(h, m, id) && m in h.live
    ensures Agrees(Report(h, m, infos), m, id) <==> !Misleads(h, DoReport(m, infos), m, id)
  {
    var n := Report(h, m, infos);
    ReportRecord(h, m, infos, id);
    Follow(h, n, ReportEvents(h, m, infos), m, id);
    ReportShown(h, m, infos, id, Lookup(h, m, id));
    SaysAndHas(h, infos, m, id);
  }

  /** Notices and record of a report, side by side. */
  lemma SaysAndHas(h: Hub, infos: seq<Info>, m: Name, id: Name)
    requires m in h.live
    ensures ReportSays(h, m, infos, id, Lookup(h, m, id)) == Reported(h, m, infos, id)
            <==> !Misleads(h, DoReport(m, infos), m, id)
  {
  }

  lemma OtherReportAgrees(h: Hub, n: Name, infos: seq<Info>, m: Name, id: Name)
    requires WellFormed(h) && n != m && Agrees(h, m, id)
    ensures Agrees(Report(h, n, infos), m, id)
  {
    OtherReport(h, m, infos, n, id);
    if n in h.live {
      Follow(h, Report(h, n, infos), ReportEvents(h, n, infos), m, id);
      OtherShown(h, n, infos, m, id, Lookup(h, m, id));
    }
  }

  lemma OtherShown(h: Hub, n: Name, infos: seq<Info>, m: Name, id: Name, before: Option<Info>)
    requires WellFormed(h) && n != m
    ensures ShownOn(before, ReportEvents(h, n, infos), m, id) == before
  {
    forall e | e in ReportEvents(h, n, infos) ensures !About(e, m, id) {
      ReportAbout(h, n, infos, e, m, id);
    }
    NothingShown(before, ReportEvents(h, n, infos), m, id);
  }

  lemma AssignAgrees(h: Hub, n: Name, x: Name, group: Option<Name>, m: Name, id: Name)
    requires WellFormed(h) && Agrees(h, m, id)
    ensures Agrees(Assign(h, n, x, group).0, m, id)
  {
    var a := Assign(h, n, x, group).0;
    AssignRecord(h, n, x, group, m, id);
    if a != h {
      AssignTells(h, n, x, group);
      OneMore(h.log, Updated(n, Lookup(h, n, x).value.(group := group)), m, id);
    }
  }

  lemma AssignTells(h: Hub, n: Name, x: Name, group: Option<Name>)
    requires WellFormed(h) && Assign(h, n, x, group).0 != h
    ensures var t := Lookup(h, n, x);
      t.Some? && t.value.id == x && Assign(h, n, x, group).0.log == h.log + [Updated(n, t.value.(group := group))]
  {
  }

  lemma RetitleAgrees(h: Hub, s: Step, m: Name, id: Name)
    requires WellFormed(h) && Agrees(h, m, id) && s.DoRetitle?
    ensures Agrees(Next(h, s), m, id)
  {
    OtherRecord(h, s, m, id);
    var n := s.machine;
    if n in h.live && s.id in h.live[n].terminals {
      OneMore(h.log, Updated(n, h.live[n].terminals[s.id].(title := s.title, source := s.source)), m, id);
    }
  }

  lemma CreateAgrees(h: Hub, s: Step, m: Name, id: Name)
    requires WellFormed(h) && Agrees(h, m, id) && s.DoCreate?
    ensures Agrees(Next(h, s), m, id)
  {
    OtherRecord(h, s, m, id);
    if s.machine in h.live {
      OneMore(h.log, Event.Created(s.machine, Info(s.id, s.title, Unset, None, s.cwd, true)), m, id);
    }
  }

  lemma DestroyAgrees(h: Hub, s: Step, m: Name, id: Name)
    requires WellFormed(h) && Agrees(h, m, id) && (s.DoDestroy? || s.DoRemove?)
    ensures Agrees(Next(h, s), m, id) <==> !Misleads(h, s, m, id)
  {
    OtherRecord(h, s, m, id);
    var n := Next(h, s);
    if n != h {
      OneMore(h.log, n.log[|h.log|], m, id);
      assert n.log == h.log + [n.log[|h.log|]];
    }
  }

  /** One step, whenever it comes: if the browsers had the hub's record of a terminal,
      they still do, exactly unless the step misleads them. */
  lemma NextAgreesExactly(h: Hub, s: Step, m: Name, id: Name)
    requires WellFormed(h) && Enabled(h, s) && Agrees(h, m, id)
    ensures Agrees(Next(h, s), m, id) <==> !Misleads(h, s, m, id)
  {
    match s
    case DoRegister(_, _) => RegisterAgrees(h, s, m, id);
    case DoUnregister(_, _, _) => UnregisterAgrees(h, s, m, id);
    case DoReport(n, infos) => ReportAgrees(h, n, infos, m, id);
    case DoAssign(n, x, group) => AssignAgrees(h, n, x, group, m, id);
    case DoRetitle(_, _, _, _) => RetitleAgrees(h, s, m, id);
    case DoCreate(_, _, _, _) => CreateAgrees(h, s, m, id);
    case _ => DestroyAgrees(h, s, m, id);
  }

  predicate MisleadsEver(h: Hub, steps: seq<Step>, m: Name, id: Name)
    requires Possible(h, steps)
    decreases |steps|
  {
    steps != [] && (Misleads(h, steps[0], m, id) || MisleadsEver(Next(h, steps[0]), steps[1..], m, id))
  }

  predicate AgreesThroughout(h: Hub, steps: seq<Step>, m: Name, id: Name)
    requires Possible(h, steps)
    decreases |steps|
  {
    Agrees(h, m, id) && (steps == [] || AgreesThroughout(Next(h, steps[0]), steps[1..], m, id))
  }

  /** Main result: over every run the notices, folded, give the very record the hub has of
      a terminal, exactly if no step of the run misleads. */
  lemma {:induction false} NoticesAgreeExactly(h: Hub, steps: seq<Step>, m: Name, id: Name)
    requires WellFormed(h) && Possible(h, steps) && Agrees(h, m, id)
    ensures AgreesThroughout(h, steps, m, id) <==> !MisleadsEver(h, steps, m, id)
    decreases |steps|
  {
    if steps != [] {
      var n := Next(h, steps[0]);
      NextAgreesExactly(h, steps[0], m, id);
      NextWellFormed(h, steps[0]);
      if Misleads(h, steps[0], m, id) {
        assert !AgreesThroughout(n, steps[1..], m, id);
      } else {
        NoticesAgreeExactly(n, steps[1..], m, id);
      }
    }
  }
}
