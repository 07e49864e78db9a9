/** What the hub knows about one terminal, and exactly which steps lose it. */
module TerminalCards {
  import opened Basics
  import opened Terminals
  import opened TerminalRuns

  /** Group, title and title source are the hub's own; the rest is the machine's. */
  datatype Card = Card(group: Option<Name>, title: string, source: Source)

  function CardOf(t: Info): Card { Card(t.group, t.title, t.source) }

  function Lookup(h: Hub, m: Name, id: Name): Option<Info>
  {
    if m in h.live && id in h.live[m].terminals then Some(h.live[m].terminals[id]) else Find(StashOf(h, m), id)
  }

  function Find(infos: seq<Info>, id: Name): Option<Info>
  {
    var i := IndexOf(infos, id);
    if i.None? then None else Some(infos[i.value])
  }

  predicate Has(t: Option<Info>, card: Card)
  {
    t.Some? && CardOf(t.value) == card
  }

  predicate Knows(h: Hub, m: Name, id: Name, card: Card)
  {
    Has(Lookup(h, m, id), card)
  }

  lemma FindAt(infos: seq<Info>, i: nat)
    requires DistinctIds(infos) && i < |infos|
    ensures Find(infos, infos[i].id) == Some(infos[i])
  {
    assert HasId(infos, infos[i].id);
  }

  // ----- which steps lose a card -----

  /** Putting a connection aside replaces the whole stash, unless it has no records. */
  predicate StashLoses(h: Hub, m: Name, id: Name)
  {
    m in h.live && h.live[m].terminals != map[] && id !in h.live[m].terminals
  }

  /** A report without a connection drops the stash. Otherwise a reported terminal gets
      the card it has in the stash, or else the reported one; one that is not reported
      stays only if it is live. */
  predicate ReportLoses(h: Hub, m: Name, infos: seq<Info>, id: Name, card: Card)
  {
    || m !in h.live
    || if !HasId(infos, id) then id !in h.live[m].terminals
       else if HasId(StashOf(h, m), id) then !Has(Find(StashOf(h, m), id), card)
       else !Has(Find(infos, id), card)
  }

  /** The step takes the card from the terminal. */
  predicate Loses(h: Hub, s: Step, m: Name, id: Name, card: Card)
  {
    match s
    case DoRegister(n, _) => n == m && StashLoses(h, m, id)
    case DoUnregister(n, c, _) => n == m && IsCurrent(h, m, c) && StashLoses(h, m, id)
    case DoReport(n, infos) => n == m && ReportLoses(h, m, infos, id, card)
    case DoAssign(n, x, group) => n == m && x == id && group != card.group
    case DoRetitle(n, x, title, source) =>
      n == m && x == id && m in h.live && id in h.live[m].terminals && (title, source) != (card.title, card.source)
    case DoCreate(n, x, title, _) => n == m && x == id && m in h.live && card != Card(None, title, Unset)
    case DoDestroy(n, x) =>
      n == m && x == id && m in h.live && id in h.live[m].terminals && !Has(Find(StashOf(h, m), id), card)
    case DoRemove(n) => n == m
  }

  lemma UnreachableCard(terminals: map<Name, Info>, order: seq<Name>, id: Name)
    requires Lists(terminals, order) && forall x | x in terminals :: terminals[x].id == x
    ensures var found := Find(Unreachable(terminals, order), id);
      && (found.Some? <==> id in terminals)
      && (id in terminals ==> found.value == terminals[id].(reachable := false))
  {
    var r := Unreachable(terminals, order);
    if HasId(r, id) {
      var k :| 0 <= k < |r| && r[k].id == id;
      assert order[k] in order;
    }
    if id in terminals {
      StashedValid(map[], "", Conn(0, terminals, true), order);
      var k :| 0 <= k < |order| && order[k] == id;
      assert r[k].id == id;
      FindAt(r, k);
    }
  }

  lemma ReconnectLosesExactly(h: Hub, s: Step, m: Name, id: Name, card: Card)
    requires WellFormed(h) && Enabled(h, s) && Knows(h, m, id, card) && (s.DoRegister? || s.DoUnregister?)
    ensures Knows(Next(h, s), m, id, card) <==> !Loses(h, s, m, id, card)
  {
    if s.machine == m && m in h.live && (s.DoUnregister? ==> IsCurrent(h, m, s.connId)) {
      UnreachableCard(h.live[m].terminals, s.order, id);
    }
  }

  /** What a report leaves a terminal with, when there is a connection. */
  lemma ReportedCard(h: Hub, m: Name, infos: seq<Info>, id: Name)
    requires WellFormed(h) && m in h.live && DistinctIds(infos) && HasId(infos, id)
    ensures var kept := Find(StashOf(h, m), id);
      Knows(Report(h, m, infos), m, id, if kept.Some? then CardOf(kept.value) else CardOf(Find(infos, id).value))
  {
    var k :| 0 <= k < |infos| && infos[k].id == id;
    FindAt(infos, k);
    var persisted := Insert(map[], StashOf(h, m));
    AdoptedLive(h.live[m].terminals, infos, persisted, k);
    PersistedFind(StashOf(h, m), id);
  }

  lemma PersistedFind(stash: seq<Info>, id: Name)
    requires DistinctIds(stash)
    ensures var persisted := Insert(map[], stash);
      Find(stash, id) == if id in persisted then Some(persisted[id]) else None
  {
    InsertKeeps(map[], stash);
  }

  lemma AdoptedLive(base: map<Name, Info>, infos: seq<Info>, persisted: map<Name, Info>, k: nat)
    requires DistinctIds(infos) && k < |infos|
    ensures var r := Insert(base, AdoptAll(infos, persisted));
      infos[k].id in r && r[infos[k].id] == Adopt(infos[k], persisted)
  {
    var adopted := AdoptAll(infos, persisted);
    AdoptDistinct(infos, persisted);
    InsertValues(base, adopted);
    assert adopted[k].id == infos[k].id;
  }

  lemma UnreportedCard(h: Hub, m: Name, infos: seq<Info>, id: Name)
    requires m in h.live && !HasId(infos, id)
    ensures Lookup(Report(h, m, infos), m, id)
            == if id in h.live[m].terminals then Some(h.live[m].terminals[id]) else None
  {
    var persisted := Insert(map[], StashOf(h, m));
    AdoptedIds(infos, persisted, id);
    InsertKeys(h.live[m].terminals, AdoptAll(infos, persisted));
  }

  lemma ReportLosesExactly(h: Hub, m: Name, infos: seq<Info>, id: Name, card: Card)
    requires WellFormed(h) && DistinctIds(infos) && Knows(h, m, id, card)
    ensures Knows(Report(h, m, infos), m, id, card) <==> !ReportLoses(h, m, infos, id, card)
  {
    if m in h.live {
      if HasId(infos, id) {
        ReportedCard(h, m, infos, id);
      } else {
        UnreportedCard(h, m, infos, id);
      }
    }
  }

  lemma OtherReport(h: Hub, m: Name, infos: seq<Info>, n: Name, id: Name)
    requires n != m
    ensures Lookup(Report(h, n, infos), m, id) == Lookup(h, m, id)
  {
  }

  lemma AssignedStash(h: Hub, m: Name, x: Name, group: Option<Name>, id: Name)
    requires WellFormed(h) && !(m in h.live && x in h.live[m].terminals)
    ensures var before, after := StashOf(h, m), StashOf(Assign(h, m, x, group).0, m);
      Find(after, id) == if x == id && HasId(before, id) then Some(Find(before, id).value.(group := group))
                         else Find(before, id)
  {
    var before, after := StashOf(h, m), StashOf(Assign(h, m, x, group).0, m);
    assert |before| == |after| && forall i | 0 <= i < |before| :: after[i].id == before[i].id;
    if HasId(before, id) {
      var k := IndexOf(before, id).value;
      assert after[k].id == id;
      assert DistinctIds(after);
      FindAt(after, k);
      FindAt(before, k);
    } else {
      assert !HasId(after, id);
    }
  }

  lemma AssignLosesExactly(h: Hub, n: Name, x: Name, group: Option<Name>, m: Name, id: Name, card: Card)
    requires WellFormed(h) && Knows(h, m, id, card)
    ensures Knows(Assign(h, n, x, group).0, m, id, card) <==> !(n == m && x == id && group != card.group)
  {
    if n == m && !(m in h.live && x in h.live[m].terminals) {
      AssignedStash(h, m, x, group, id);
    }
  }

  lemma OtherLosesExactly(h: Hub, s: Step, m: Name, id: Name, card: Card)
    requires WellFormed(h) && Knows(h, m, id, card)
    requires s.DoRetitle? || s.DoCreate? || s.DoDestroy? || s.DoRemove?
    ensures Knows(Next(h, s), m, id, card) <==> !Loses(h, s, m, id, card)
  {
  }

  /** One step, whenever it comes, takes the card from a terminal exactly if it is
      one that loses it. */
  lemma StepLosesExactly(h: Hub, s: Step, m: Name, id: Name, card: Card)
    requires WellFormed(h) && Enabled(h, s) && Knows(h, m, id, card)
    ensures Knows(Next(h, s), m, id, card) <==> !Loses(h, s, m, id, card)
  {
    match s
    case DoRegister(_, _) => ReconnectLosesExactly(h, s, m, id, card);
    case DoUnregister(_, _, _) => ReconnectLosesExactly(h, s, m, id, card);
    case DoReport(n, infos) =>
      if n == m { ReportLosesExactly(h, m, infos, id, card); } else { OtherReport(h, m, infos, n, id); }
    case DoAssign(n, x, group) => AssignLosesExactly(h, n, x, group, m, id, card);
    case _ => OtherLosesExactly(h, s, m, id, card);
  }

  predicate LosesEver(h: Hub, steps: seq<Step>, m: Name, id: Name, card: Card)
    requires Possible(h, steps)
    decreases |steps|
  {
    steps != [] && (Loses(h, steps[0], m, id, card) || LosesEver(Next(h, steps[0]), steps[1..], m, id, card))
  }

  predicate KnownThroughout(h: Hub, steps: seq<Step>, m: Name, id: Name, card: Card)
    requires Possible(h, steps)
    decreases |steps|
  {
    Knows(h, m, id, card) && (steps == [] || KnownThroughout(Next(h, steps[0]), steps[1..], m, id, card))
  }

  /** Main result: over any run, with reports and other messages however late, the
      hub keeps a terminal's workspace group and title exactly if no step is one
      that loses them. */
  lemma {:induction false} CardKeptExactly(h: Hub, steps: seq<Step>, m: Name, id: Name, card: Card)
    requires WellFormed(h) && Possible(h, steps) && Knows(h, m, id, card)
    ensures KnownThroughout(h, steps, m, id, card) <==> !LosesEver(h, steps, m, id, card)
    decreases |steps|
  {
    if steps != [] {
      var n := Next(h, steps[0]);
      StepLosesExactly(h, steps[0], m, id, card);
      NextWellFormed(h, steps[0]);
      if Loses(h, steps[0], m, id, card) {
        assert !KnownThroughout(n, steps[1..], m, id, card);
      } else {
        CardKeptExactly(n, steps[1..], m, id, card);
      }
    }
  }

  /** For a hub whose live records and stash are apart: a report, at any time and
      with or without a connection, leaves a known terminal its card exactly if there
      is a connection and the terminal is either reported, and stashed or reported
      with that card, or not reported and live. */
  lemma ReportKeepsCardExactly(h: Hub, m: Name, infos: seq<Info>, id: Name, card: Card)
    requires Valid(h) && DistinctIds(infos) && Knows(h, m, id, card)
    ensures Knows(Report(h, m, infos), m, id, card) <==>
            m in h.live && if HasId(infos, id) then HasId(StashOf(h, m), id) || Has(Find(infos, id), card)
                           else id in h.live[m].terminals
  {
    ReportLosesExactly(h, m, infos, id, card);
  }

  // ----- runs in which nothing comes late -----

  /** Does this step say something about the terminal, or end it? */
  predicate Touches(s: Step, m: Name, id: Name)
  {
    match s
    case DoAssign(n, x, _) => n == m && x == id
    case DoRetitle(n, x, _, _) => n == m && x == id
    case DoCreate(n, x, _, _) => n == m && x == id
    case DoDestroy(n, x) => n == m && x == id
    case DoReport(n, infos) => n == m && !HasId(infos, id)
    case DoRemove(n) => n == m
    case _ => false
  }

  lemma OnTimeKeeps(h: Hub, s: Step, m: Name, id: Name, card: Card)
    requires Valid(h) && Enabled(h, s) && OnTime(h, s) && Knows(h, m, id, card) && !Touches(s, m, id)
    ensures Knows(Next(h, s), m, id, card)
  {
    StepLosesExactly(h, s, m, id, card);
  }

  /** Main result: over any run in which nothing comes late and nobody reassigns,
      retitles, ends or forgets a terminal, the hub keeps its workspace group and
      title, however the machine's connections come, go and overlap. */
  lemma {:induction false} ReconnectsKeepGroupAndTitle(h: Hub, steps: seq<Step>, m: Name, id: Name, card: Card)
    requires Valid(h) && Possible(h, steps) && Punctual(h, steps) && Knows(h, m, id, card)
    requires forall i | 0 <= i < |steps| :: !Touches(steps[i], m, id)
    ensures Knows(Run(h, steps), m, id, card)
    decreases |steps|
  {
    if steps != [] {
      NextValidExactly(h, steps[0]);
      OnTimeKeeps(h, steps[0], m, id, card);
      assert forall i | 0 <= i < |steps| - 1 :: steps[1..][i] == steps[i + 1];
      ReconnectsKeepGroupAndTitle(Next(h, steps[0]), steps[1..], m, id, card);
    }
  }
}
