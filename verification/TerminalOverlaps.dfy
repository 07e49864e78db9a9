/** Connections of one machine that overlap: late disconnects, and runs in which
    something late takes a group or a title. */
module TerminalOverlaps {
  import opened Basics
  import opened Terminals
  import opened TerminalRuns
  import opened TerminalCards

  /** The connection has been replaced, and its id will not come back. */
  predicate Replaced(h: Hub, m: Name, connId: nat)
  {
    connId < h.nextConn && (m in h.live ==> h.live[m].connId > connId)
  }

  lemma NextReplaced(h: Hub, s: Step, m: Name, connId: nat)
    requires Enabled(h, s) && Replaced(h, m, connId)
    ensures Replaced(Next(h, s), m, connId)
  {
  }

  lemma {:induction false} RunReplaced(h: Hub, steps: seq<Step>, m: Name, connId: nat)
    requires Possible(h, steps) && Replaced(h, m, connId)
    ensures Replaced(Run(h, steps), m, connId)
    decreases |steps|
  {
    if steps != [] {
      NextReplaced(h, steps[0], m, connId);
      RunReplaced(Next(h, steps[0]), steps[1..], m, connId);
    }
  }

  /** Main result: once a connection has been replaced, its disconnect changes
      nothing, however late it is noticed and whatever happens in between. */
  lemma StaleDisconnectIsIgnored(h: Hub, m: Name, again: seq<Name>, steps: seq<Step>, order: seq<Name>)
    requires WellFormed(h) && m in h.live && Lists(h.live[m].terminals, again)
    requires Possible(Register(h, m, again), steps)
    ensures var n := Run(Register(h, m, again), steps);
      !IsCurrent(n, m, h.live[m].connId) && Unregister(n, m, h.live[m].connId, order) == n
  {
    RunReplaced(Register(h, m, again), steps, m, h.live[m].connId);
  }

  // ----- runs that lose a card -----

  lemma {:induction false} RunThen(h: Hub, steps: seq<Step>, s: Step)
    requires Possible(h, steps) && Enabled(Run(h, steps), s)
    ensures Possible(h, steps + [s]) && Run(h, steps + [s]) == Next(Run(h, steps), s)
    decreases |steps|
  {
    if steps == [] {
      assert [s][1..] == [];
      assert Possible(Next(h, s), []);
      assert Run(Next(h, s), []) == Next(h, s);
      assert steps + [s] == [s];
    } else {
      RunThen(Next(h, steps[0]), steps[1..], s);
      assert (steps + [s])[1..] == steps[1..] + [s];
    }
  }

  /** A machine connects, reports a terminal, and the terminal is given a group. */
  function Grouped(m: Name, t: Info, group: Name): seq<Step>
  {
    [] + [DoRegister(m, [])] + [DoReport(m, [t])] + [DoAssign(m, t.id, Some(group))]
  }

  function GroupedCard(t: Info, group: Name): Card { Card(Some(group), t.title, t.source) }

  /** The one record of the one machine, live on the first connection. */
  predicate OnlyLive(h: Hub, m: Name, t: Info)
  {
    && WellFormed(h) && h.live.Keys == {m} && m !in h.stash && h.nextConn == 1
    && h.live[m].terminals == map[t.id := t]
  }

  lemma GroupedRun(h: Hub, m: Name, t: Info, group: Name)
    requires h == Hub(map[], map[], 0, [])
    ensures Possible(h, Grouped(m, t, group))
    ensures OnlyLive(Run(h, Grouped(m, t, group)), m, t.(group := Some(group)))
  {
    assert Possible(h, []) && Run(h, []) == h;
    RunThen(h, [], DoRegister(m, []));
    var h1 := Run(h, [] + [DoRegister(m, [])]);
    assert h1.live[m] == Conn(0, map[], false) && m !in h1.stash;
    RunThen(h, [] + [DoRegister(m, [])], DoReport(m, [t]));
    FirstReport(h1, m, t);
    RunThen(h, [] + [DoRegister(m, [])] + [DoReport(m, [t])], DoAssign(m, t.id, Some(group)));
  }

  lemma FirstReport(h: Hub, m: Name, t: Info)
    requires m in h.live && h.live[m].terminals == map[] && m !in h.stash
    ensures Report(h, m, [t]).live[m].terminals == map[t.id := t]
    ensures m !in Report(h, m, [t]).stash
  {
    var persisted := Insert(map[], []);
    assert AdoptAll([t], persisted) == [t];
    assert [t][..0] == [];
  }

  /** The machine connects again before the first connection is gone. */
  lemma Replace(h: Hub, m: Name, t: Info)
    requires OnlyLive(h, m, t)
    ensures Enabled(h, DoRegister(m, [t.id]))
    ensures var n := Register(h, m, [t.id]);
      && WellFormed(n) && n.live.Keys == {m} && n.live[m] == Conn(1, map[], false) && n.nextConn == 2
      && m in n.stash && n.stash[m] == [t.(reachable := false)]
  {
    assert Lists(h.live[m].terminals, [t.id]) by {
      assert [t.id][0] == t.id;
    }
    assert t.id in h.live[m].terminals;
    NextWellFormed(h, DoRegister(m, [t.id]));
  }

  lemma OnlyStashed(h: Hub, m: Name, t: Info)
    requires m in h.stash && h.stash[m] == [t] && (m in h.live ==> t.id !in h.live[m].terminals)
    ensures Lookup(h, m, t.id) == Some(t)
  {
    assert h.stash[m][0].id == t.id;
  }

  /** And once more, before the second connection's report has been handled. */
  function ReplacedTwice(m: Name, t: Info, group: Name): seq<Step>
  {
    Grouped(m, t, group) + [DoRegister(m, [t.id])] + [DoRegister(m, [])]
  }

  lemma ReplacedTwiceRun(h: Hub, m: Name, t: Info, group: Name)
    requires h == Hub(map[], map[], 0, [])
    ensures Possible(h, ReplacedTwice(m, t, group))
    ensures var n := Run(h, ReplacedTwice(m, t, group));
      && WellFormed(n) && n.live.Keys == {m} && n.live[m] == Conn(2, map[], false)
      && m in n.stash && n.stash[m] == [t.(group := Some(group), reachable := false)]
  {
    GroupedRun(h, m, t, group);
    Replace(Run(h, Grouped(m, t, group)), m, t.(group := Some(group)));
    RunThen(h, Grouped(m, t, group), DoRegister(m, [t.id]));
    RunThen(h, Grouped(m, t, group) + [DoRegister(m, [t.id])], DoRegister(m, []));
    RunWellFormed(h, ReplacedTwice(m, t, group));
  }

  /** The third connection reports, and the group is kept; then the report of the
      second one, which has been replaced, is handled and takes it back. */
  lemma LateReportTakesBack(h: Hub, steps: seq<Step>, m: Name, t: Info, group: Name)
    requires h == Hub(map[], map[], 0, []) && t.group != Some(group)
    requires steps == ReplacedTwice(m, t, group) + [DoReport(m, [t])]
    ensures Possible(h, steps) && Knows(Run(h, steps), m, t.id, GroupedCard(t, group))
    ensures Enabled(Run(h, steps), DoReport(m, [t]))
    ensures !Knows(Next(Run(h, steps), DoReport(m, [t])), m, t.id, GroupedCard(t, group))
  {
    ReplacedTwiceRun(h, m, t, group);
    var before := Run(h, ReplacedTwice(m, t, group));
    OnlyStashed(before, m, t.(group := Some(group), reachable := false));
    RunThen(h, ReplacedTwice(m, t, group), DoReport(m, [t]));
    NextWellFormed(before, DoReport(m, [t]));
    assert [t][0].id == t.id;
    StepLosesExactly(before, DoReport(m, [t]), m, t.id, GroupedCard(t, group));
    StepLosesExactly(Run(h, steps), DoReport(m, [t]), m, t.id, GroupedCard(t, group));
  }

  /** The third connection goes before it has reported; then the report of the second
      one finds no connection, and drops all that was kept. */
  lemma LateReportDropsStash(h: Hub, steps: seq<Step>, m: Name, t: Info, group: Name)
    requires h == Hub(map[], map[], 0, [])
    requires steps == ReplacedTwice(m, t, group) + [DoUnregister(m, 2, [])]
    ensures Possible(h, steps) && Knows(Run(h, steps), m, t.id, GroupedCard(t, group))
    ensures Enabled(Run(h, steps), DoReport(m, [t]))
    ensures Lookup(Next(Run(h, steps), DoReport(m, [t])), m, t.id).None?
  {
    ReplacedTwiceRun(h, m, t, group);
    RunThen(h, ReplacedTwice(m, t, group), DoUnregister(m, 2, []));
    OnlyStashed(Run(h, steps), m, t.(group := Some(group), reachable := false));
  }

  /** A terminal that the replaced connection had created is recorded late, under the
      new connection; when that disconnects before it has reported, its records
      replace all that was kept. */
  lemma LateCreateReplacesStash(h: Hub, steps: seq<Step>, m: Name, t: Info, group: Name, other: Name)
    requires h == Hub(map[], map[], 0, []) && other != t.id
    requires steps == Grouped(m, t, group) + [DoRegister(m, [t.id])] + [DoCreate(m, other, "", "")]
    ensures Possible(h, steps) && Knows(Run(h, steps), m, t.id, GroupedCard(t, group))
    ensures Enabled(Run(h, steps), DoUnregister(m, 1, [other]))
    ensures Lookup(Next(Run(h, steps), DoUnregister(m, 1, [other])), m, t.id).None?
  {
    var first := Grouped(m, t, group);
    var named := t.(group := Some(group));
    GroupedRun(h, m, t, group);
    var h3 := Run(h, first);
    Replace(h3, m, named);
    RunThen(h, first, DoRegister(m, [t.id]));
    var h4 := Next(h3, DoRegister(m, [t.id]));
    RunThen(h, first + [DoRegister(m, [t.id])], DoCreate(m, other, "", ""));
    var h5 := Next(h4, DoCreate(m, other, "", ""));
    OnlyStashed(h5, m, named.(reachable := false));
    assert Lists(h5.live[m].terminals, [other]) by {
      assert [other][0] == other;
    }
    UnreachableCard(h5.live[m].terminals, [other], t.id);
  }
}
