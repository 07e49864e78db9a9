/** Terminal records across machine reconnects (crates/hub/src/machine_manager.rs):
    the live records of a connection, the stash kept while a machine is away, and
    the reconciliation when a machine reports what still exists. */
module Terminals {
  import opened Basics

  type Name = string

  datatype Source = FromOsc | FromProcess | Unset

  datatype Info = Info(id: Name, title: string, source: Source, group: Option<Name>, cwd: string, reachable: bool)

  /** `reported` records that this connection's report has been handled. */
  datatype Conn = Conn(connId: nat, terminals: map<Name, Info>, reported: bool)

  datatype Event =
    | Online(machine: Name)
    | Offline(machine: Name)
    | Removed(machine: Name)
    | ReachableChanged(machine: Name, terminal: Name, reachable: bool)
    | Created(machine: Name, info: Info)
    | Destroyed(machine: Name, terminal: Name)
    | Updated(machine: Name, info: Info)

  datatype Hub = Hub(live: map<Name, Conn>, stash: map<Name, seq<Info>>, nextConn: nat, log: seq<Event>)

  /** `order` lists the keys, each once, in whatever order the hash map yields. */
  predicate Lists(terminals: map<Name, Info>, order: seq<Name>)
  {
    && (forall x | x in order :: x in terminals)
    && (forall x | x in terminals :: x in order)
    && (forall i, j | 0 <= i < j < |order| :: order[i] != order[j])
  }

  function Unreachable(terminals: map<Name, Info>, order: seq<Name>): (r: seq<Info>)
    requires Lists(terminals, order)
    ensures |r| == |order|
    ensures forall i | 0 <= i < |order| :: r[i] == terminals[order[i]].(reachable := false)
  {
    seq(|order|, i requires 0 <= i < |order| => terminals[order[i]].(reachable := false))
  }

  /** Put a connection's terminals aside, unless it has none. */
  function Stashed(stash: map<Name, seq<Info>>, machine: Name, conn: Conn, order: seq<Name>): map<Name, seq<Info>>
    requires Lists(conn.terminals, order)
  {
    if conn.terminals == map[] then stash else stash[machine := Unreachable(conn.terminals, order)]
  }

  /** `register_machine_with_capabilities`; a connection it replaces is stashed. */
  function Register(h: Hub, machine: Name, order: seq<Name>): Hub
    requires machine in h.live ==> Lists(h.live[machine].terminals, order)
  {
    h.(live := h.live[machine := Conn(h.nextConn, map[], false)],
       stash := if machine in h.live then Stashed(h.stash, machine, h.live[machine], order) else h.stash,
       nextConn := h.nextConn + 1,
       log := h.log + [Online(machine)])
  }

  predicate IsCurrent(h: Hub, machine: Name, connId: nat)
  {
    machine in h.live && h.live[machine].connId == connId
  }

  function WentAway(machine: Name, order: seq<Name>): seq<Event>
  {
    seq(|order|, i requires 0 <= i < |order| => ReachableChanged(machine, order[i], false))
  }

  /** `unregister_machine`: only the current connection counts. */
  function Unregister(h: Hub, machine: Name, connId: nat, order: seq<Name>): Hub
    requires IsCurrent(h, machine, connId) ==> Lists(h.live[machine].terminals, order)
  {
    if !IsCurrent(h, machine, connId) then h
    else
      h.(live := h.live - {machine},
         stash := Stashed(h.stash, machine, h.live[machine], order),
         log := h.log + WentAway(machine, order) + [Offline(machine)])
  }

  // ----- reconciliation -----

  function Insert(base: map<Name, Info>, infos: seq<Info>): map<Name, Info>
  {
    if infos == [] then base
    else Insert(base, infos[..|infos| - 1])[infos[|infos| - 1].id := infos[|infos| - 1]]
  }

  function StashOf(h: Hub, machine: Name): seq<Info>
  {
    if machine in h.stash then h.stash[machine] else []
  }

  /** The hub's group and title win over what the machine reports. */
  function Adopt(t: Info, persisted: map<Name, Info>): Info
  {
    if t.id in persisted
    then t.(group := persisted[t.id].group, title := persisted[t.id].title, source := persisted[t.id].source)
    else t
  }

  function AdoptAll(infos: seq<Info>, persisted: map<Name, Info>): (r: seq<Info>)
    ensures |r| == |infos|
    ensures forall i | 0 <= i < |infos| :: r[i] == Adopt(infos[i], persisted)
  {
    seq(|infos|, i requires 0 <= i < |infos| => Adopt(infos[i], persisted))
  }

  function Arrivals(machine: Name, infos: seq<Info>, persisted: map<Name, Info>): (r: seq<Event>)
    ensures |r| == |infos|
    ensures forall i | 0 <= i < |infos| ::
              r[i] == if infos[i].id in persisted then ReachableChanged(machine, infos[i].id, true)
                      else Created(machine, infos[i])
  {
    seq(|infos|, i requires 0 <= i < |infos| =>
          if infos[i].id in persisted then ReachableChanged(machine, infos[i].id, true)
          else Created(machine, infos[i]))
  }

  predicate HasId(infos: seq<Info>, id: Name)
  {
    exists i | 0 <= i < |infos| :: infos[i].id == id
  }

  /** The stashed terminals the machine no longer has. */
  function Departures(machine: Name, stash: seq<Info>, reported: seq<Info>): seq<Event>
  {
    if stash == [] then []
    else (if HasId(reported, stash[0].id) then [] else [Event.Destroyed(machine, stash[0].id)])
         + Departures(machine, stash[1..], reported)
  }

  function ReportEvents(h: Hub, machine: Name, infos: seq<Info>): seq<Event>
  {
    var persisted := Insert(map[], StashOf(h, machine));
    Arrivals(machine, AdoptAll(infos, persisted), persisted) + Departures(machine, StashOf(h, machine), infos)
  }

  /** The `ExistingTerminals` arm. The stash is taken even without a connection. */
  function Report(h: Hub, machine: Name, infos: seq<Info>): Hub
  {
    var persisted := Insert(map[], StashOf(h, machine));
    var taken := h.(stash := h.stash - {machine});
    if machine !in h.live then taken
    else
      var conn := h.live[machine];
      taken.(live := h.live[machine := Conn(conn.connId, Insert(conn.terminals, AdoptAll(infos, persisted)), true)],
             log := h.log + ReportEvents(h, machine, infos))
  }

  // ----- the other messages -----

  function IndexOf(infos: seq<Info>, id: Name): (r: Option<nat>)
    ensures r.Some? ==> r.value < |infos| && infos[r.value].id == id
    ensures r.None? <==> !HasId(infos, id)
  {
    if infos == [] then None
    else if infos[0].id == id then Some(0)
    else
      var rest := IndexOf(infos[1..], id);
      assert forall i | 0 <= i < |infos| - 1 :: infos[1..][i] == infos[i + 1];
      assert rest.None? ==> forall i | 0 < i < |infos| :: infos[1..][i - 1] == infos[i];
      if rest.Some? then Some(rest.value + 1) else None
  }

  /** `set_terminal_workspace_group`: the live record first, then the stash. */
  function Assign(h: Hub, machine: Name, id: Name, group: Option<Name>): (Hub, bool)
  {
    if machine in h.live && id in h.live[machine].terminals then
      var conn := h.live[machine];
      var t := conn.terminals[id].(group := group);
      (h.(live := h.live[machine := conn.(terminals := conn.terminals[id := t])],
          log := h.log + [Updated(machine, t)]), true)
    else
      var i := IndexOf(StashOf(h, machine), id);
      if i.None? then (h, false)
      else
        var t := h.stash[machine][i.value].(group := group);
        (h.(stash := h.stash[machine := h.stash[machine][i.value := t]], log := h.log + [Updated(machine, t)]), true)
  }

  /** An accepted `TerminalTitle`; it reaches live records only. */
  function Retitle(h: Hub, machine: Name, id: Name, title: string, source: Source): Hub
  {
    if machine in h.live && id in h.live[machine].terminals then
      var conn := h.live[machine];
      var t := conn.terminals[id].(title := title, source := source);
      h.(live := h.live[machine := conn.(terminals := conn.terminals[id := t])],
         log := h.log + [Updated(machine, t)])
    else h
  }

  /** `TerminalCreated` */
  function Create(h: Hub, machine: Name, id: Name, title: string, cwd: string): Hub
  {
    if machine !in h.live then h
    else
      var conn := h.live[machine];
      var t := Info(id, title, Unset, None, cwd, true);
      h.(live := h.live[machine := conn.(terminals := conn.terminals[id := t])],
         log := h.log + [Event.Created(machine, t)])
  }

  /** `TerminalDestroyed` */
  function Destroy(h: Hub, machine: Name, id: Name): Hub
  {
    if machine !in h.live then h
    else
      var conn := h.live[machine];
      h.(live := h.live[machine := conn.(terminals := conn.terminals - {id})],
         log := h.log + [Event.Destroyed(machine, id)])
  }

  /** `remove_machine`, as far as terminals are concerned. */
  function Remove(h: Hub, machine: Name): Hub
  {
    h.(live := h.live - {machine}, stash := h.stash - {machine}, log := h.log + [Removed(machine)])
  }

  // ----- invariant -----

  predicate DistinctIds(infos: seq<Info>)
  {
    forall i, j | 0 <= i < j < |infos| :: infos[i].id != infos[j].id
  }

  /** No stash is empty or names a terminal twice, and records go by their own id. */
  predicate WellFormed(h: Hub)
  {
    && (forall m | m in h.stash :: h.stash[m] != [] && DistinctIds(h.stash[m]))
    && (forall m | m in h.live :: h.live[m].connId < h.nextConn)
    && (forall m | m in h.live :: forall x | x in h.live[m].terminals :: h.live[m].terminals[x].id == x)
  }

  /** Besides, a machine's live records and its stash are never both non-empty. */
  predicate Valid(h: Hub)
  {
    && WellFormed(h)
    && (forall m | m in h.live && m in h.stash :: h.live[m].terminals == map[] && !h.live[m].reported)
    && (forall m | m in h.live && !h.live[m].reported :: h.live[m].terminals == map[])
  }

  lemma {:induction false} InsertKeys(base: map<Name, Info>, infos: seq<Info>)
    ensures var r := Insert(base, infos);
            && (forall x :: x in r <==> x in base || HasId(infos, x))
            && (forall x | x in r && !HasId(infos, x) :: r[x] == base[x])
  {
    if infos != [] {
      InsertKeys(base, infos[..|infos| - 1]);
      forall x ensures HasId(infos, x) <==> HasId(infos[..|infos| - 1], x) || infos[|infos| - 1].id == x {
        HasIdLast(infos, x);
      }
    }
  }

  lemma {:induction false} InsertValues(base: map<Name, Info>, infos: seq<Info>)
    requires DistinctIds(infos)
    ensures var r := Insert(base, infos);
            forall i | 0 <= i < |infos| :: infos[i].id in r && r[infos[i].id] == infos[i]
  {
    if infos != [] {
      var fewer := infos[..|infos| - 1];
      assert DistinctIds(fewer);
      InsertValues(base, fewer);
      assert forall i | 0 <= i < |fewer| :: fewer[i] == infos[i];
    }
  }

  lemma {:induction false} InsertIds(base: map<Name, Info>, infos: seq<Info>)
    requires forall x | x in base :: base[x].id == x
    ensures forall x | x in Insert(base, infos) :: Insert(base, infos)[x].id == x
  {
    if infos != [] {
      InsertIds(base, infos[..|infos| - 1]);
    }
  }

  /** What a map holds after some records were inserted by id. */
  lemma InsertKeeps(base: map<Name, Info>, infos: seq<Info>)
    ensures var r := Insert(base, infos);
            && (forall x :: x in r <==> x in base || HasId(infos, x))
            && (forall x | x in r && !HasId(infos, x) :: r[x] == base[x])
            && (DistinctIds(infos) ==> forall i | 0 <= i < |infos| :: infos[i].id in r && r[infos[i].id] == infos[i])
            && ((forall x | x in base :: base[x].id == x) ==> forall x | x in r :: r[x].id == x)
  {
    InsertKeys(base, infos);
    if DistinctIds(infos) { InsertValues(base, infos); }
    if forall x | x in base :: base[x].id == x { InsertIds(base, infos); }
  }

  lemma HasIdLast(infos: seq<Info>, x: Name)
    requires infos != []
    ensures var n := |infos| - 1; HasId(infos, x) <==> HasId(infos[..n], x) || infos[n].id == x
  {
    var n := |infos| - 1;
    var fewer := infos[..n];
    if HasId(fewer, x) {
      var i :| 0 <= i < n && fewer[i].id == x;
      assert infos[i].id == x;
    }
    if HasId(infos, x) && infos[n].id != x {
      var i :| 0 <= i < |infos| && infos[i].id == x;
      assert fewer[i].id == x;
    }
  }
}
