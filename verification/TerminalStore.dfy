/** The machine and stash maps as the mutable object the hub keeps, proved
    against the operations of `Terminals`. */
module TerminalStore {
  import opened Basics
  import opened Terminals

  class Store {
    var live: map<Name, Conn>
    var stash: map<Name, seq<Info>>
    var nextConn: nat
    var log: seq<Event>

    function State(): Hub
      reads this
    {
      Hub(live, stash, nextConn, log)
    }

    constructor (persisted: map<Name, seq<Info>>)
      requires forall m | m in persisted :: persisted[m] != [] && DistinctIds(persisted[m])
      ensures State() == Hub(map[], persisted, 0, []) && Terminals.Valid(State())
    {
      live, stash, nextConn, log := map[], persisted, 0, [];
    }

    method RegisterMachine(machine: Name) returns (connId: nat, ghost order: seq<Name>)
      modifies this
      ensures machine in old(live) ==> Lists(old(live)[machine].terminals, order)
      ensures State() == Register(old(State()), machine, order)
      ensures IsCurrent(State(), machine, connId) && connId == old(nextConn)
    {
      order := [];
      if machine in live {
        var before := live[machine];
        if before.terminals != map[] {
          var keys := Keys(before.terminals);
          order := keys;
          stash := stash[machine := Unreachable(before.terminals, keys)];
        }
      }
      connId := nextConn;
      live := live[machine := Conn(connId, map[], false)];
      nextConn := nextConn + 1;
      log := log + [Online(machine)];
    }

    method UnregisterMachine(machine: Name, connId: nat) returns (ghost order: seq<Name>)
      modifies this
      ensures IsCurrent(old(State()), machine, connId) ==> Lists(old(live)[machine].terminals, order)
      ensures State() == Unregister(old(State()), machine, connId, order)
    {
      order := [];
      if machine !in live || live[machine].connId != connId {
        return;
      }
      var conn := live[machine];
      live := live - {machine};
      var keys := Keys(conn.terminals);
      order := keys;
      TellAway(machine, keys);
      if conn.terminals != map[] {
        stash := stash[machine := Unreachable(conn.terminals, keys)];
      }
      log := log + [Offline(machine)];
    }

    method TellAway(machine: Name, keys: seq<Name>)
      modifies this`log
      ensures log == old(log) + WentAway(machine, keys)
    {
      var i := 0;
      while i < |keys|
        invariant 0 <= i <= |keys|
        invariant log == old(log) + WentAway(machine, keys)[..i]
      {
        log := log + [ReachableChanged(machine, keys[i], false)];
        i := i + 1;
      }
      assert WentAway(machine, keys)[..i] == WentAway(machine, keys);
    }

    /** The `ExistingTerminals` arm. */
    method HandleReport(machine: Name, infos: seq<Info>)
      modifies this
      ensures State() == Report(old(State()), machine, infos)
    {
      var kept := TakeStash(machine);
      if machine in live {
        Reconcile(machine, kept, infos);
      }
    }

    method TakeStash(machine: Name) returns (kept: seq<Info>)
      modifies this`stash
      ensures kept == StashOf(old(State()), machine) && stash == old(stash) - {machine}
    {
      kept := if machine in stash then stash[machine] else [];
      stash := stash - {machine};
    }

    method Reconcile(machine: Name, kept: seq<Info>, infos: seq<Info>)
      requires machine in live
      modifies this`live, this`log
      ensures var persisted := Insert(map[], kept);
        && live == old(live)[machine := Conn(old(live)[machine].connId,
                                             Insert(old(live)[machine].terminals, AdoptAll(infos, persisted)), true)]
        && log == old(log) + (Arrivals(machine, AdoptAll(infos, persisted), persisted) + Departures(machine, kept, infos))
    {
      var persisted := ById(kept);
      var conn := live[machine];
      var terminals := AdoptReported(conn.terminals, machine, infos, persisted);
      live := live[machine := Conn(conn.connId, terminals, true)];
      TellDeparted(machine, kept, infos);
      Assoc(old(log), Arrivals(machine, AdoptAll(infos, persisted), persisted), Departures(machine, kept, infos));
    }

    /** First loop of the arm: adopt and announce each reported terminal. */
    method AdoptReported(before: map<Name, Info>, machine: Name, infos: seq<Info>, persisted: map<Name, Info>)
      returns (terminals: map<Name, Info>)
      modifies this`log
      ensures terminals == Insert(before, AdoptAll(infos, persisted))
      ensures log == old(log) + Arrivals(machine, AdoptAll(infos, persisted), persisted)
    {
      ghost var adopted := AdoptAll(infos, persisted);
      ghost var arrivals := Arrivals(machine, adopted, persisted);
      terminals := before;
      var i := 0;
      while i < |infos|
        invariant 0 <= i <= |infos|
        invariant terminals == Insert(before, adopted[..i])
        invariant log == old(log) + arrivals[..i]
      {
        var terminal := infos[i];
        if terminal.id in persisted {
          var known := persisted[terminal.id];
          terminal := terminal.(group := known.group, title := known.title, source := known.source);
        }
        assert terminal == adopted[i];
        InsertOne(before, adopted, i);
        OneMore(old(log), arrivals, i);
        terminals := terminals[terminal.id := terminal];
        log := log + [if terminal.id in persisted then ReachableChanged(machine, terminal.id, true)
                      else Event.Created(machine, terminal)];
        i := i + 1;
      }
      assert adopted[..i] == adopted && arrivals[..i] == arrivals;
    }

    /** Second loop of the arm: announce the stashed terminals that are gone. */
    method TellDeparted(machine: Name, kept: seq<Info>, infos: seq<Info>)
      modifies this`log
      ensures log == old(log) + Departures(machine, kept, infos)
    {
      ghost var before := log;
      var i := 0;
      while i < |kept|
        invariant 0 <= i <= |kept|
        invariant log + Departures(machine, kept[i..], infos) == before + Departures(machine, kept, infos)
      {
        ghost var rest := Departures(machine, kept[i + 1..], infos);
        assert kept[i..][1..] == kept[i + 1..];
        if HasId(infos, kept[i].id) {
          assert Departures(machine, kept[i..], infos) == [] + rest;
        } else {
          var gone := Event.Destroyed(machine, kept[i].id);
          assert log + ([gone] + rest) == (log + [gone]) + rest;
          log := log + [gone];
        }
        i := i + 1;
      }
      assert log + [] == log;
    }
  }

  lemma OneMore<T>(log: seq<T>, more: seq<T>, i: nat)
    requires i < |more|
    ensures (log + more[..i]) + [more[i]] == log + more[..i + 1]
  {
  }

  lemma InsertOne(base: map<Name, Info>, infos: seq<Info>, i: nat)
    requires i < |infos|
    ensures Insert(base, infos[..i + 1]) == Insert(base, infos[..i])[infos[i].id := infos[i]]
  {
    assert infos[..i + 1][..i] == infos[..i];
  }

  /** Collect a list into a map by id; a later entry wins. */
  method ById(infos: seq<Info>) returns (r: map<Name, Info>)
    ensures r == Insert(map[], infos)
  {
    r := map[];
    var i := 0;
    while i < |infos|
      invariant 0 <= i <= |infos|
      invariant r == Insert(map[], infos[..i])
    {
      InsertOne(map[], infos, i);
      r := r[infos[i].id := infos[i]];
      i := i + 1;
    }
    assert infos[..i] == infos;
  }

  /** The keys of a map, in whatever order it yields them. */
  method Keys(terminals: map<Name, Info>) returns (order: seq<Name>)
    ensures Lists(terminals, order)
  {
    order := [];
    var left := terminals.Keys;
    while left != {}
      invariant left <= terminals.Keys
      invariant forall x | x in order :: x in terminals && x !in left
      invariant forall x | x in terminals :: x in left || x in order
      invariant forall i, j | 0 <= i < j < |order| :: order[i] != order[j]
      decreases left
    {
      var x :| x in left;
      left := left - {x};
      order := order + [x];
    }
  }
}
