/** Exactly what the browsers are told of each operation on the leases. */
module LeaseNews {
  import opened Basics
  import opened Leases
  import LeaseRuns
  import LeaseStash
  import opened LeasePublishing

  /** The event a step causes about one machine of one user, if any. */
  function NewsOf(w: LeaseRuns.World, s: LeaseRuns.Step, u: Name, machine: Name): seq<Entry>
  {
    match s
    case Open(v, d) =>
      if v == u && LeaseStash.Stashed(w, u, machine, d) && LeaseStash.Free(w, u, machine)
      then [Entry(u, ModeChanged(machine, Some(d)))] else []
    case Fire(v, d, _) =>
      if v == u && LeaseStash.Expires(w, s, u, d) && LeaseStash.Held(w, u, machine, d)
      then [Entry(u, ModeChanged(machine, None))] else []
    case Request(v, m, d) => if v == u && m == machine then [Entry(u, ModeChanged(machine, Some(d)))] else []
    case Release(v, m, d) =>
      if v == u && m == machine && LeaseStash.Held(w, u, machine, d) then [Entry(u, ModeChanged(machine, None))] else []
    case Remove(v, m) => if v == u && m == machine then [Entry(u, MachineRemoved(machine))] else []
    case Shut(_, _) => []
  }

  lemma {:induction false} OnlyTold(v: Name, machines: seq<Name>, controller: Option<Name>, u: Name, machine: Name)
    requires NoRepeats(machines)
    ensures Only(Tell(v, Changes(machines, controller)), u, machine)
            == if v == u && machine in machines then [Entry(u, ModeChanged(machine, controller))] else []
    decreases |machines|
  {
    var told := Tell(v, Changes(machines, controller));
    if machines != [] {
      assert told[1..] == Tell(v, Changes(machines[1..], controller));
      assert told[0] == Entry(v, ModeChanged(machines[0], controller));
      OnlyTold(v, machines[1..], controller, u, machine);
      assert machines[0] == machine ==> machine !in machines[1..];
      assert forall x :: x in machines <==> x == machines[0] || x in machines[1..];
    }
  }

  lemma {:induction false} RestorableOnce(leases: map<Name, Name>, stash: seq<Name>)
    requires NoRepeats(stash)
    ensures NoRepeats(Restorable(leases, stash))
  {
    if stash != [] {
      RestorableOnce(leases, stash[1..]);
      NoRepeatsCons(stash, Restorable(leases, stash[1..]));
    }
  }

  /** The news are what was appended. */
  lemma Appended(w: LeaseRuns.World, s: LeaseRuns.Step, more: seq<Entry>)
    requires LeaseRuns.Next(w, s).hub.log == w.hub.log + more
    ensures News(w, s) == more
  {
  }

  lemma OpenNews(w: LeaseRuns.World, v: Name, d: Name, u: Name, machine: Name)
    requires LeaseRuns.Inv(w)
    ensures Only(News(w, LeaseRuns.Open(v, d)), u, machine) == NewsOf(w, LeaseRuns.Open(v, d), u, machine)
  {
    var m := ModeOf(w.hub.modes, v);
    var restored := Restorable(m.leases, Stash(m, d));
    RestorableOnce(m.leases, Stash(m, d));
    Appended(w, LeaseRuns.Open(v, d), Tell(v, Changes(restored, Some(d))));
    OnlyTold(v, restored, Some(d), u, machine);
  }

  lemma FireNews(w: LeaseRuns.World, v: Name, d: Name, order: seq<Name>, u: Name, machine: Name)
    requires LeaseRuns.Inv(w) && LeaseRuns.Enabled(w, LeaseRuns.Fire(v, d, order))
    ensures Only(News(w, LeaseRuns.Fire(v, d, order)), u, machine) == NewsOf(w, LeaseRuns.Fire(v, d, order), u, machine)
  {
    var s := LeaseRuns.Fire(v, d, order);
    assert LeaseRuns.Count(w.hub, v, d) == w.sockets[(v, d)] + w.timers[(v, d)];
    if LeaseStash.Expires(w, s, v, d) {
      Appended(w, s, Tell(v, Changes(order, None)));
      OnlyTold(v, order, None, u, machine);
    } else {
      Appended(w, s, []);
    }
  }

  lemma ReleaseNews(w: LeaseRuns.World, v: Name, m: Name, d: Name, u: Name, machine: Name)
    ensures Only(News(w, LeaseRuns.Release(v, m, d)), u, machine) == NewsOf(w, LeaseRuns.Release(v, m, d), u, machine)
  {
    var s := LeaseRuns.Release(v, m, d);
    if LeaseStash.Held(w, v, m, d) {
      assert Tell(v, [ModeChanged(m, None)]) == [Entry(v, ModeChanged(m, None))];
      Appended(w, s, [Entry(v, ModeChanged(m, None))]);
      OnlyOne(Entry(v, ModeChanged(m, None)), u, machine);
    } else {
      Appended(w, s, []);
    }
  }

  /** Main result: in every reachable state, each operation tells each user exactly this
      of each machine, once: a restored lease, one that expired or was given back, a
      claim, a removal, and nothing of anything else. */
  lemma NewsExactly(w: LeaseRuns.World, s: LeaseRuns.Step, u: Name, machine: Name)
    requires LeaseRuns.Inv(w) && LeaseRuns.Enabled(w, s)
    ensures Only(News(w, s), u, machine) == NewsOf(w, s, u, machine)
  {
    match s
    case Open(v, d) => OpenNews(w, v, d, u, machine);
    case Fire(v, d, order) => FireNews(w, v, d, order, u, machine);
    case Release(v, m, d) => ReleaseNews(w, v, m, d, u, machine);
    case Request(v, m, d) =>
      Appended(w, s, [Entry(v, ModeChanged(m, Some(d)))]);
      OnlyOne(Entry(v, ModeChanged(m, Some(d))), u, machine);
    case Remove(v, m) =>
      Appended(w, s, [Entry(v, MachineRemoved(m))]);
      OnlyOne(Entry(v, MachineRemoved(m)), u, machine);
    case Shut(_, _) => Appended(w, s, []);
  }
}
