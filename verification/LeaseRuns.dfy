/** Control leases over whole runs: event sockets that open and close, grace
    timers that fire late or never, and devices that claim and release. */
module LeaseRuns {
  import opened Leases

  /** The hub with the event sockets and the grace timers that are under way. */
  datatype World = World(
    hub: Hub,
    sockets: multiset<(Name, Name)>,   // (user, device), one per open event socket
    timers: multiset<(Name, Name)>)    // (user, device), one per scheduled cleanup

  function Initial(): World { World(Hub(map[], []), multiset{}, multiset{}) }

  datatype Step =
    | Open(user: Name, device: Name)
    | Shut(user: Name, device: Name)
    | Fire(user: Name, device: Name, order: seq<Name>)
    | Request(user: Name, machine: Name, device: Name)
    | Release(user: Name, machine: Name, device: Name)
    | Remove(user: Name, machine: Name)

  /** Can this step happen now? A socket that shuts was open, a timer that fires
      was running, and the cleanup visits each held lease once. */
  ghost predicate Enabled(w: World, s: Step)
  {
    match s
    case Shut(u, d) => (u, d) in w.sockets
    case Fire(u, d, order) => (u, d) in w.timers && ListsHeld(ModeOf(w.hub.modes, u), d, order)
    case _ => true
  }

  function Next(w: World, s: Step): World
  {
    match s
    case Open(u, d) => w.(hub := RegisterDevice(w.hub, u, d), sockets := w.sockets + multiset{(u, d)})
    case Shut(u, d) => w.(sockets := w.sockets - multiset{(u, d)}, timers := w.timers + multiset{(u, d)})
    case Fire(u, d, order) =>
      w.(hub := UnregisterDevice(w.hub, u, d, order), timers := w.timers - multiset{(u, d)})
    case Request(u, m, d) => w.(hub := RequestControl(w.hub, u, m, d))
    case Release(u, m, d) => w.(hub := ReleaseControl(w.hub, u, m, d))
    case Remove(u, m) => w.(hub := RemoveMachine(w.hub, u, m))
  }

  ghost predicate Possible(w: World, steps: seq<Step>)
    decreases |steps|
  {
    steps == [] || (Enabled(w, steps[0]) && Possible(Next(w, steps[0]), steps[1..]))
  }

  function Run(w: World, steps: seq<Step>): World
    decreases |steps|
  {
    if steps == [] then w else Run(Next(w, steps[0]), steps[1..])
  }

  function Count(h: Hub, user: Name, device: Name): nat
  {
    var m := ModeOf(h.modes, user);
    if device in m.connected then m.connected[device] else 0
  }

  /** The reference counts are the open sockets plus the pending timers. */
  ghost predicate Counted(w: World)
  {
    forall u: Name, d: Name :: Count(w.hub, u, d) == w.sockets[(u, d)] + w.timers[(u, d)]
  }

  ghost predicate Inv(w: World) { Valid(w.hub) && Counted(w) }

  lemma CountStore(h: Hub, user: Name, m: Mode, log: seq<Entry>, u: Name, d: Name)
    ensures Count(Hub(Store(h.modes, user, m), log), u, d)
            == if u == user then (if d in m.connected then m.connected[d] else 0) else Count(h, u, d)
  {
  }

  lemma FireKeeps(w: World, u: Name, d: Name, order: seq<Name>)
    requires Inv(w) && Enabled(w, Fire(u, d, order))
    ensures Inv(Next(w, Fire(u, d, order)))
  {
    UnregisterValid(w.hub, u, d, order);
    assert Count(w.hub, u, d) > 0;
    var n := Next(w, Fire(u, d, order));
    forall v: Name, e: Name ensures Count(n.hub, v, e) == n.sockets[(v, e)] + n.timers[(v, e)] {
      CountStore(w.hub, u, Unregistered(w.hub.modes[u], d, order).0, n.hub.log, v, e);
      assert Count(w.hub, v, e) == w.sockets[(v, e)] + w.timers[(v, e)];
    }
  }

  lemma ReleaseKeeps(w: World, u: Name, m: Name, d: Name)
    requires Inv(w)
    ensures Inv(Next(w, Release(u, m, d)))
  {
    ReleaseValid(w.hub, u, m, d);
    var n := Next(w, Release(u, m, d));
    forall v: Name, e: Name ensures Count(n.hub, v, e) == Count(w.hub, v, e) {
      if u in w.hub.modes {
        CountStore(w.hub, u, ReleasedControl(w.hub.modes[u], m, d).0, n.hub.log, v, e);
      }
    }
  }

  lemma RemoveKeeps(w: World, u: Name, m: Name)
    requires Inv(w)
    ensures Inv(Next(w, Remove(u, m)))
  {
    RemoveValid(w.hub, u, m);
    var n := Next(w, Remove(u, m));
    forall v: Name, e: Name ensures Count(n.hub, v, e) == Count(w.hub, v, e) {
      if u in w.hub.modes {
        CountStore(w.hub, u, Cleared(w.hub.modes[u], m), n.hub.log, v, e);
      }
    }
  }

  lemma CountRegister(h: Hub, u: Name, d: Name, v: Name, e: Name)
    ensures Count(RegisterDevice(h, u, d), v, e) == Count(h, v, e) + if v == u && e == d then 1 else 0
  {
  }

  lemma OpenKeeps(w: World, u: Name, d: Name)
    requires Inv(w)
    ensures Inv(Next(w, Open(u, d)))
  {
    RegisterValid(w.hub, u, d);
    var n := Next(w, Open(u, d));
    forall v: Name, e: Name ensures Count(n.hub, v, e) == n.sockets[(v, e)] + n.timers[(v, e)] {
      CountRegister(w.hub, u, d, v, e);
      assert n.sockets[(v, e)] == w.sockets[(v, e)] + if (v, e) == (u, d) then 1 else 0;
    }
  }

  lemma NextKeeps(w: World, s: Step)
    requires Inv(w) && Enabled(w, s)
    ensures Inv(Next(w, s))
  {
    match s
    case Open(u, d) => OpenKeeps(w, u, d);
    case Shut(u, d) =>
    case Fire(u, d, order) => FireKeeps(w, u, d, order);
    case Request(u, m, d) =>
      RequestValid(w.hub, u, m, d);
      forall v: Name, e: Name ensures Count(Next(w, s).hub, v, e) == Count(w.hub, v, e) {}
    case Release(u, m, d) => ReleaseKeeps(w, u, m, d);
    case Remove(u, m) => RemoveKeeps(w, u, m);
  }

  /** Main result: in every run the counts are exact, no device is connected and
      stashed at once, no entry or stash is empty, and the lease events of every
      user fold to exactly that user's leases. */
  lemma {:induction false} RunKeeps(w: World, steps: seq<Step>)
    requires Inv(w) && Possible(w, steps)
    ensures Inv(Run(w, steps))
    decreases |steps|
  {
    if steps != [] {
      NextKeeps(w, steps[0]);
      RunKeeps(Next(w, steps[0]), steps[1..]);
    }
  }

  lemma InitialInv()
    ensures Inv(Initial())
  {
  }

  /** A timer takes leases away only when it is the last thing that keeps the
      device registered; it then takes exactly that device's leases, stashes
      them, and overwrites no earlier stash. Any other timer is silent. */
  lemma TimerReleasesOnlyTheLast(w: World, u: Name, d: Name, order: seq<Name>)
    requires Inv(w) && Enabled(w, Fire(u, d, order))
    ensures var before, after := ModeOf(w.hub.modes, u), ModeOf(Next(w, Fire(u, d, order)).hub.modes, u);
            if w.sockets[(u, d)] == 0 && w.timers[(u, d)] == 1
            then after.leases == (map x | x in before.leases && before.leases[x] != d :: before.leases[x])
                 && d !in before.released
                 && after.released == if order == [] then before.released else before.released[d := order]
            else after.leases == before.leases && after.released == before.released
                 && Next(w, Fire(u, d, order)).hub.log == w.hub.log
  {
    var m := ModeOf(w.hub.modes, u);
    assert Count(w.hub, u, d) == w.sockets[(u, d)] + w.timers[(u, d)];
    if m.connected[d] > 1 {
      assert w.hub.log + Tell(u, []) == w.hub.log;
    } else {
      LastRegistrationGoes(m, d, order);
    }
  }

  lemma LastRegistrationGoes(m: Mode, d: Name, order: seq<Name>)
    requires ListsHeld(m, d, order) && d in m.connected && m.connected[d] <= 1
    ensures var n := Unregistered(m, d, order).0;
      && n.leases == (map x | x in m.leases && m.leases[x] != d :: m.leases[x])
      && n.released == if order == [] then m.released else m.released[d := order]
  {
    var n := Unregistered(m, d, order).0;
    var kept := map x | x in m.leases && m.leases[x] != d :: m.leases[x];
    assert n.leases.Keys == kept.Keys;
  }

  /** A device that is back before its timer fires loses nothing, and nobody is
      told anything when the timer does fire. */
  lemma ReconnectWithinGrace(w: World, u: Name, d: Name, order: seq<Name>)
    requires Inv(w) && (u, d) in w.timers
    requires Enabled(Next(w, Open(u, d)), Fire(u, d, order))
    ensures var back := Next(w, Open(u, d));
            var after := Next(back, Fire(u, d, order));
            ModeOf(after.hub.modes, u).leases == ModeOf(w.hub.modes, u).leases && after.hub.log == w.hub.log
  {
    var back := Next(w, Open(u, d));
    NextKeeps(w, Open(u, d));
    var m := ModeOf(w.hub.modes, u);
    assert Count(w.hub, u, d) > 0;
    assert Restorable(m.leases, Stash(m, d)) == [];
    assert w.hub.log + Tell(u, []) == w.hub.log;
    assert Granted(m.leases, [], d) == m.leases;
    TimerReleasesOnlyTheLast(back, u, d, order);
  }

  /** Opening a socket makes the device hold a machine exactly when it held it
      already or has it stashed while nobody holds it now. */
  lemma RestoreExactly(w: World, u: Name, d: Name, machine: Name)
    requires Inv(w)
    ensures var before := ModeOf(w.hub.modes, u);
            Holds(ModeOf(Next(w, Open(u, d)).hub.modes, u), machine, d)
            <==> Holds(before, machine, d) || (machine in Stash(before, d) && machine !in before.leases)
  {
    var m := ModeOf(w.hub.modes, u);
    GrantedAt(m.leases, Restorable(m.leases, Stash(m, d)), d);
  }

  lemma ClaimAndGiveBack(h: Hub, u: Name, d: Name, other: Name, machine: Name)
    requires d != other && machine in Stash(ModeOf(h.modes, u), d)
    ensures var m := ModeOf(ReleaseControl(RequestControl(h, u, machine, other), u, machine, other).modes, u);
            machine in Stash(m, d) && machine !in m.leases
  {
    var m := ModeOf(h.modes, u);
    var claimed := m.(leases := m.leases[machine := other]);
    assert RequestControl(h, u, machine, other).modes[u] == claimed;
    var given := ReleasedControl(claimed, machine, other).0;
    assert d in given.released && given.released[d] == m.released[d];
    assert !IsEmpty(given);
  }

  /** The restore looks at who holds the machine now, not at who held it since:
      another device may claim and give back in between, and the stash still
      brings the lease back. */
  lemma RestoreForgetsAClaimInBetween(w: World, u: Name, d: Name, other: Name, machine: Name)
    requires Inv(w) && d != other
    requires machine in Stash(ModeOf(w.hub.modes, u), d)
    ensures var steps := [Request(u, machine, other), Release(u, machine, other), Open(u, d)];
            Possible(w, steps) && Holds(ModeOf(Run(w, steps).hub.modes, u), machine, d)
  {
    ClaimAndGiveBack(w.hub, u, d, other, machine);
    NextKeeps(w, Request(u, machine, other));
    NextKeeps(Next(w, Request(u, machine, other)), Release(u, machine, other));
    var b := Next(Next(w, Request(u, machine, other)), Release(u, machine, other));
    RestoreExactly(b, u, d, machine);
    ThreeSteps(w, Request(u, machine, other), Release(u, machine, other), Open(u, d));
  }

  lemma ThreeSteps(w: World, a: Step, b: Step, c: Step)
    ensures Run(w, [a, b, c]) == Next(Next(Next(w, a), b), c)
    ensures Enabled(w, a) && Enabled(Next(w, a), b) && Enabled(Next(Next(w, a), b), c) ==> Possible(w, [a, b, c])
  {
    assert [a, b, c][1..] == [b, c] && [b, c][1..] == [c] && [c][1..] == [];
    var z := Next(Next(w, a), b);
    assert Run(z, [c]) == Run(Next(z, c), []);
    assert Possible(Next(z, c), []);
    assert Enabled(z, c) ==> Possible(z, [c]);
  }

  // ----- an explicit release -----

  /** The device neither holds the machine nor would get it back. */
  predicate LetGo(h: Hub, user: Name, machine: Name, device: Name)
  {
    var m := ModeOf(h.modes, user);
    !Holds(m, machine, device) && machine !in Stash(m, device)
  }

  lemma FireLetGo(w: World, v: Name, e: Name, order: seq<Name>, u: Name, machine: Name, d: Name)
    requires Enabled(w, Fire(v, e, order)) && LetGo(w.hub, u, machine, d)
    ensures LetGo(Next(w, Fire(v, e, order)).hub, u, machine, d)
  {
    if v == u && u in w.hub.modes {
      var m := Unregistered(w.hub.modes[u], e, order).0;
      assert !Holds(m, machine, d) && machine !in Stash(m, d);
    }
  }

  lemma OpenLetGo(w: World, v: Name, e: Name, u: Name, machine: Name, d: Name)
    requires LetGo(w.hub, u, machine, d)
    ensures LetGo(Next(w, Open(v, e)).hub, u, machine, d)
  {
    var m := ModeOf(w.hub.modes, v);
    GrantedAt(m.leases, Restorable(m.leases, Stash(m, e)), e);
  }

  lemma GiveUpLetGo(w: World, v: Name, other: Name, e: Name, u: Name, machine: Name, d: Name)
    requires LetGo(w.hub, u, machine, d)
    ensures LetGo(Next(w, Release(v, other, e)).hub, u, machine, d)
    ensures LetGo(Next(w, Remove(v, other)).hub, u, machine, d)
  {
    if v == u && u in w.hub.modes {
      var m := ReleasedControl(w.hub.modes[u], other, e).0;
      assert !Holds(m, machine, d) && machine !in Stash(m, d);
      var c := Cleared(w.hub.modes[u], other);
      assert !Holds(c, machine, d) && machine !in Stash(c, d);
    }
  }

  lemma NextLetGo(w: World, s: Step, u: Name, machine: Name, d: Name)
    requires Enabled(w, s) && LetGo(w.hub, u, machine, d) && s != Request(u, machine, d)
    ensures LetGo(Next(w, s).hub, u, machine, d)
  {
    match s
    case Open(v, e) => OpenLetGo(w, v, e, u, machine, d);
    case Shut(_, _) =>
    case Fire(v, e, order) => FireLetGo(w, v, e, order, u, machine, d);
    case Request(_, _, _) =>
    case Release(v, other, e) => GiveUpLetGo(w, v, other, e, u, machine, d);
    case Remove(v, other) => GiveUpLetGo(w, v, other, "", u, machine, d);
  }

  lemma {:induction false} RunLetGo(w: World, steps: seq<Step>, u: Name, machine: Name, d: Name)
    requires Possible(w, steps) && LetGo(w.hub, u, machine, d)
    requires Request(u, machine, d) !in steps
    ensures LetGo(Run(w, steps).hub, u, machine, d)
    decreases |steps|
  {
    if steps != [] {
      NextLetGo(w, steps[0], u, machine, d);
      RunLetGo(Next(w, steps[0]), steps[1..], u, machine, d);
    }
  }

  lemma ReleaseLetsGo(h: Hub, u: Name, machine: Name, d: Name)
    ensures LetGo(ReleaseControl(h, u, machine, d), u, machine, d)
  {
    if u in h.modes {
      var m := ReleasedControl(h.modes[u], machine, d).0;
      assert !Holds(m, machine, d) && machine !in Stash(m, d);
    }
  }

  /** Main result: after an explicit release, no disconnect, timer, reconnect,
      removal or claim by others gives the device the machine back. */
  lemma ReleaseIsNotUndone(w: World, steps: seq<Step>, u: Name, machine: Name, d: Name)
    requires Possible(Next(w, Release(u, machine, d)), steps)
    requires Request(u, machine, d) !in steps
    ensures !Holds(ModeOf(Run(Next(w, Release(u, machine, d)), steps).hub.modes, u), machine, d)
  {
    ReleaseLetsGo(w.hub, u, machine, d);
    RunLetGo(Next(w, Release(u, machine, d)), steps, u, machine, d);
  }
}
