/** Exactly what each operation does to who holds a machine and who would get it back. */
module LeaseStash {
  import opened Basics
  import opened Leases
  import opened LeaseRuns

  predicate Held(w: World, u: Name, machine: Name, d: Name)
  {
    Holds(ModeOf(w.hub.modes, u), machine, d)
  }

  predicate Free(w: World, u: Name, machine: Name)
  {
    machine !in ModeOf(w.hub.modes, u).leases
  }

  predicate Stashed(w: World, u: Name, machine: Name, d: Name)
  {
    machine in Stash(ModeOf(w.hub.modes, u), d)
  }

  /** The timer takes the device's last registration. */
  predicate Expires(w: World, s: Step, u: Name, d: Name)
  {
    s.Fire? && s.user == u && s.device == d && Count(w.hub, u, d) == 1
  }

  /** Who holds a machine after a step. */
  predicate HeldAfter(w: World, s: Step, u: Name, machine: Name, d: Name)
  {
    match s
    case Open(v, e) => Held(w, u, machine, d) || (v == u && e == d && Stashed(w, u, machine, d) && Free(w, u, machine))
    case Fire(_, _, _) => Held(w, u, machine, d) && !Expires(w, s, u, d)
    case Request(v, m, e) => if v == u && m == machine then e == d else Held(w, u, machine, d)
    case Release(v, m, e) => Held(w, u, machine, d) && !(v == u && m == machine && e == d)
    case Remove(v, m) => Held(w, u, machine, d) && !(v == u && m == machine)
    case Shut(_, _) => Held(w, u, machine, d)
  }

  /** Which machines a device would get back after a step: coming back takes the whole
      stash, an expiry that frees something replaces it, a release or a removal takes
      one machine out, and only that. */
  predicate StashedAfter(w: World, s: Step, u: Name, machine: Name, d: Name)
  {
    match s
    case Open(v, e) => Stashed(w, u, machine, d) && !(v == u && e == d)
    case Fire(_, _, order) =>
      if Expires(w, s, u, d) && order != [] then Held(w, u, machine, d) else Stashed(w, u, machine, d)
    case Release(v, m, e) => Stashed(w, u, machine, d) && !(v == u && m == machine && e == d)
    case Remove(v, m) => Stashed(w, u, machine, d) && !(v == u && m == machine)
    case _ => Stashed(w, u, machine, d)
  }

  predicate Exactly(w: World, s: Step, u: Name, machine: Name, d: Name)
  {
    && (Held(Next(w, s), u, machine, d) <==> HeldAfter(w, s, u, machine, d))
    && (Stashed(Next(w, s), u, machine, d) <==> StashedAfter(w, s, u, machine, d))
  }

  lemma OpenExactly(w: World, v: Name, e: Name, u: Name, machine: Name, d: Name)
    ensures Exactly(w, Open(v, e), u, machine, d)
  {
    var m := ModeOf(w.hub.modes, v);
    GrantedAt(m.leases, Restorable(m.leases, Stash(m, e)), e);
  }

  lemma FireExactly(w: World, v: Name, e: Name, order: seq<Name>, u: Name, machine: Name, d: Name)
    requires Inv(w) && Enabled(w, Fire(v, e, order))
    ensures Exactly(w, Fire(v, e, order), u, machine, d)
  {
    assert Count(w.hub, v, e) == w.sockets[(v, e)] + w.timers[(v, e)];
    if v == u && u in w.hub.modes {
      var m := Unregistered(w.hub.modes[u], e, order).0;
      assert Holds(m, machine, d) <==> HeldAfter(w, Fire(v, e, order), u, machine, d);
      assert machine in Stash(m, d) <==> StashedAfter(w, Fire(v, e, order), u, machine, d);
    }
  }

  lemma ReleaseExactly(w: World, v: Name, x: Name, e: Name, u: Name, machine: Name, d: Name)
    ensures Exactly(w, Release(v, x, e), u, machine, d)
  {
    if v == u && u in w.hub.modes {
      var m := ReleasedControl(w.hub.modes[u], x, e).0;
      assert Holds(m, machine, d) <==> HeldAfter(w, Release(v, x, e), u, machine, d);
      assert machine in Stash(m, d) <==> StashedAfter(w, Release(v, x, e), u, machine, d);
    }
  }

  lemma RemoveExactly(w: World, v: Name, x: Name, u: Name, machine: Name, d: Name)
    ensures Exactly(w, Remove(v, x), u, machine, d)
  {
    if v == u && u in w.hub.modes {
      var m := Cleared(w.hub.modes[u], x);
      assert Holds(m, machine, d) <==> HeldAfter(w, Remove(v, x), u, machine, d);
      assert machine in Stash(m, d) <==> StashedAfter(w, Remove(v, x), u, machine, d);
    }
  }

  /** Main result: after any step, for every user, machine and device, it is exactly as
      said who holds the machine and whether the device would get it back. */
  lemma NextExactly(w: World, s: Step, u: Name, machine: Name, d: Name)
    requires Inv(w) && Enabled(w, s)
    ensures Exactly(w, s, u, machine, d)
  {
    match s
    case Open(v, e) => OpenExactly(w, v, e, u, machine, d);
    case Fire(v, e, order) => FireExactly(w, v, e, order, u, machine, d);
    case Release(v, x, e) => ReleaseExactly(w, v, x, e, u, machine, d);
    case Remove(v, x) => RemoveExactly(w, v, x, u, machine, d);
    case Request(_, _, _) =>
    case Shut(_, _) =>
  }

  /** The device comes back, expires again with something else, gives this machine up,
      or the machine is removed. */
  predicate Unstashes(w: World, s: Step, u: Name, machine: Name, d: Name)
  {
    || s == Open(u, d) || s == Release(u, machine, d) || s == Remove(u, machine)
    || (Expires(w, s, u, d) && s.order != [] && !Held(w, u, machine, d))
  }

  lemma StaysStashed(w: World, s: Step, u: Name, machine: Name, d: Name)
    requires Inv(w) && Enabled(w, s) && Stashed(w, u, machine, d)
    ensures Stashed(Next(w, s), u, machine, d) <==> !Unstashes(w, s, u, machine, d)
  {
    NextExactly(w, s, u, machine, d);
  }

  predicate UnstashesEver(w: World, steps: seq<Step>, u: Name, machine: Name, d: Name)
    decreases |steps|
  {
    steps != [] && (Unstashes(w, steps[0], u, machine, d) || UnstashesEver(Next(w, steps[0]), steps[1..], u, machine, d))
  }

  predicate StashedThroughout(w: World, steps: seq<Step>, u: Name, machine: Name, d: Name)
    decreases |steps|
  {
    Stashed(w, u, machine, d) && (steps == [] || StashedThroughout(Next(w, steps[0]), steps[1..], u, machine, d))
  }

  lemma Gone(w: World, steps: seq<Step>, u: Name, machine: Name, d: Name)
    requires !Stashed(w, u, machine, d)
    ensures !StashedThroughout(w, steps, u, machine, d)
  {
  }

  /** Main result: over every run, a machine stays in a device's stash exactly until one
      of those; whatever is released or removed of the others leaves it there. */
  lemma {:induction false} StashKeptExactly(w: World, steps: seq<Step>, u: Name, machine: Name, d: Name)
    requires Inv(w) && Possible(w, steps) && Stashed(w, u, machine, d)
    ensures StashedThroughout(w, steps, u, machine, d) <==> !UnstashesEver(w, steps, u, machine, d)
    decreases |steps|
  {
    if steps != [] {
      StaysStashed(w, steps[0], u, machine, d);
      NextKeeps(w, steps[0]);
      if Unstashes(w, steps[0], u, machine, d) {
        Gone(Next(w, steps[0]), steps[1..], u, machine, d);
      } else {
        StashKeptExactly(Next(w, steps[0]), steps[1..], u, machine, d);
      }
    }
  }
}
