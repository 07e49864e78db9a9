/** Which attach's bytes go where (crates/hub/src/attach_router.rs). */
module Router {
  type Name = string
  type Sender = nat

  /** What a caller registered. */
  datatype Route = Route(machine: Name, terminal: Name, sender: Sender, compressed: bool, preview: bool)

  /** The router's four collections. */
  datatype Tables = Tables(
    senders: map<Name, Sender>, compressed: set<Name>, previews: set<Name>, terminals: map<Name, (Name, Name)>)

  datatype Step =
    | RegisterView(attach: Name, machine: Name, terminal: Name, sender: Sender, compressed: bool)
    | RegisterPreview(attach: Name, machine: Name, terminal: Name, sender: Sender)
    | Unregister(attach: Name)
    | DropMachine(machine: Name)

  function Dropped(t: Tables, machine: Name): set<Name>
  {
    set a | a in t.terminals && t.terminals[a].0 == machine
  }

  function Next(t: Tables, s: Step): Tables
  {
    match s
    case RegisterView(a, m, terminal, sender, c) =>
      t.(senders := t.senders[a := sender], compressed := if c then t.compressed + {a} else t.compressed,
         terminals := t.terminals[a := (m, terminal)])
    case RegisterPreview(a, m, terminal, sender) =>
      t.(senders := t.senders[a := sender], previews := t.previews + {a}, terminals := t.terminals[a := (m, terminal)])
    case Unregister(a) => Tables(t.senders - {a}, t.compressed - {a}, t.previews - {a}, t.terminals - {a})
    case DropMachine(m) =>
      var dropped := Dropped(t, m);
      t.(senders := t.senders - dropped, compressed := t.compressed - dropped, terminals := t.terminals - dropped)
  }

  /** What the callers mean by the same steps. */
  function Meant(routes: map<Name, Route>, s: Step): map<Name, Route>
  {
    match s
    case RegisterView(a, m, terminal, sender, c) => routes[a := Route(m, terminal, sender, c, false)]
    case RegisterPreview(a, m, terminal, sender) => routes[a := Route(m, terminal, sender, false, true)]
    case Unregister(a) => routes - {a}
    case DropMachine(m) => map a | a in routes && routes[a].machine != m :: routes[a]
  }

  /** The collections say of an attach what was meant of it. */
  predicate Agrees(t: Tables, routes: map<Name, Route>, a: Name)
  {
    && (a in t.senders <==> a in routes) && (a in t.terminals <==> a in routes)
    && (a in routes ==>
          && t.senders[a] == routes[a].sender && t.terminals[a] == (routes[a].machine, routes[a].terminal)
          && (a in t.compressed <==> routes[a].compressed) && (a in t.previews <==> routes[a].preview))
    && (a !in routes ==> a !in t.compressed)
  }

  ghost predicate Refines(t: Tables, routes: map<Name, Route>)
  {
    forall a :: Agrees(t, routes, a)
  }

  /** An attach id that left nothing behind. */
  predicate Clear(t: Tables, s: Step)
  {
    match s
    case RegisterView(a, _, _, _, c) => a !in t.previews && (a in t.compressed ==> c)
    case RegisterPreview(a, _, _, _) => a !in t.compressed
    case _ => true
  }

  /** Main result: a step keeps the collections in agreement with what the callers
      mean exactly if the id it registers left no trace. */
  lemma StepRefinesExactly(t: Tables, routes: map<Name, Route>, s: Step)
    requires Refines(t, routes)
    ensures Refines(Next(t, s), Meant(routes, s)) <==> Clear(t, s)
  {
    forall a | Clear(t, s) ensures Agrees(Next(t, s), Meant(routes, s), a) {
      assert Agrees(t, routes, a);
    }
    if (s.RegisterView? || s.RegisterPreview?) && !Clear(t, s) {
      assert !Agrees(Next(t, s), Meant(routes, s), s.attach);
    }
  }

  predicate Fresh(seen: set<Name>, steps: seq<Step>)
    decreases |steps|
  {
    steps == [] ||
    var s := steps[0];
    if s.RegisterView? || s.RegisterPreview? then s.attach !in seen && Fresh(seen + {s.attach}, steps[1..])
    else Fresh(seen, steps[1..])
  }

  function Run(t: Tables, steps: seq<Step>): Tables
    decreases |steps|
  {
    if steps == [] then t else Run(Next(t, steps[0]), steps[1..])
  }

  function MeantRun(routes: map<Name, Route>, steps: seq<Step>): map<Name, Route>
    decreases |steps|
  {
    if steps == [] then routes else MeantRun(Meant(routes, steps[0]), steps[1..])
  }

  /** With ids that are never used twice the router always means what was meant. */
  lemma {:induction false} FreshIdsRefine(t: Tables, routes: map<Name, Route>, seen: set<Name>, steps: seq<Step>)
    requires Refines(t, routes) && Fresh(seen, steps) && t.previews <= seen && t.compressed <= seen
    ensures Refines(Run(t, steps), MeantRun(routes, steps))
    decreases |steps|
  {
    if steps != [] {
      var s := steps[0];
      StepRefinesExactly(t, routes, s);
      var after := if s.RegisterView? || s.RegisterPreview? then seen + {s.attach} else seen;
      FreshIdsRefine(Next(t, s), Meant(routes, s), after, steps[1..]);
    }
  }

  function MainAttaches(t: Tables, machine: Name, terminal: Name): set<Name>
  {
    set a | a in t.terminals && t.terminals[a] == (machine, terminal) && a !in t.previews
  }

  /** Dropping a machine forgets its previews' senders but not that they were
      previews: an id used again for a full view is not resized with the window. */
  lemma DroppedPreviewsLinger(t: Tables, routes: map<Name, Route>, a: Name, machine: Name, terminal: Name, sender: Sender)
    requires Refines(t, routes) && a in routes && routes[a].preview && routes[a].machine == machine
    ensures var view := RegisterView(a, machine, terminal, sender, false);
      var dropped := Next(t, DropMachine(machine));
      && Refines(dropped, Meant(routes, DropMachine(machine)))
      && a !in MainAttaches(Next(dropped, view), machine, terminal)
      && a in MainAttaches(Next(Next(dropped, Unregister(a)), view), machine, terminal)
  {
    StepRefinesExactly(t, routes, DropMachine(machine));
    assert Agrees(t, routes, a);
  }

  // ----- what the collections can be trusted for -----

  /** The collections agree with the routes about every attach except, exactly,
      the doubtful ones; senders and terminals agree about all. */
  ghost predicate Trusted(t: Tables, routes: map<Name, Route>, doubtful: set<Name>)
  {
    && t.senders.Keys == t.terminals.Keys == routes.Keys && t.compressed <= routes.Keys
    && (forall a | a in routes ::
          t.senders[a] == routes[a].sender && t.terminals[a] == (routes[a].machine, routes[a].terminal))
    && (forall a :: Agrees(t, routes, a) <==> a !in doubtful)
  }

  function Doubted(t: Tables, routes: map<Name, Route>, doubtful: set<Name>, s: Step): set<Name>
  {
    match s
    case Unregister(a) => doubtful - {a}
    case DropMachine(m) => doubtful - Dropped(t, m)
    case _ => if Clear(t, s) then doubtful - {s.attach} else doubtful + {s.attach}
  }

  lemma StepTrusted(t: Tables, routes: map<Name, Route>, doubtful: set<Name>, s: Step)
    requires Trusted(t, routes, doubtful)
    ensures Trusted(Next(t, s), Meant(routes, s), Doubted(t, routes, doubtful, s))
  {
    var n, meant, d := Next(t, s), Meant(routes, s), Doubted(t, routes, doubtful, s);
    forall a ensures Agrees(n, meant, a) <==> a !in d {
      assert Agrees(t, routes, a) <==> a !in doubtful;
    }
  }

  class AttachRouter {
    var senders: map<Name, Sender>
    var compressed: set<Name>
    var previews: set<Name>
    var terminals: map<Name, (Name, Name)>
    ghost var routes: map<Name, Route>     // what the callers registered
    ghost var doubtful: set<Name>          // ids that were registered over a leftover mark

    function State(): Tables
      reads this
    {
      Tables(senders, compressed, previews, terminals)
    }

    ghost predicate Valid()
      reads this
    {
      Trusted(State(), routes, doubtful)
    }

    constructor ()
      ensures Valid() && routes == map[] && doubtful == {}
    {
      senders, compressed, previews, terminals := map[], {}, {}, map[];
      routes, doubtful := map[], {};
    }

    /** The id is routed as asked; it is doubtful from now on exactly if an earlier
        registration left a mark that contradicts this one. */
    method RegisterWithCompression(attach: Name, machine: Name, terminal: Name, sender: Sender, compress: bool)
      requires Valid()
      modifies this
      ensures Valid() && State() == Next(old(State()), RegisterView(attach, machine, terminal, sender, compress))
      ensures routes == old(routes)[attach := Route(machine, terminal, sender, compress, false)]
      ensures attach in doubtful <==> attach in old(previews) || (attach in old(compressed) && !compress)
      ensures doubtful - {attach} == old(doubtful) - {attach}
    {
      ghost var step := RegisterView(attach, machine, terminal, sender, compress);
      StepTrusted(State(), routes, doubtful, step);
      doubtful := Doubted(State(), routes, doubtful, step);
      routes := Meant(routes, step);
      senders := senders[attach := sender];
      if compress {
        compressed := compressed + {attach};
      }
      terminals := terminals[attach := (machine, terminal)];
    }

    method RegisterPreviewOf(attach: Name, machine: Name, terminal: Name, sender: Sender)
      requires Valid()
      modifies this
      ensures Valid() && State() == Next(old(State()), RegisterPreview(attach, machine, terminal, sender))
      ensures routes == old(routes)[attach := Route(machine, terminal, sender, false, true)]
      ensures attach in doubtful <==> attach in old(compressed)
      ensures doubtful - {attach} == old(doubtful) - {attach}
    {
      ghost var step := RegisterPreview(attach, machine, terminal, sender);
      StepTrusted(State(), routes, doubtful, step);
      doubtful := Doubted(State(), routes, doubtful, step);
      routes := Meant(routes, step);
      senders := senders[attach := sender];
      previews := previews + {attach};
      terminals := terminals[attach := (machine, terminal)];
    }

    /** Nothing is left of the id: however it is registered next, it is not doubtful. */
    method UnregisterAttach(attach: Name)
      requires Valid()
      modifies this
      ensures Valid() && State() == Next(old(State()), Unregister(attach))
      ensures routes == old(routes) - {attach} && doubtful == old(doubtful) - {attach}
      ensures forall s: Step | (s.RegisterView? || s.RegisterPreview?) && s.attach == attach :: Clear(State(), s)
    {
      StepTrusted(State(), routes, doubtful, Unregister(attach));
      doubtful := doubtful - {attach};
      routes := routes - {attach};
      senders := senders - {attach};
      compressed := compressed - {attach};
      previews := previews - {attach};
      terminals := terminals - {attach};
    }

    /** Exactly the machine's attaches are dropped; those that were previews are
        remembered as such. */
    method DropAll(machine: Name) returns (dropped: set<Name>)
      requires Valid()
      modifies this
      ensures Valid() && State() == Next(old(State()), DropMachine(machine))
      ensures forall a :: a in dropped <==> a in old(routes) && old(routes)[a].machine == machine
      ensures routes.Keys == old(routes).Keys - dropped && forall a | a in routes :: routes[a] == old(routes)[a]
      ensures previews == old(previews) && doubtful == old(doubtful) - dropped
    {
      ghost var before := State();
      StepTrusted(before, routes, doubtful, DropMachine(machine));
      dropped := set a | a in terminals && terminals[a].0 == machine;
      RemoveAll(dropped);
      doubtful := doubtful - dropped;
      routes := Meant(routes, DropMachine(machine));
      assert State() == Next(before, DropMachine(machine));
    }

    method RemoveAll(dropped: set<Name>)
      modifies this`compressed, this`senders, this`terminals
      ensures compressed == old(compressed) - dropped && senders == old(senders) - dropped
      ensures terminals == old(terminals) - dropped
    {
      var todo := dropped;
      while todo != {}
        invariant todo <= dropped
        invariant compressed == old(compressed) - (dropped - todo)
        invariant senders == old(senders) - (dropped - todo)
        invariant terminals == old(terminals) - (dropped - todo)
      {
        var attach :| attach in todo;
        compressed := compressed - {attach};
        senders := senders - {attach};
        terminals := terminals - {attach};
        todo := todo - {attach};
      }
      assert dropped - todo == dropped;
    }

    /** Right about every id that is not doubtful. */
    method IsCompressed(attach: Name) returns (r: bool)
      requires Valid()
      ensures attach !in doubtful ==> (r <==> attach in routes && routes[attach].compressed)
    {
      assert Agrees(State(), routes, attach) <==> attach !in doubtful;
      r := attach in compressed;
    }

    /** The full views of a terminal: every one that is not doubtful and no other. */
    method MainAttachesOf(machine: Name, terminal: Name) returns (r: set<Name>)
      requires Valid()
      ensures forall a | a !in doubtful ::
                a in r <==> a in routes && routes[a].machine == machine && routes[a].terminal == terminal
                            && !routes[a].preview
    {
      r := MainAttaches(State(), machine, terminal);
      forall a | a !in doubtful
        ensures a in r <==> a in routes && routes[a].machine == machine && routes[a].terminal == terminal
                            && !routes[a].preview
      {
        assert Agrees(State(), routes, a) <==> a !in doubtful;
      }
    }
  }
}
