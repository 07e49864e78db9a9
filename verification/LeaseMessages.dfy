/** Who is heard by a terminal (crates/hub/src/ws.rs, the inbound half of
    `handle_terminal_ws`, `client_message_allowed` and
    `client_message_claims_control`). */
module LeaseMessages {
  import opened Basics
  import opened Leases
  import LeaseRuns

  datatype ClientMessage = Input | CommandInput | TerminalResponse | Resize | ImagePaste | Composer

  /** A message that was let through; a socket without a user is a development one. */
  datatype Heard = Heard(user: Option<Name>, machine: Name, device: Name, msg: ClientMessage)

  datatype World = World(runs: LeaseRuns.World, heard: seq<Heard>)

  datatype Step =
    | Do(step: LeaseRuns.Step)
    | Receive(user: Option<Name>, machine: Name, device: Name, msg: ClientMessage)

  predicate Claims(msg: ClientMessage, device: Name, isController: bool, authenticated: bool)
  {
    !isController && authenticated && device != "" && (msg.Input? || msg.CommandInput? || msg.ImagePaste?)
  }

  predicate Allowed(msg: ClientMessage, device: Name, isController: bool, authenticated: bool)
  {
    if !authenticated then true
    else if device == "" then false
    else if msg.TerminalResponse? then true
    else isController
  }

  predicate Controls(h: Hub, user: Option<Name>, machine: Name, device: Name)
  {
    user.None? || Holds(ModeOf(h.modes, user.value), machine, device)
  }

  /** One message: a composer message needs control and claims none; any other
      one claims first, if it is of a kind that does, and is then let through or
      dropped. */
  function HandleMessage(h: Hub, user: Option<Name>, machine: Name, device: Name, msg: ClientMessage): (Hub, bool)
  {
    var control := Controls(h, user, machine, device);
    if msg.Composer? then (h, control && (user.None? || device != ""))
    else if Claims(msg, device, control, user.Some?) then
      (RequestControl(h, user.value, machine, device), Allowed(msg, device, true, true))
    else (h, Allowed(msg, device, control, user.Some?))
  }

  ghost predicate Enabled(w: World, s: Step)
  {
    s.Do? ==> LeaseRuns.Enabled(w.runs, s.step)
  }

  function Next(w: World, s: Step): World
  {
    match s
    case Do(step) => w.(runs := LeaseRuns.Next(w.runs, step))
    case Receive(user, machine, device, msg) =>
      var (hub, through) := HandleMessage(w.runs.hub, user, machine, device, msg);
      World(w.runs.(hub := hub), if through then w.heard + [Heard(user, machine, device, msg)] else w.heard)
  }

  ghost predicate Possible(w: World, steps: seq<Step>)
    decreases |steps|
  {
    steps == [] || (Enabled(w, steps[0]) && Possible(Next(w, steps[0]), steps[1..]))
  }

  function Run(w: World, steps: seq<Step>): World
    decreases |steps|
  {
    if steps == [] then w else Run(Next(w, steps[0]), steps[1..])
  }

  /** Exactly when a message of a user gets through, and what it does to leases. */
  lemma HeardExactly(h: Hub, user: Option<Name>, machine: Name, device: Name, msg: ClientMessage)
    ensures var (after, through) := HandleMessage(h, user, machine, device, msg);
      && (through <==>
            || user.None?
            || (device != "" && (msg.TerminalResponse? || msg.Input? || msg.CommandInput? || msg.ImagePaste?))
            || (device != "" && Controls(h, user, machine, device)))
      && (through && !msg.TerminalResponse? ==> Controls(after, user, machine, device))
      && (user.None? || msg.Resize? || msg.TerminalResponse? || msg.Composer? || device == "" ==> after == h)
  {
  }

  // ----- control over time -----

  predicate Types(msg: ClientMessage)
  {
    msg.Input? || msg.CommandInput? || msg.ImagePaste?
  }

  /** No other socket or timer keeps the device registered. */
  predicate LastOne(h: Hub, u: Name, d: Name)
  {
    var connected := ModeOf(h.modes, u).connected;
    d in connected && connected[d] <= 1
  }

  /** A timer finds that so exactly if no socket is open and no other timer runs. */
  lemma LastOneMeans(w: LeaseRuns.World, u: Name, d: Name)
    requires LeaseRuns.Inv(w) && (u, d) in w.timers
    ensures LastOne(w.hub, u, d) <==> w.sockets[(u, d)] == 0 && w.timers[(u, d)] == 1
  {
    assert LeaseRuns.Count(w.hub, u, d) == w.sockets[(u, d)] + w.timers[(u, d)];
  }

  /** What ends a device's control of a machine: another device claims it, by
      request or by typing, the device gives it up, its last registration expires,
      or the machine is removed. */
  predicate Ends(w: World, s: Step, u: Name, machine: Name, d: Name)
  {
    match s
    case Do(step) =>
      (match step
       case Request(v, m, e) => v == u && m == machine && e != d
       case Release(v, m, e) => v == u && m == machine && e == d
       case Fire(v, e, _) => v == u && e == d && LastOne(w.runs.hub, u, d)
       case Remove(v, m) => v == u && m == machine
       case _ => false)
    case Receive(user, m, e, msg) => user == Some(u) && m == machine && e != d && e != "" && Types(msg)
  }

  lemma OpenHolds(h: Hub, v: Name, e: Name, u: Name, machine: Name, d: Name)
    requires Holds(ModeOf(h.modes, u), machine, d)
    ensures Holds(ModeOf(RegisterDevice(h, v, e).modes, u), machine, d)
  {
    var m := ModeOf(h.modes, v);
    GrantedAt(m.leases, Restorable(m.leases, Stash(m, e)), e);
  }

  lemma FireHolds(h: Hub, v: Name, e: Name, order: seq<Name>, u: Name, machine: Name, d: Name)
    requires Holds(ModeOf(h.modes, u), machine, d) && ListsHeld(ModeOf(h.modes, v), e, order)
    ensures Holds(ModeOf(UnregisterDevice(h, v, e, order).modes, u), machine, d)
            <==> !(v == u && e == d && LastOne(h, u, d))
  {
    if v == u && u in h.modes {
      assert machine in order <==> e == d;
    }
  }

  lemma ReleaseHolds(h: Hub, v: Name, m: Name, e: Name, u: Name, machine: Name, d: Name)
    requires Holds(ModeOf(h.modes, u), machine, d)
    ensures Holds(ModeOf(ReleaseControl(h, v, m, e).modes, u), machine, d)
            <==> !(v == u && m == machine && e == d)
  {
    if v == u && u in h.modes {
      var n := ReleasedControl(h.modes[u], m, e).0;
      assert Holds(n, machine, d) <==> !(m == machine && e == d);
    }
  }

  lemma RemoveHolds(h: Hub, v: Name, m: Name, u: Name, machine: Name, d: Name)
    requires Holds(ModeOf(h.modes, u), machine, d)
    ensures Holds(ModeOf(RemoveMachine(h, v, m).modes, u), machine, d) <==> !(v == u && m == machine)
  {
    if v == u && u in h.modes {
      assert Holds(Cleared(h.modes[u], m), machine, d) <==> m != machine;
    }
  }

  /** One step leaves a device in control exactly if it is not one that ends it. */
  lemma NextHoldsExactly(w: World, s: Step, u: Name, machine: Name, d: Name)
    requires Enabled(w, s) && Holds(ModeOf(w.runs.hub.modes, u), machine, d)
    ensures Holds(ModeOf(Next(w, s).runs.hub.modes, u), machine, d) <==> !Ends(w, s, u, machine, d)
  {
    var h := w.runs.hub;
    match s
    case Do(step) =>
      match step {
        case Open(v, e) => OpenHolds(h, v, e, u, machine, d);
        case Fire(v, e, order) => FireHolds(h, v, e, order, u, machine, d);
        case Release(v, m, e) => ReleaseHolds(h, v, m, e, u, machine, d);
        case Remove(v, m) => RemoveHolds(h, v, m, u, machine, d);
        case _ =>
      }
    case Receive(user, m, e, msg) =>
  }

  /** A message of this user to this machine that is more than a terminal's answer. */
  predicate Steers(x: Heard, u: Name, machine: Name)
  {
    x.user == Some(u) && x.machine == machine && !x.msg.TerminalResponse?
  }

  lemma NextHeard(w: World, s: Step, u: Name, machine: Name, d: Name)
    requires Holds(ModeOf(w.runs.hub.modes, u), machine, d) && !Ends(w, s, u, machine, d)
    ensures w.heard <= Next(w, s).heard
    ensures forall x | x in Next(w, s).heard[|w.heard|..] && Steers(x, u, machine) :: x.device == d
  {
    if s.Receive? {
      HeardExactly(w.runs.hub, s.user, s.machine, s.device, s.msg);
    }
  }

  /** Some step of the run ends the device's control. */
  predicate EndsEver(w: World, steps: seq<Step>, u: Name, machine: Name, d: Name)
    decreases |steps|
  {
    steps != [] && (Ends(w, steps[0], u, machine, d) || EndsEver(Next(w, steps[0]), steps[1..], u, machine, d))
  }

  /** The device is in control in every state of the run. */
  predicate HoldsThroughout(w: World, steps: seq<Step>, u: Name, machine: Name, d: Name)
    decreases |steps|
  {
    && Holds(ModeOf(w.runs.hub.modes, u), machine, d)
    && (steps == [] || HoldsThroughout(Next(w, steps[0]), steps[1..], u, machine, d))
  }

  /** Main result: from the moment a device holds a machine it stays in control
      exactly until a step ends that; a drop and a return within the grace period,
      with the old timer firing after it, do not. */
  lemma {:induction false} ControlEndsExactly(w: World, steps: seq<Step>, u: Name, machine: Name, d: Name)
    requires Possible(w, steps) && Holds(ModeOf(w.runs.hub.modes, u), machine, d)
    ensures HoldsThroughout(w, steps, u, machine, d) <==> !EndsEver(w, steps, u, machine, d)
    decreases |steps|
  {
    if steps != [] {
      var n := Next(w, steps[0]);
      NextHoldsExactly(w, steps[0], u, machine, d);
      if !Ends(w, steps[0], u, machine, d) {
        ControlEndsExactly(n, steps[1..], u, machine, d);
      } else {
        assert !HoldsThroughout(n, steps[1..], u, machine, d);
      }
    }
  }

  /** Main result: until then, whatever else happens, nobody else's typing,
      resizing or composer message reaches the machine. */
  lemma {:induction false} ControlIsExclusive(w: World, steps: seq<Step>, u: Name, machine: Name, d: Name)
    requires Possible(w, steps) && Holds(ModeOf(w.runs.hub.modes, u), machine, d)
    requires !EndsEver(w, steps, u, machine, d)
    ensures var n := Run(w, steps);
      && Holds(ModeOf(n.runs.hub.modes, u), machine, d)
      && w.heard <= n.heard
      && (forall x | x in n.heard[|w.heard|..] && Steers(x, u, machine) :: x.device == d)
    decreases |steps|
  {
    if steps != [] {
      var n := Next(w, steps[0]);
      NextHoldsExactly(w, steps[0], u, machine, d);
      NextHeard(w, steps[0], u, machine, d);
      ControlIsExclusive(n, steps[1..], u, machine, d);
      var r := Run(w, steps);
      assert r.heard[|w.heard|..] == n.heard[|w.heard|..] + r.heard[|n.heard|..];
    }
  }
}
