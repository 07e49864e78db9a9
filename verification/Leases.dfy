/** Control leases of crates/hub/src/machine_manager.rs: who may type into a
    machine, what happens while a device is briefly gone, and what the browsers
    are told about it. */
module Leases {
  import opened Basics

  type Name = string

  /** `ModeState`: one user's leases, connected devices and stashed leases. */
  datatype Mode = Mode(
    leases: map<Name, Name>,             // machine -> device
    connected: map<Name, nat>,           // device -> registrations
    released: map<Name, seq<Name>>)      // device -> machines to restore

  const NEW_MODE := Mode(map[], map[], map[])

  datatype Event =
    | ModeChanged(machine: Name, controller: Option<Name>)
    | MachineRemoved(machine: Name)

  datatype Entry = Entry(user: Name, event: Event)

  predicate IsEmpty(m: Mode) { m.connected == map[] && m.leases == map[] && m.released == map[] }

  // ----- the hub's table and its event log -----

  datatype Hub = Hub(modes: map<Name, Mode>, log: seq<Entry>)

  function ModeOf(modes: map<Name, Mode>, user: Name): Mode
  {
    if user in modes then modes[user] else NEW_MODE
  }

  /** Write a user's entry back, dropping it when nothing is left in it. */
  function Store(modes: map<Name, Mode>, user: Name, m: Mode): map<Name, Mode>
  {
    if IsEmpty(m) then modes - {user} else modes[user := m]
  }

  function Tell(user: Name, events: seq<Event>): seq<Entry>
  {
    seq(|events|, i requires 0 <= i < |events| => Entry(user, events[i]))
  }

  // ----- one user's entry -----

  /** The stashed machines nobody holds, in stash order. */
  function Restorable(leases: map<Name, Name>, stash: seq<Name>): (r: seq<Name>)
    ensures forall x :: x in r <==> x in stash && x !in leases
  {
    if stash == [] then []
    else (if stash[0] in leases then [] else [stash[0]]) + Restorable(leases, stash[1..])
  }

  function Stash(m: Mode, device: Name): seq<Name>
  {
    if device in m.released then m.released[device] else []
  }

  /** The leases after `device` has taken the machines, one after the other. */
  function Granted(leases: map<Name, Name>, machines: seq<Name>, device: Name): map<Name, Name>
  {
    if machines == [] then leases
    else Granted(leases, machines[..|machines| - 1], device)[machines[|machines| - 1] := device]
  }

  lemma {:induction false} GrantedAt(leases: map<Name, Name>, machines: seq<Name>, device: Name)
    ensures var r := Granted(leases, machines, device);
            && (forall x :: x in r <==> x in leases || x in machines)
            && (forall x | x in r :: r[x] == if x in machines then device else leases[x])
  {
    if machines != [] {
      var n := |machines| - 1;
      assert machines == machines[..n] + [machines[n]];
      GrantedAt(leases, machines[..n], device);
    }
  }

  lemma GrantOne(leases: map<Name, Name>, machines: seq<Name>, machine: Name, device: Name)
    ensures Granted(leases, machines + [machine], device) == Granted(leases, machines, device)[machine := device]
  {
    assert (machines + [machine])[..|machines|] == machines;
  }

  lemma RestoreOne(leases: map<Name, Name>, stash: seq<Name>, i: nat)
    requires i < |stash|
    ensures Restorable(leases, stash[i..])
            == (if stash[i] in leases then [] else [stash[i]]) + Restorable(leases, stash[i + 1..])
  {
    assert stash[i..][1..] == stash[i + 1..];
  }

  /** How far the restore loop has come after `i` machines of the stash. */
  predicate Restoring(leases: map<Name, Name>, stash: seq<Name>, i: nat, restored: seq<Name>)
    requires i <= |stash|
  {
    restored + Restorable(leases, stash[i..]) == Restorable(leases, stash) && Apart(stash, i, restored)
  }

  predicate Apart(stash: seq<Name>, i: nat, restored: seq<Name>)
  {
    forall k | i <= k < |stash| :: stash[k] !in restored
  }

  lemma ApartStep(stash: seq<Name>, i: nat, restored: seq<Name>)
    requires i < |stash| && NoRepeats(stash) && Apart(stash, i, restored)
    ensures stash[i] !in restored
    ensures Apart(stash, i + 1, restored) && Apart(stash, i + 1, restored + [stash[i]])
  {
  }

  lemma MoveOver(restored: seq<Name>, machine: Name, taken: bool, rest: seq<Name>)
    ensures restored + ((if taken then [] else [machine]) + rest)
            == (if taken then restored else restored + [machine]) + rest
  {
  }

  lemma RestoreStep(leases: map<Name, Name>, stash: seq<Name>, i: nat, restored: seq<Name>)
    requires i < |stash| && NoRepeats(stash) && Restoring(leases, stash, i, restored)
    ensures stash[i] !in restored
    ensures Restoring(leases, stash, i + 1, if stash[i] in leases then restored else restored + [stash[i]])
  {
    ApartStep(stash, i, restored);
    RestoreOne(leases, stash, i);
    MoveOver(restored, stash[i], stash[i] in leases, Restorable(leases, stash[i + 1..]));
  }

  lemma RestoreDone(leases: map<Name, Name>, stash: seq<Name>, restored: seq<Name>)
    requires Restoring(leases, stash, |stash|, restored)
    ensures restored == Restorable(leases, stash)
  {
    assert restored + [] == restored;
  }

  /** What `register_device` does to the user's entry. */
  function Registered(m: Mode, device: Name): (Mode, seq<Event>)
  {
    var restored := Restorable(m.leases, Stash(m, device));
    (Mode(Granted(m.leases, restored, device),
          m.connected[device := (if device in m.connected then m.connected[device] else 0) + 1],
          m.released - {device}),
     Changes(restored, Some(device)))
  }

  function Changes(machines: seq<Name>, controller: Option<Name>): seq<Event>
  {
    seq(|machines|, i requires 0 <= i < |machines| => ModeChanged(machines[i], controller))
  }

  predicate Holds(m: Mode, machine: Name, device: Name)
  {
    machine in m.leases && m.leases[machine] == device
  }

  /** `order` lists the machines `device` holds, each once. */
  predicate ListsHeld(m: Mode, device: Name, order: seq<Name>)
  {
    && (forall x | x in order :: Holds(m, x, device))
    && (forall x | x in m.leases && m.leases[x] == device :: x in order)
    && NoRepeats(order)
  }

  predicate NoRepeats(order: seq<Name>)
  {
    forall i, j | 0 <= i < j < |order| :: order[i] != order[j]
  }

  /** What `unregister_device` does; the hash map's order of the leases is `order`. */
  function Unregistered(m: Mode, device: Name, order: seq<Name>): (Mode, seq<Event>)
  {
    if device !in m.connected then (m, [])
    else if m.connected[device] > 1 then (m.(connected := m.connected[device := m.connected[device] - 1]), [])
    else
      (Mode(m.leases - (set x | x in order),
            m.connected - {device},
            if order == [] then m.released else m.released[device := order]),
       Changes(order, None))
  }

  lemma NoRepeatsCons(machines: seq<Name>, rest: seq<Name>)
    requires machines != []
    ensures NoRepeats(machines) ==> NoRepeats(machines[1..])
    ensures NoRepeats(machines) && NoRepeats(rest) && (forall x | x in rest :: x in machines[1..])
            ==> NoRepeats([machines[0]] + rest)
  {
    if NoRepeats(machines) && NoRepeats(rest) && (forall x | x in rest :: x in machines[1..]) {
      forall i, j | 0 <= i < j < |rest| + 1
        ensures ([machines[0]] + rest)[i] != ([machines[0]] + rest)[j]
      {
        assert rest[j - 1] in machines[1..];
      }
    }
  }

  function Without(machines: seq<Name>, machine: Name): (r: seq<Name>)
    ensures forall x :: x in r <==> x in machines && x != machine
    ensures NoRepeats(machines) ==> NoRepeats(r)
  {
    if machines == [] then []
    else
      var rest := Without(machines[1..], machine);
      NoRepeatsCons(machines, rest);
      if machines[0] == machine then rest else [machines[0]] + rest
  }

  /** What `release_control` does to the stash: the machine leaves it. */
  function Unstashed(m: Mode, machine: Name, device: Name): Mode
  {
    if device !in m.released then m
    else
      var kept := Without(m.released[device], machine);
      m.(released := if kept == [] then m.released - {device} else m.released[device := kept])
  }

  function ReleasedControl(m: Mode, machine: Name, device: Name): (Mode, seq<Event>)
  {
    var u := Unstashed(m, machine, device);
    if Holds(u, machine, device) then (u.(leases := u.leases - {machine}), [ModeChanged(machine, None)])
    else (u, [])
  }

  /** What `clear_machine_mode` does: every trace of the machine goes. */
  function Cleared(m: Mode, machine: Name): Mode
  {
    Mode(m.leases - {machine}, m.connected,
         map d | d in m.released && Without(m.released[d], machine) != [] :: Without(m.released[d], machine))
  }

  // ----- the operations on the hub -----

  function RegisterDevice(h: Hub, user: Name, device: Name): Hub
  {
    var (m, events) := Registered(ModeOf(h.modes, user), device);
    Hub(h.modes[user := m], h.log + Tell(user, events))
  }

  function UnregisterDevice(h: Hub, user: Name, device: Name, order: seq<Name>): Hub
  {
    if user !in h.modes then h
    else
      var (m, events) := Unregistered(h.modes[user], device, order);
      Hub(Store(h.modes, user, m), h.log + Tell(user, events))
  }

  function RequestControl(h: Hub, user: Name, machine: Name, device: Name): Hub
  {
    var m := ModeOf(h.modes, user);
    Hub(h.modes[user := m.(leases := m.leases[machine := device])],
        h.log + [Entry(user, ModeChanged(machine, Some(device)))])
  }

  function ReleaseControl(h: Hub, user: Name, machine: Name, device: Name): Hub
  {
    if user !in h.modes then h
    else
      var (m, events) := ReleasedControl(h.modes[user], machine, device);
      Hub(Store(h.modes, user, m), h.log + Tell(user, events))
  }

  function RemoveMachine(h: Hub, user: Name, machine: Name): Hub
  {
    Hub(if user in h.modes then Store(h.modes, user, Cleared(h.modes[user], machine)) else h.modes,
        h.log + [Entry(user, MachineRemoved(machine))])
  }

  // ----- what a browser can rebuild from the log -----

  /** Fold one user's lease events, oldest first. */
  function Fold(log: seq<Entry>, user: Name): map<Name, Name>
  {
    if log == [] then map[]
    else
      var before := Fold(log[..|log| - 1], user);
      var last := log[|log| - 1];
      if last.user != user then before else Apply(before, last.event)
  }

  function Apply(leases: map<Name, Name>, e: Event): map<Name, Name>
  {
    match e
    case ModeChanged(machine, Some(device)) => leases[machine := device]
    case ModeChanged(machine, None) => leases - {machine}
    case MachineRemoved(machine) => leases - {machine}
  }

  lemma FoldPush(log: seq<Entry>, entry: Entry, user: Name)
    ensures Fold(log + [entry], user)
            == if entry.user == user then Apply(Fold(log, user), entry.event) else Fold(log, user)
  {
    assert (log + [entry])[..|log|] == log;
  }

  lemma {:induction false} FoldOthers(log: seq<Entry>, user: Name, events: seq<Event>, other: Name)
    requires other != user
    ensures Fold(log + Tell(user, events), other) == Fold(log, other)
  {
    if events == [] {
      assert log + Tell(user, events) == log;
    } else {
      var n := |events| - 1;
      assert log + Tell(user, events) == (log + Tell(user, events[..n])) + [Entry(user, events[n])];
      FoldOthers(log, user, events[..n], other);
      FoldPush(log + Tell(user, events[..n]), Entry(user, events[n]), other);
    }
  }

  lemma {:induction false} FoldGrants(log: seq<Entry>, user: Name, machines: seq<Name>, device: Name)
    ensures Fold(log + Tell(user, Changes(machines, Some(device))), user)
            == Granted(Fold(log, user), machines, device)
  {
    var events := Changes(machines, Some(device));
    if machines == [] {
      assert log + Tell(user, events) == log;
    } else {
      var n := |machines| - 1;
      assert machines == machines[..n] + [machines[n]];
      var fewer := Changes(machines[..n], Some(device));
      assert log + Tell(user, events) == (log + Tell(user, fewer)) + [Entry(user, events[n])];
      FoldGrants(log, user, machines[..n], device);
      FoldPush(log + Tell(user, fewer), Entry(user, events[n]), user);
    }
  }

  lemma {:induction false} FoldReleases(log: seq<Entry>, user: Name, machines: seq<Name>)
    ensures Fold(log + Tell(user, Changes(machines, None)), user)
            == Fold(log, user) - (set x | x in machines)
  {
    var events := Changes(machines, None);
    if machines == [] {
      assert log + Tell(user, events) == log;
    } else {
      var n := |machines| - 1;
      assert machines == machines[..n] + [machines[n]];
      var fewer := Changes(machines[..n], None);
      assert log + Tell(user, events) == (log + Tell(user, fewer)) + [Entry(user, events[n])];
      FoldReleases(log, user, machines[..n]);
      FoldPush(log + Tell(user, fewer), Entry(user, events[n]), user);
    }
  }

  // ----- what holds of every entry -----

  predicate ModeValid(m: Mode)
  {
    && (forall d | d in m.connected :: m.connected[d] > 0)
    && (forall d | d in m.released :: m.released[d] != [] && NoRepeats(m.released[d]) && d !in m.connected)
  }

  ghost predicate Valid(h: Hub)
  {
    && (forall u | u in h.modes :: ModeValid(h.modes[u]) && !IsEmpty(h.modes[u]))
    && (forall u :: Fold(h.log, u) == ModeOf(h.modes, u).leases)
  }

  /** The frame every operation shares: only `user`'s entry changes, and its
      events fold to its new leases. */
  lemma StoreValid(h: Hub, user: Name, m: Mode, events: seq<Event>)
    requires Valid(h) && ModeValid(m)
    requires Fold(h.log + Tell(user, events), user) == m.leases
    ensures Valid(Hub(Store(h.modes, user, m), h.log + Tell(user, events)))
  {
    var h' := Hub(Store(h.modes, user, m), h.log + Tell(user, events));
    forall u ensures Fold(h'.log, u) == ModeOf(h'.modes, u).leases {
      if u != user {
        FoldOthers(h.log, user, events, u);
      }
    }
  }

  lemma RegisterValid(h: Hub, user: Name, device: Name)
    requires Valid(h)
    ensures Valid(RegisterDevice(h, user, device))
  {
    var m := ModeOf(h.modes, user);
    var restored := Restorable(m.leases, Stash(m, device));
    var (n, events) := Registered(m, device);
    FoldGrants(h.log, user, restored, device);
    assert device in n.connected;
    StoreValid(h, user, n, events);
  }

  lemma UnregisterValid(h: Hub, user: Name, device: Name, order: seq<Name>)
    requires Valid(h) && ListsHeld(ModeOf(h.modes, user), device, order)
    ensures Valid(UnregisterDevice(h, user, device, order))
  {
    if user in h.modes {
      var (m, events) := Unregistered(h.modes[user], device, order);
      if events == [] {
        assert h.log + Tell(user, events) == h.log;
      } else {
        FoldReleases(h.log, user, order);
      }
      StoreValid(h, user, m, events);
    }
  }

  lemma RequestValid(h: Hub, user: Name, machine: Name, device: Name)
    requires Valid(h)
    ensures Valid(RequestControl(h, user, machine, device))
  {
    var m := ModeOf(h.modes, user);
    var events := [ModeChanged(machine, Some(device))];
    var n := m.(leases := m.leases[machine := device]);
    assert Tell(user, events) == [Entry(user, events[0])];
    FoldPush(h.log, Entry(user, events[0]), user);
    assert machine in n.leases;
    StoreValid(h, user, n, events);
  }

  lemma ReleaseValid(h: Hub, user: Name, machine: Name, device: Name)
    requires Valid(h)
    ensures Valid(ReleaseControl(h, user, machine, device))
  {
    if user in h.modes {
      var (m, events) := ReleasedControl(h.modes[user], machine, device);
      if events == [] {
        assert h.log + Tell(user, events) == h.log;
      } else {
        assert Tell(user, events) == [Entry(user, events[0])];
        FoldPush(h.log, Entry(user, events[0]), user);
      }
      StoreValid(h, user, m, events);
    }
  }

  lemma RemoveValid(h: Hub, user: Name, machine: Name)
    requires Valid(h)
    ensures Valid(RemoveMachine(h, user, machine))
  {
    var events := [MachineRemoved(machine)];
    assert Tell(user, events) == [Entry(user, events[0])];
    FoldPush(h.log, Entry(user, events[0]), user);
    if user in h.modes {
      StoreValid(h, user, Cleared(h.modes[user], machine), events);
    } else {
      assert h.modes - {user} == h.modes;
      StoreValid(h, user, NEW_MODE, events);
    }
  }
}
