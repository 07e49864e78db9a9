/** The `mode` map as the mutable object the hub keeps, proved against the
    operations of `Leases`. */
module LeaseTable {
  import opened Basics
  import opened Leases

  class ControlModes {
    var modes: map<Name, Mode>
    var log: seq<Entry>

    function State(): Hub
      reads this
    {
      Hub(modes, log)
    }

    constructor ()
      ensures State() == Hub(map[], []) && Leases.Valid(State())
    {
      modes, log := map[], [];
    }

    method SendEvent(user: Name, event: Event)
      modifies this`log
      ensures log == old(log) + [Entry(user, event)]
    {
      log := log + [Entry(user, event)];
    }

    method SendChanges(user: Name, machines: seq<Name>, controller: Option<Name>)
      modifies this`log
      ensures log == old(log) + Tell(user, Changes(machines, controller))
    {
      var i := 0;
      while i < |machines|
        invariant 0 <= i <= |machines|
        invariant log == old(log) + Tell(user, Changes(machines[..i], controller))
      {
        assert machines[..i + 1] == machines[..i] + [machines[i]];
        assert Tell(user, Changes(machines[..i + 1], controller))
            == Tell(user, Changes(machines[..i], controller)) + [Entry(user, ModeChanged(machines[i], controller))];
        SendEvent(user, ModeChanged(machines[i], controller));
        i := i + 1;
      }
      assert machines[..i] == machines;
    }

    method RegisterDevice(user: Name, device: Name)
      requires Leases.Valid(State())
      modifies this
      ensures Leases.Valid(State()) && State() == Leases.RegisterDevice(old(State()), user, device)
    {
      RegisterValid(State(), user, device);
      var mode := ModeOf(modes, user);
      var count := if device in mode.connected then mode.connected[device] + 1 else 1;
      var stash := if device in mode.released then mode.released[device] else [];
      var leases, restored := RestoreLeases(mode.leases, stash, device);
      modes := modes[user := Mode(leases, mode.connected[device := count], mode.released - {device})];
      SendChanges(user, restored, Some(device));
    }

    /** The loop over the stash: take back what nobody holds. */
    method RestoreLeases(before: map<Name, Name>, stash: seq<Name>, device: Name)
      returns (leases: map<Name, Name>, restored: seq<Name>)
      requires NoRepeats(stash)
      ensures restored == Restorable(before, stash)
      ensures leases == Granted(before, restored, device)
    {
      leases, restored := before, [];
      var i := 0;
      while i < |stash|
        invariant 0 <= i <= |stash|
        invariant Restoring(before, stash, i, restored)
        invariant leases == Granted(before, restored, device)
      {
        var machine := stash[i];
        RestoreStep(before, stash, i, restored);
        assert machine in leases <==> machine in before by { GrantedAt(before, restored, device); }
        if machine !in leases {
          GrantOne(before, restored, machine, device);
          leases := leases[machine := device];
          restored := restored + [machine];
        }
        i := i + 1;
      }
      RestoreDone(before, stash, restored);
    }

    method UnregisterDevice(user: Name, device: Name) returns (ghost order: seq<Name>)
      requires Leases.Valid(State())
      modifies this
      ensures ListsHeld(ModeOf(old(modes), user), device, order)
      ensures Leases.Valid(State()) && State() == Leases.UnregisterDevice(old(State()), user, device, order)
    {
      var mode := ModeOf(modes, user);
      var held := Held(mode, device);
      order := held;
      UnregisterValid(State(), user, device, held);
      if user !in modes {
        return;
      }
      var released := false;
      if device in mode.connected {
        if mode.connected[device] > 1 {
          mode := mode.(connected := mode.connected[device := mode.connected[device] - 1]);
        } else {
          mode := mode.(connected := mode.connected - {device});
          released := true;
        }
      }
      if released {
        if held != [] {
          mode := mode.(released := mode.released[device := held]);
        }
        mode := mode.(leases := mode.leases - (set x | x in held));
        SendChanges(user, held, None);
      } else {
        assert log == old(log) + Tell(user, []);
      }
      Write(user, mode);
    }

    /** Collect the machines a device holds, in whatever order the map yields them. */
    method Held(mode: Mode, device: Name) returns (held: seq<Name>)
      ensures ListsHeld(mode, device, held)
    {
      held := [];
      var left := mode.leases.Keys;
      while left != {}
        invariant left <= mode.leases.Keys
        invariant forall x | x in held :: x !in left && Holds(mode, x, device)
        invariant forall x | x in mode.leases && mode.leases[x] == device :: x in left || x in held
        invariant NoRepeats(held)
        decreases left
      {
        var machine :| machine in left;
        left := left - {machine};
        if mode.leases[machine] == device {
          held := held + [machine];
        }
      }
    }

    /** Put an entry back, or drop it when nothing is left in it. */
    method Write(user: Name, mode: Mode)
      modifies this`modes
      ensures modes == Store(old(modes), user, mode)
    {
      if mode.connected == map[] && mode.leases == map[] && mode.released == map[] {
        modes := modes - {user};
      } else {
        modes := modes[user := mode];
      }
    }

    method RequestControl(user: Name, machine: Name, device: Name)
      requires Leases.Valid(State())
      modifies this
      ensures Leases.Valid(State()) && State() == Leases.RequestControl(old(State()), user, machine, device)
    {
      RequestValid(State(), user, machine, device);
      var mode := ModeOf(modes, user);
      modes := modes[user := mode.(leases := mode.leases[machine := device])];
      SendEvent(user, ModeChanged(machine, Some(device)));
    }

    method ReleaseControl(user: Name, machine: Name, device: Name)
      requires Leases.Valid(State())
      modifies this
      ensures Leases.Valid(State()) && State() == Leases.ReleaseControl(old(State()), user, machine, device)
    {
      ReleaseValid(State(), user, machine, device);
      if user !in modes {
        return;
      }
      var mode := modes[user];
      if device in mode.released {
        var kept := Without(mode.released[device], machine);
        mode := mode.(released := if kept == [] then mode.released - {device} else mode.released[device := kept]);
      }
      if machine in mode.leases && mode.leases[machine] == device {
        mode := mode.(leases := mode.leases - {machine});
        SendEvent(user, ModeChanged(machine, None));
        assert log == old(log) + Tell(user, [ModeChanged(machine, None)]);
      } else {
        assert log == old(log) + Tell(user, []);
      }
      Write(user, mode);
    }

    method RemoveMachine(user: Name, machine: Name)
      requires Leases.Valid(State())
      modifies this
      ensures Leases.Valid(State()) && State() == Leases.RemoveMachine(old(State()), user, machine)
    {
      RemoveValid(State(), user, machine);
      if user in modes {
        Write(user, Cleared(modes[user], machine));
      }
      SendEvent(user, MachineRemoved(machine));
    }
  }
}
