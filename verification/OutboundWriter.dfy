/** The multiplexer as the mutable object the program keeps, proved against the
    state functions of `Outbound`. */
module OutboundWriter {
  import opened Basics
  import opened Outbound

  /** What a pass comes to, step by step. */
  lemma BeforePass(s: Mux)
    requires Outbound.Valid(s) && s.phase.Running?
    ensures Outbound.Valid(Iterate(s).0)
    ensures var p := Pull(s); var c := Choose(p);
      if c.Nothing? then Iterate(s) == (p.(streak := 0, phase := Parked), None)
      else
        var (next, rest) := Take(p, c);
        && next.message.Valid() && !next.message.Finished()
        && Iterate(s) == (Emit(rest, next).0, Some(Emit(rest, next).1))
  {
    IterateValid(s);
    PullShape(s);
    if !Choose(Pull(s)).Nothing? {
      TakenIsReady(Pull(s));
    }
  }

  class Multiplexer {
    var free: nat
    var sending: seq<Queued>
    var data: seq<Queued>
    var control: seq<Queued>
    var waiting: seq<Queued>
    var bulk: Option<Queued>
    var streak: nat
    var phase: Phase
    var open: bool
    var nextId: nat

    function State(): Mux
      reads this
    {
      Mux(free, sending, data, control, waiting, bulk, streak, phase, open, nextId)
    }

    constructor ()
      ensures State() == Start() && Outbound.Valid(State())
    {
      free, sending, data, control, waiting := QUEUED_BYTES, [], [], [], [];
      bulk, streak, phase, open, nextId := None, 0, Running, true, 1;
    }

    /** `send` waits for permits first and for a slot second; this is the first half. */
    method Acquire(ticket: nat, key: string, bytes: seq<byte>) returns (granted: bool)
      requires Outbound.Valid(State())
      modifies this
      ensures Outbound.Valid(State()) && State() == Outbound.Acquire(old(State()), ticket, key, bytes)
      ensures granted <==> open && 0 < |bytes| <= MAX_MESSAGE && |bytes| <= old(free)
      ensures granted ==> free == old(free) - |bytes|
                          && sending == old(sending) + [Queued(ticket, key, true, Outgoing(bytes, 0, None))]
      ensures !granted ==> State() == old(State())
    {
      AcquireValid(State(), ticket, key, bytes);
      granted := open && 0 < |bytes| <= MAX_MESSAGE && |bytes| <= free;
      if granted {
        free := free - |bytes|;
        sending := sending + [Queued(ticket, key, true, Outgoing(bytes, 0, None))];
      }
    }

    method TrySend(ticket: nat, key: string, bytes: seq<byte>, heartbeat: bool) returns (result: Result<(), string>)
      requires Outbound.Valid(State())
      modifies this
      ensures Outbound.Valid(State())
      ensures State() == if heartbeat then Outbound.TrySendControl(old(State()), ticket, key, bytes)
                         else Outbound.TrySend(old(State()), ticket, key, bytes)
      ensures result.Err? ==> State() == old(State())
      ensures result.Ok? <==> open && !phase.Returned? && 0 < |bytes| && if heartbeat
                then |bytes| <= FRAGMENT_BYTES && |old(control)| < CONTROL_SLOTS
                else |bytes| <= MAX_MESSAGE && |bytes| <= old(free) && |old(data)| < DATA_SLOTS
      ensures result.Ok? ==> if heartbeat
                then control == old(control) + [Queued(ticket, key, false, Outgoing(bytes, 0, None))]
                else data == old(data) + [Queued(ticket, key, true, Outgoing(bytes, 0, None))]
      ensures heartbeat && |bytes| > FRAGMENT_BYTES ==> result == Err("Invalid heartbeat")
    {
      if heartbeat {
        result := SendHeartbeat(ticket, key, bytes);
      } else {
        result := SendData(ticket, key, bytes);
      }
    }

    method SendHeartbeat(ticket: nat, key: string, bytes: seq<byte>) returns (result: Result<(), string>)
      requires Outbound.Valid(State())
      modifies this
      ensures Outbound.Valid(State()) && State() == Outbound.TrySendControl(old(State()), ticket, key, bytes)
      ensures result.Err? ==> State() == old(State())
      ensures result.Ok? <==> open && !phase.Returned? && 0 < |bytes| <= FRAGMENT_BYTES && |old(control)| < CONTROL_SLOTS
      ensures result.Ok? ==> control == old(control) + [Queued(ticket, key, false, Outgoing(bytes, 0, None))]
      ensures |bytes| > FRAGMENT_BYTES ==> result == Err("Invalid heartbeat")
    {
      TrySendControlValid(State(), ticket, key, bytes);
      if |bytes| > FRAGMENT_BYTES { return Err("Invalid heartbeat"); }
      if |bytes| == 0 { return Err("Encrypted message is too large"); }
      if !open || phase.Returned? || |control| >= CONTROL_SLOTS { return Err("Encrypted queue full"); }
      control := control + [Queued(ticket, key, false, Outgoing(bytes, 0, None))];
      return Ok(());
    }

    method SendData(ticket: nat, key: string, bytes: seq<byte>) returns (result: Result<(), string>)
      requires Outbound.Valid(State())
      modifies this
      ensures Outbound.Valid(State()) && State() == Outbound.TrySend(old(State()), ticket, key, bytes)
      ensures result.Err? ==> State() == old(State())
      ensures result.Ok? <==>
                open && !phase.Returned? && 0 < |bytes| <= MAX_MESSAGE && |bytes| <= old(free) && |old(data)| < DATA_SLOTS
      ensures result.Ok? ==> data == old(data) + [Queued(ticket, key, true, Outgoing(bytes, 0, None))]
    {
      TrySendValid(State(), ticket, key, bytes);
      if |bytes| > free { return Err("Encrypted queue full"); }
      if |bytes| == 0 || |bytes| > MAX_MESSAGE { return Err("Encrypted message is too large"); }
      if !open || phase.Returned? || |data| >= DATA_SLOTS { return Err("Encrypted queue full"); }
      free := free - |bytes|;
      data := data + [Queued(ticket, key, true, Outgoing(bytes, 0, None))];
      return Ok(());
    }

    /** The inner `while` of the loop: fill the window from the data channel. */
    method PullBatch()
      modifies this`waiting, this`data
      ensures State() == Pull(old(State()))
    {
      ghost var window, channel, pulled := waiting, data, 0;
      while |waiting| < WINDOW && data != []
        invariant 0 <= pulled <= |channel| && (pulled == 0 || |window| + pulled <= WINDOW)
        invariant waiting == window + channel[..pulled]
        invariant data == channel[pulled..]
        decreases |data|
      {
        assert channel[..pulled + 1] == channel[..pulled] + [data[0]];
        waiting := waiting + [data[0]];
        data := data[1..];
        pulled := pulled + 1;
      }
    }

    /** Pick the message the next record belongs to and take it out of its queue. */
    method PickNext() returns (next: Option<Queued>)
      modifies this
      ensures var s := old(State());
              if Choose(s).Nothing? then next == None && State() == s.(streak := 0)
              else next.Some? && (next.value, State()) == Take(s, Choose(s))
    {
      if control != [] {
        next, control := Some(control[0]), control[1..];
        return;
      }
      var small := FindOvertaker();
      if small.Some? && streak < STREAK_LIMIT {
        streak := streak + 1;
        next, waiting := Some(waiting[small.value]), waiting[..small.value] + waiting[small.value + 1..];
      } else if bulk.Some? {
        streak := 0;
        next, bulk := bulk, None;
      } else if waiting != [] {
        streak := 0;
        next, waiting := Some(waiting[0]), waiting[1..];
      } else {
        streak := 0;
        next := None;
      }
    }

    /** Encode and send one fragment, then drop the message or keep it as bulk. */
    method SendFragment(next: Queued) returns (sent: Sent)
      requires next.message.Valid() && !next.message.Finished()
      modifies this
      ensures (State(), sent) == Emit(old(State()), next)
    {
      var (record, message, id) := EncodeNext(nextId, next.message);
      nextId := id;
      var after := next.(message := message);
      if message.Finished() {
        free := free + Charge(next);
      } else {
        bulk := Some(after);
      }
      return Sent(after, record);
    }

    /** One pass of the loop in `Writer::run`. */
    method Pass() returns (sent: Option<Sent>)
      requires Outbound.Valid(State()) && phase.Running?
      modifies this
      ensures Outbound.Valid(State())
      ensures (State(), sent) == Iterate(old(State()))
      ensures sent.None? ==> phase.Parked?
    {
      BeforePass(State());
      PullBatch();
      var next := PickNext();
      if next.None? {
        phase := Parked;
        return None;
      }
      var record := SendFragment(next.value);
      return Some(record);
    }

    /** The `position` search over the window. */
    method FindOvertaker() returns (index: Option<nat>)
      ensures index == Overtaker(waiting, bulk, 0)
    {
      var i := 0;
      while i < |waiting|
        invariant 0 <= i <= |waiting|
        invariant Overtaker(waiting, bulk, 0) == Overtaker(waiting, bulk, i)
      {
        if MayOvertake(waiting, bulk, i) {
          return Some(i);
        }
        i := i + 1;
      }
      return None;
    }

    /** The `select!` the writer parks in: heartbeats first, then data. */
    method Wake() returns (done: bool)
      requires Outbound.Valid(State()) && phase.Parked?
      modifies this
      ensures Outbound.Valid(State()) && State() == Outbound.Wake(old(State()))
      ensures done <==> phase.Returned?
    {
      WakeValid(State());
      if control != [] {
        waiting, control, phase := [control[0]] + waiting, control[1..], Running;
      } else if !open {
        free, data, phase := free + Charged(data), [], Returned;
      } else if data != [] {
        waiting, data, phase := waiting + [data[0]], data[1..], Running;
      }
      done := phase.Returned?;
    }
  }
}
