/** The encrypted outbound multiplexer (crates/secure/src/outbound.rs): senders
    take permits from a byte budget and queue messages; one writer task picks,
    record by record, which message to send a fragment of. */
module Outbound {
  import opened Basics

  const FRAGMENT_BYTES: nat := 16 * 1024
  const MAX_MESSAGE: nat := 32 * 1024 * 1024
  const QUEUED_BYTES: nat := 64 * 1024 * 1024
  const DATA_SLOTS: nat := 64
  const CONTROL_SLOTS: nat := 4
  const WINDOW: nat := 64
  const STREAK_LIMIT: nat := 8

  // ----- messages and records -----

  /** A message being cut into fragments; `id` is assigned with the first one. */
  datatype Outgoing = Outgoing(data: seq<byte>, offset: nat, id: Option<nat>) {
    predicate Finished() { offset == |data| }

    predicate IsSmall() { |data| <= FRAGMENT_BYTES }

    predicate Valid() { 0 < |data| <= MAX_MESSAGE && offset <= |data| }

    predicate Fresh() { Valid() && offset == 0 && id == None }

    /** How many records this message still needs. */
    function Fragments(): nat
      requires offset <= |data|
    {
      (|data| - offset + FRAGMENT_BYTES - 1) / FRAGMENT_BYTES
    }
  }

  /** One Noise record in plain text: header fields and a slice of the message. */
  datatype Record = Record(id: nat, total: nat, offset: nat, data: seq<byte>)

  /** `Channel::encode_next` without the cipher: cut the next fragment. */
  function EncodeNext(nextId: nat, message: Outgoing): (r: (Record, Outgoing, nat))
    requires message.Valid() && !message.Finished()
  {
    var id := if message.id.Some? then message.id.value else nextId;
    var end := if message.offset + FRAGMENT_BYTES < |message.data|
               then message.offset + FRAGMENT_BYTES else |message.data|;
    (Record(id, |message.data|, message.offset, message.data[message.offset..end]),
     message.(offset := end, id := Some(id)),
     if message.id.Some? then nextId else nextId + 1)
  }

  /** A queued message. `permit` is false for the heartbeat lane, which takes
      nothing from the budget. `ticket` only names the message for the reader. */
  datatype Queued = Queued(ticket: nat, key: string, permit: bool, message: Outgoing)

  // ----- the whole queue: senders, channels, writer, budget -----

  datatype Phase = Running | Parked | Returned

  datatype Mux = Mux(
    free: nat,                 // permits left in the semaphore
    sending: seq<Queued>,      // hold their permit, wait for a slot in `data`
    data: seq<Queued>,         // the bounded data channel
    control: seq<Queued>,      // the bounded heartbeat channel
    waiting: seq<Queued>,      // the writer's window
    bulk: Option<Queued>,      // the one message that is partly sent
    streak: nat,               // `urgent_streak`
    phase: Phase,
    open: bool,                // some sender still exists
    nextId: nat)

  function Start(): Mux
  {
    Mux(QUEUED_BYTES, [], [], [], [], None, 0, Running, true, 1)
  }

  function AsSeq(q: Option<Queued>): seq<Queued>
  {
    if q.Some? then [q.value] else []
  }

  /** Everything a permit has been taken for and not yet given back. */
  function Outstanding(s: Mux): seq<Queued>
  {
    AsSeq(s.bulk) + s.waiting + s.data + s.sending
  }

  function Charge(q: Queued): nat
  {
    if q.permit then |q.message.data| else 0
  }

  function Charged(queue: seq<Queued>): nat
  {
    if queue == [] then 0 else Charge(queue[0]) + Charged(queue[1..])
  }

  // ----- the sender's side -----

  predicate IsIdle(s: Mux) { s.free == QUEUED_BYTES }

  /** `Sender::send` up to the acquired permit. */
  function Acquire(s: Mux, ticket: nat, key: string, bytes: seq<byte>): Mux
  {
    if !s.open || |bytes| == 0 || |bytes| > MAX_MESSAGE || |bytes| > s.free then s
    else s.(free := s.free - |bytes|,
            sending := s.sending + [Queued(ticket, key, true, Outgoing(bytes, 0, None))])
  }

  /** The rest of `Sender::send`: one of the waiting senders gets a slot. */
  function Deliver(s: Mux, index: nat): Mux
  {
    if index >= |s.sending| || |s.data| >= DATA_SLOTS || s.phase.Returned? then s
    else s.(sending := s.sending[..index] + s.sending[index + 1..],
            data := s.data + [s.sending[index]])
  }

  /** `Sender::try_send` of an ordinary message: all or nothing. */
  function TrySend(s: Mux, ticket: nat, key: string, bytes: seq<byte>): Mux
  {
    if !s.open || s.phase.Returned? || |bytes| == 0 || |bytes| > MAX_MESSAGE
       || |bytes| > s.free || |s.data| >= DATA_SLOTS then s
    else s.(free := s.free - |bytes|,
            data := s.data + [Queued(ticket, key, true, Outgoing(bytes, 0, None))])
  }

  /** `Sender::try_send` of a heartbeat. */
  function TrySendControl(s: Mux, ticket: nat, key: string, bytes: seq<byte>): Mux
  {
    if !s.open || s.phase.Returned? || |bytes| == 0 || |bytes| > FRAGMENT_BYTES
       || |s.control| >= CONTROL_SLOTS then s
    else s.(control := s.control + [Queued(ticket, key, false, Outgoing(bytes, 0, None))])
  }

  /** The last sender goes away; a pending `send` would keep one alive. */
  function CloseSenders(s: Mux): Mux
  {
    if s.sending == [] then s.(open := false) else s
  }

  // ----- the writer's loop -----

  function Min(a: nat, b: nat): nat { if a < b then a else b }

  /** Pull a bounded batch from the data channel into the window. */
  function Pull(s: Mux): Mux
  {
    var room := if |s.waiting| < WINDOW then Min(WINDOW - |s.waiting|, |s.data|) else 0;
    s.(waiting := s.waiting + s.data[..room], data := s.data[room..])
  }

  predicate KeyIn(key: string, queue: seq<Queued>)
  {
    exists i | 0 <= i < |queue| :: queue[i].key == key
  }

  /** May `waiting[i]` overtake the messages before it? */
  predicate MayOvertake(waiting: seq<Queued>, bulk: Option<Queued>, i: nat)
    requires i < |waiting|
  {
    && waiting[i].message.IsSmall()
    && (bulk.None? || bulk.value.key != waiting[i].key)
    && !KeyIn(waiting[i].key, waiting[..i])
  }

  /** The first message of the window that may overtake, if any. */
  function Overtaker(waiting: seq<Queued>, bulk: Option<Queued>, from: nat): (r: Option<nat>)
    requires from <= |waiting|
    ensures r.Some? ==> from <= r.value < |waiting| && MayOvertake(waiting, bulk, r.value)
    ensures forall i | from <= i < |waiting| && MayOvertake(waiting, bulk, i) ::
              r.Some? && r.value <= i
    decreases |waiting| - from
  {
    if from == |waiting| then None
    else if MayOvertake(waiting, bulk, from) then Some(from)
    else Overtaker(waiting, bulk, from + 1)
  }

  datatype Choice = Urgent | Overtake(index: nat) | Resume | Front | Nothing

  /** Which message the next record belongs to. */
  function Choose(s: Mux): (c: Choice)
    ensures c.Urgent? ==> s.control != []
    ensures c.Overtake? ==> c.index < |s.waiting| && MayOvertake(s.waiting, s.bulk, c.index)
    ensures c.Resume? ==> s.bulk.Some?
    ensures c.Front? ==> s.bulk.None? && s.waiting != []
    ensures c.Nothing? ==> s.bulk.None? && s.waiting == [] && s.control == []
  {
    var small := Overtaker(s.waiting, s.bulk, 0);
    if s.control != [] then Urgent
    else if small.Some? && s.streak < STREAK_LIMIT then Overtake(small.value)
    else if s.bulk.Some? then Resume
    else if s.waiting != [] then Front
    else Nothing
  }

  /** Take the chosen message out of the queue it was in. */
  function Take(s: Mux, c: Choice): (Queued, Mux)
    requires c == Choose(s) && !c.Nothing?
  {
    match c
    case Urgent => (s.control[0], s.(control := s.control[1..]))
    case Overtake(i) => (s.waiting[i], s.(waiting := s.waiting[..i] + s.waiting[i + 1..], streak := s.streak + 1))
    case Resume => (s.bulk.value, s.(bulk := None, streak := 0))
    case Front => (s.waiting[0], s.(waiting := s.waiting[1..], streak := 0))
  }

  /** What one pass of the loop sent: the message after its fragment, and the record. */
  datatype Sent = Sent(queued: Queued, record: Record)

  /** Send one fragment of `next`; keep the rest as the active bulk message. */
  function Emit(s: Mux, next: Queued): (r: (Mux, Sent))
    requires next.message.Valid() && !next.message.Finished()
  {
    var (record, message, nextId) := EncodeNext(s.nextId, next.message);
    var after := next.(message := message);
    if message.Finished() then (s.(nextId := nextId, free := s.free + Charge(next)), Sent(after, record))
    else (s.(nextId := nextId, bulk := Some(after)), Sent(after, record))
  }

  /** One pass of the writer's loop. */
  function Iterate(s: Mux): (Mux, Option<Sent>)
    requires Valid(s)
  {
    if !s.phase.Running? then (s, None)
    else
      var p := Pull(s);
      var c := Choose(p);
      if c.Nothing? then (p.(streak := 0, phase := Parked), None)
      else
        var (next, rest) := Take(p, c);
        PullShape(s);
        TakenIsReady(p);
        var (after, sent) := Emit(rest, next);
        (after, Some(sent))
  }

  /** The parked writer is woken by a heartbeat, by a data message, or by close. */
  function Wake(s: Mux): Mux
  {
    if !s.phase.Parked? then s
    else if s.control != [] then
      s.(control := s.control[1..], waiting := [s.control[0]] + s.waiting, phase := Running)
    else if !s.open then
      // Both receivers are dropped, and with them what the data channel holds.
      s.(phase := Returned, free := s.free + Charged(s.data), data := [])
    else if s.data != [] then
      s.(data := s.data[1..], waiting := s.waiting + [s.data[0]], phase := Running)
    else s
  }

  // ----- invariant -----

  /** A message nothing has been sent of; a heartbeat also fits one record. */
  predicate Ready(q: Queued)
  {
    q.message.Fresh() && (!q.permit ==> q.message.IsSmall())
  }

  predicate AllReady(queue: seq<Queued>, permit: bool)
  {
    forall q | q in queue :: Ready(q) && q.permit == permit
  }

  /** A heartbeat that woke the writer sits at the head of the window, before
      anything could have moved the streak or started a bulk message. */
  predicate WindowValid(waiting: seq<Queued>, bulk: Option<Queued>, streak: nat)
  {
    && |waiting| <= WINDOW
    && (forall q | q in waiting :: Ready(q))
    && (forall i | 0 <= i < |waiting| && !waiting[i].permit :: i == 0 && streak == 0 && bulk.None?)
  }

  predicate BulkValid(bulk: Option<Queued>)
  {
    bulk.Some? ==>
      var q := bulk.value;
      q.permit && q.message.Valid() && 0 < q.message.offset < |q.message.data|
      && q.message.offset % FRAGMENT_BYTES == 0 && q.message.id.Some?
  }

  predicate Shape(s: Mux)
  {
    && AllReady(s.sending, true) && AllReady(s.data, true) && AllReady(s.control, false)
    && |s.data| <= DATA_SLOTS && |s.control| <= CONTROL_SLOTS
    && WindowValid(s.waiting, s.bulk, s.streak)
    && BulkValid(s.bulk)
    && s.streak <= STREAK_LIMIT
    && (!s.phase.Running? ==> s.waiting == [] && s.bulk.None? && s.streak == 0)
    && (!s.open ==> s.sending == [])
    && (s.phase.Returned? ==> !s.open && s.data == [] && s.control == [])
  }

  /** Free permits and the sizes of all unreleased messages make up the budget. */
  predicate Balanced(s: Mux)
  {
    s.free + Charged(Outstanding(s)) == QUEUED_BYTES
  }

  predicate Valid(s: Mux) { Shape(s) && Balanced(s) }

  lemma {:induction false} ChargedAppend(a: seq<Queued>, b: seq<Queued>)
    ensures Charged(a + b) == Charged(a) + Charged(b)
  {
    if a == [] {
      assert a + b == b;
    } else {
      assert (a + b)[1..] == a[1..] + b;
      ChargedAppend(a[1..], b);
    }
  }

  lemma ChargedRemove(a: seq<Queued>, i: nat)
    requires i < |a|
    ensures Charged(a) == Charge(a[i]) + Charged(a[..i] + a[i + 1..])
  {
    assert a == a[..i] + a[i..];
    ChargedAppend(a[..i], a[i..]);
    assert a[i..][1..] == a[i + 1..];
    ChargedAppend(a[..i], a[i + 1..]);
  }

  lemma ChargedParts(s: Mux)
    ensures Charged(Outstanding(s))
            == Charged(AsSeq(s.bulk)) + Charged(s.waiting) + Charged(s.data) + Charged(s.sending)
  {
    ChargedAppend(AsSeq(s.bulk) + s.waiting + s.data, s.sending);
    ChargedAppend(AsSeq(s.bulk) + s.waiting, s.data);
    ChargedAppend(AsSeq(s.bulk), s.waiting);
  }

  lemma PullSame(s: Mux)
    ensures Pull(s).waiting + Pull(s).data == s.waiting + s.data
    ensures Outstanding(Pull(s)) == Outstanding(s)
  {
    assert s.waiting + s.data == Pull(s).waiting + Pull(s).data;
  }

  lemma PullShape(s: Mux)
    requires Shape(s) && s.phase.Running?
    ensures Shape(Pull(s))
  {
    var p := Pull(s);
    assert forall q | q in p.waiting :: q in s.waiting || q in s.data;
    assert forall i | |s.waiting| <= i < |p.waiting| :: p.waiting[i] in s.data;
  }

  /** The chosen message is unsent, or the active bulk message. */
  lemma TakenIsReady(s: Mux)
    requires Shape(s) && !Choose(s).Nothing?
    ensures var next := Take(s, Choose(s)).0;
            next.message.Valid() && !next.message.Finished()
            && next.message.offset % FRAGMENT_BYTES == 0
            && (if Choose(s).Resume? then next == s.bulk.value else Ready(next))
  {
    match Choose(s)
    case Urgent => assert s.control[0] in s.control;
    case Overtake(i) => assert s.waiting[i] in s.waiting;
    case Resume =>
    case Front => assert s.waiting[0] in s.waiting;
  }

  /** A heartbeat or an overtaking message needs exactly one record. */
  lemma OvertakerFinishes(s: Mux)
    requires Shape(s) && !Choose(s).Nothing?
    ensures var (next, rest) := Take(s, Choose(s));
            next.message.Valid() && !next.message.Finished()
            && (rest.bulk.Some? || Choose(s).Urgent? || Choose(s).Overtake?
                ==> EncodeNext(s.nextId, next.message).1.Finished())
  {
    TakenIsReady(s);
    if Choose(s).Urgent? {
      assert s.control[0] in s.control;
    }
  }

  lemma HeartbeatMayOvertake(s: Mux)
    requires Shape(s) && s.waiting != [] && !s.waiting[0].permit
    ensures MayOvertake(s.waiting, s.bulk, 0) && s.streak == 0 && s.bulk.None?
    ensures Choose(s) == Urgent || Choose(s) == Overtake(0)
  {
    assert s.waiting[0] in s.waiting;
  }

  lemma TakeShape(s: Mux)
    requires Shape(s) && s.phase.Running? && !Choose(s).Nothing?
    ensures Shape(Take(s, Choose(s)).1)
  {
    var c := Choose(s);
    var (next, rest) := Take(s, c);
    assert forall q | q in rest.waiting :: q in s.waiting;
    assert forall q | q in rest.control :: q in s.control;
    if s.waiting != [] && !s.waiting[0].permit {
      HeartbeatMayOvertake(s);
    }
  }

  /** Every record shortens its message by exactly one fragment. */
  lemma FragmentBudget(nextId: nat, message: Outgoing)
    requires message.Valid() && !message.Finished()
    ensures var m := EncodeNext(nextId, message).1;
            m.Valid() && m.Fragments() == message.Fragments() - 1
            && (m.Finished() <==> m.Fragments() == 0)
  {
  }

  lemma EmitShape(s: Mux, next: Queued)
    requires Shape(s) && s.phase.Running? && next.message.Valid() && !next.message.Finished()
    requires !EncodeNext(s.nextId, next.message).1.Finished() ==> s.bulk.None?
    requires next.message.offset % FRAGMENT_BYTES == 0
    requires next.permit || next.message.IsSmall()
    requires !EncodeNext(s.nextId, next.message).1.Finished() ==> forall i | 0 <= i < |s.waiting| :: s.waiting[i].permit
    ensures Shape(Emit(s, next).0)
  {
  }

  /** No pass of the loop breaks the invariant, and `bulk` is always empty when
      a partly sent message is stored in it. */
  lemma IterateShape(s: Mux)
    requires Valid(s)
    ensures Shape(Iterate(s).0)
  {
    if s.phase.Running? {
      var p := Pull(s);
      PullShape(s);
      var c := Choose(p);
      if !c.Nothing? {
        TakenIsReady(p);
        OvertakerFinishes(p);
        TakeShape(p);
        var (next, rest) := Take(p, c);
        if p.waiting != [] && !p.waiting[0].permit {
          HeartbeatMayOvertake(p);
        }
        EmitShape(rest, next);
      }
    }
  }

  lemma EmitBalanced(s: Mux, next: Queued)
    requires next.message.Valid() && !next.message.Finished()
    requires !EncodeNext(s.nextId, next.message).1.Finished() ==> s.bulk.None?
    requires s.free + Charge(next) + Charged(Outstanding(s)) == QUEUED_BYTES
    ensures Balanced(Emit(s, next).0)
  {
    ChargedParts(s);
    ChargedParts(Emit(s, next).0);
  }

  lemma TakeBalanced(s: Mux)
    requires Balanced(s) && !Choose(s).Nothing? && AllReady(s.control, false)
    ensures var (next, rest) := Take(s, Choose(s));
            rest.free + Charge(next) + Charged(Outstanding(rest)) == QUEUED_BYTES
  {
    var (next, rest) := Take(s, Choose(s));
    ChargedParts(s);
    ChargedParts(rest);
    if Choose(s).Overtake? {
      ChargedRemove(s.waiting, Choose(s).index);
    }
  }

  lemma IterateValid(s: Mux)
    requires Valid(s)
    ensures Valid(Iterate(s).0)
  {
    IterateShape(s);
    if s.phase.Running? {
      var p := Pull(s);
      PullShape(s);
      PullSame(s);
      var c := Choose(p);
      if !c.Nothing? {
        TakenIsReady(p);
        OvertakerFinishes(p);
        TakeBalanced(p);
        var (next, rest) := Take(p, c);
        EmitBalanced(rest, next);
      }
    }
  }

  lemma BeatWakeValid(s: Mux)
    requires Valid(s) && s.phase.Parked? && s.control != []
    ensures Valid(Wake(s))
  {
    ChargedParts(s);
    ChargedParts(Wake(s));
    assert s.control[0] in s.control;
  }

  lemma CloseWakeValid(s: Mux)
    requires Valid(s) && s.phase.Parked? && s.control == [] && !s.open
    ensures Valid(Wake(s))
  {
    ChargedParts(s);
    ChargedParts(Wake(s));
  }

  lemma DataWakeValid(s: Mux)
    requires Valid(s) && s.phase.Parked? && s.control == [] && s.open && s.data != []
    ensures Valid(Wake(s))
  {
    ChargedParts(s);
    ChargedParts(Wake(s));
    assert s.data[0] in s.data;
  }

  lemma WakeValid(s: Mux)
    requires Valid(s)
    ensures Valid(Wake(s))
  {
    if s.phase.Parked? {
      if s.control != [] {
        BeatWakeValid(s);
      } else if !s.open {
        CloseWakeValid(s);
      } else if s.data != [] {
        DataWakeValid(s);
      }
    }
  }

  lemma AcquireValid(s: Mux, ticket: nat, key: string, bytes: seq<byte>)
    requires Valid(s)
    ensures Valid(Acquire(s, ticket, key, bytes))
  {
    ChargedParts(s);
    ChargedParts(Acquire(s, ticket, key, bytes));
    ChargedAppend(s.sending, [Queued(ticket, key, true, Outgoing(bytes, 0, None))]);
  }

  lemma TrySendValid(s: Mux, ticket: nat, key: string, bytes: seq<byte>)
    requires Valid(s)
    ensures Valid(TrySend(s, ticket, key, bytes))
  {
    ChargedParts(s);
    ChargedParts(TrySend(s, ticket, key, bytes));
    ChargedAppend(s.data, [Queued(ticket, key, true, Outgoing(bytes, 0, None))]);
  }

  lemma TrySendControlValid(s: Mux, ticket: nat, key: string, bytes: seq<byte>)
    requires Valid(s)
    ensures Valid(TrySendControl(s, ticket, key, bytes))
  {
  }

  lemma DeliverValid(s: Mux, index: nat)
    requires Valid(s)
    ensures Valid(Deliver(s, index))
  {
    ChargedParts(s);
    ChargedParts(Deliver(s, index));
    if index < |s.sending| {
      ChargedRemove(s.sending, index);
      ChargedAppend(s.data, [s.sending[index]]);
    }
  }

  /** The first message of the window that fits one record, with a key that is neither
      the active bulk message's nor that of a message before it. */
  predicate FirstSmall(waiting: seq<Queued>, bulk: Option<Queued>, i: nat)
  {
    && i < |waiting| && FreeSmall(waiting, bulk, i)
    && forall j | 0 <= j < i :: !FreeSmall(waiting, bulk, j)
  }

  predicate FreeSmall(waiting: seq<Queued>, bulk: Option<Queued>, i: nat)
    requires i < |waiting|
  {
    && |waiting[i].message.data| <= 16 * 1024
    && (bulk.Some? ==> bulk.value.key != waiting[i].key)
    && forall k | 0 <= k < i :: waiting[k].key != waiting[i].key
  }

  ghost predicate SomeFreeSmall(waiting: seq<Queued>, bulk: Option<Queued>)
  {
    exists i :: 0 <= i < |waiting| && FreeSmall(waiting, bulk, i)
  }

  lemma OvertakesExactly(waiting: seq<Queued>, bulk: Option<Queued>)
    ensures forall i | 0 <= i < |waiting| :: MayOvertake(waiting, bulk, i) <==> FreeSmall(waiting, bulk, i)
  {
    forall i | 0 <= i < |waiting| ensures MayOvertake(waiting, bulk, i) <==> FreeSmall(waiting, bulk, i) {
      assert forall k | 0 <= k < i :: waiting[..i][k] == waiting[k];
    }
  }

  /** The priorities: heartbeats, then the first message that may overtake unless
      eight in a row have, then the active bulk message, then the oldest. */
  lemma ChoosesInOrder(s: Mux)
    ensures Choose(s).Urgent? <==> s.control != []
    ensures Choose(s).Overtake? <==>
            s.control == [] && s.streak < 8 && SomeFreeSmall(s.waiting, s.bulk)
    ensures Choose(s).Overtake? ==> FirstSmall(s.waiting, s.bulk, Choose(s).index)
    ensures Choose(s).Resume? <==>
            s.control == [] && s.bulk.Some? && (s.streak >= 8 || !SomeFreeSmall(s.waiting, s.bulk))
    ensures Choose(s).Front? <==>
            s.control == [] && s.bulk.None? && s.waiting != []
            && (s.streak >= 8 || !SomeFreeSmall(s.waiting, s.bulk))
    ensures Choose(s).Nothing? <==> s.control == [] && s.bulk.None? && s.waiting == []
  {
    OvertakesExactly(s.waiting, s.bulk);
    var small := Overtaker(s.waiting, s.bulk, 0);
    if small.Some? {
      assert FreeSmall(s.waiting, s.bulk, small.value);
    }
  }
}
