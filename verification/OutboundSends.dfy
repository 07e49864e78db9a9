/** From the callers' side: what was handed to the multiplexer is what it queues,
    sends and the receiver delivers, with no byte and no key changed. */
module OutboundSends {
  import opened Basics
  import opened Outbound
  import opened OutboundRuns
  import Reassembly

  /** A message as its sender gave it; heartbeats take no permit. */
  datatype Offer = Offer(ticket: nat, key: string, permit: bool, bytes: seq<byte>)

  /** What the senders know: sends that have their permit and wait for a slot, messages
      that got one, in that order, and heartbeats that were taken. */
  datatype Ledger = Ledger(asked: seq<Offer>, slots: seq<Offer>, beats: seq<Offer>)

  predicate Permitted(s: Mux, bytes: seq<byte>)
  {
    s.open && 0 < |bytes| <= MAX_MESSAGE && |bytes| <= s.free
  }

  predicate SlotFree(s: Mux)
  {
    !s.phase.Returned? && |s.data| < DATA_SLOTS
  }

  predicate BeatFits(s: Mux, bytes: seq<byte>)
  {
    s.open && !s.phase.Returned? && 0 < |bytes| <= FRAGMENT_BYTES && |s.control| < CONTROL_SLOTS
  }

  /** The ledger after an event, read from the event. */
  function Noted(l: Ledger, w: World, e: Event): Ledger
  {
    match e
    case AcquirePermit(key, bytes) =>
      if Permitted(w.mux, bytes) then l.(asked := l.asked + [Offer(w.tickets, key, true, bytes)]) else l
    case GetSlot(i) =>
      if i < |l.asked| && SlotFree(w.mux)
      then l.(asked := l.asked[..i] + l.asked[i + 1..], slots := l.slots + [l.asked[i]]) else l
    case SendNow(key, bytes) =>
      if Permitted(w.mux, bytes) && SlotFree(w.mux)
      then l.(slots := l.slots + [Offer(w.tickets, key, true, bytes)]) else l
    case Heartbeat(key, bytes) =>
      if BeatFits(w.mux, bytes) then l.(beats := l.beats + [Offer(w.tickets, key, false, bytes)]) else l
    case _ => l
  }

  function NotedAll(l: Ledger, w: World, events: seq<Event>): Ledger
    requires Valid(w.mux)
    decreases |events|
  {
    if events == [] then l
    else
      NextValid(w, events[0]);
      NotedAll(Noted(l, w, events[0]), Next(w, events[0]), events[1..])
  }

  function OfferOf(q: Queued): Offer { Offer(q.ticket, q.key, q.permit, q.message.data) }

  function Offers(queue: seq<Queued>): (r: seq<Offer>)
    ensures |r| == |queue|
    ensures forall i | 0 <= i < |r| :: r[i] == OfferOf(queue[i])
  {
    seq(|queue|, i requires 0 <= i < |queue| => OfferOf(queue[i]))
  }

  /** How often an offer is in a queue. */
  function Times(queue: seq<Queued>, o: Offer): nat
  {
    if queue == [] then 0 else (if OfferOf(queue[0]) == o then 1 else 0) + Times(queue[1..], o)
  }

  /** How often it is among what was taken in and has not been sent in full. */
  function Held(s: Mux, o: Offer): nat
  {
    Times(AsSeq(s.bulk), o) + Times(s.waiting, o) + Times(s.data, o) + Times(s.control, o)
  }

  lemma {:induction false} TimesAppend(a: seq<Queued>, b: seq<Queued>, o: Offer)
    ensures Times(a + b, o) == Times(a, o) + Times(b, o)
  {
    if a == [] {
      assert a + b == b;
    } else {
      assert (a + b)[1..] == a[1..] + b;
      TimesAppend(a[1..], b, o);
    }
  }

  lemma TimesOne(q: Queued, o: Offer)
    ensures Times([q], o) == if OfferOf(q) == o then 1 else 0
  {
    assert [q][1..] == [];
  }

  lemma TimesRemove(a: seq<Queued>, i: nat, o: Offer)
    requires i < |a|
    ensures Times(a, o) == Times([a[i]], o) + Times(a[..i] + a[i + 1..], o)
  {
    assert a == a[..i] + ([a[i]] + a[i + 1..]);
    TimesAppend(a[..i], [a[i]] + a[i + 1..], o);
    TimesAppend([a[i]], a[i + 1..], o);
    TimesAppend(a[..i], a[i + 1..], o);
  }

  lemma TimesHead(a: seq<Queued>, o: Offer)
    requires a != []
    ensures Times(a, o) == Times([a[0]], o) + Times(a[1..], o)
  {
    TimesOne(a[0], o);
  }

  lemma {:induction false} TimesIsCount(queue: seq<Queued>, o: Offer)
    ensures Times(queue, o) == multiset(Offers(queue))[o]
  {
    if queue != [] {
      TimesIsCount(queue[1..], o);
      assert Offers(queue) == [OfferOf(queue[0])] + Offers(queue[1..]);
    }
  }

  // ----- nothing is made up, changed or forgotten -----

  /** How often an offer was given a slot, or taken as a heartbeat. */
  function Taken(l: Ledger, o: Offer): nat
  {
    multiset(l.slots)[o] + multiset(l.beats)[o]
  }

  /** It is as often held, sent in full, or lost. */
  predicate Kept(w: World, l: Ledger, o: Offer)
  {
    Held(w.mux, o) + Times(Finished(w.log), o) + Times(w.lost, o) == Taken(l, o)
  }

  predicate Agrees(w: World, l: Ledger)
  {
    Offers(w.mux.sending) == l.asked && Offers(w.accepted) == l.slots
  }

  /** No two offers share a ticket. */
  ghost predicate Distinct(offers: multiset<Offer>, limit: nat)
  {
    && (forall o | o in offers :: o.ticket < limit && offers[o] == 1)
    && (forall o, p | o in offers && p in offers && o.ticket == p.ticket :: o == p)
  }

  function AllOffers(l: Ledger): multiset<Offer>
  {
    multiset(l.asked) + multiset(l.slots) + multiset(l.beats)
  }

  lemma PullHeld(s: Mux, o: Offer)
    ensures Held(Pull(s), o) == Held(s, o)
  {
    PullSame(s);
    TimesAppend(s.waiting, s.data, o);
    TimesAppend(Pull(s).waiting, Pull(s).data, o);
  }

  lemma TakeHeld(s: Mux, o: Offer)
    requires !Choose(s).Nothing?
    ensures var (next, rest) := Take(s, Choose(s));
      Held(s, o) == Times([next], o) + Held(rest, o)
  {
    match Choose(s)
    case Urgent => TimesHead(s.control, o);
    case Overtake(i) => TimesRemove(s.waiting, i, o);
    case Resume =>
    case Front => TimesHead(s.waiting, o);
  }

  lemma EmitHeld(s: Mux, next: Queued, o: Offer)
    requires next.message.Valid() && !next.message.Finished()
    requires !EncodeNext(s.nextId, next.message).1.Finished() ==> s.bulk.None?
    ensures var (after, sent) := Emit(s, next);
      Held(after, o) + Times(Done(sent.queued), o) == Times([next], o) + Held(s, o)
  {
    var (after, sent) := Emit(s, next);
    TimesOne(sent.queued, o);
    TimesOne(next, o);
  }

  function SentBy(r: (Mux, Option<Sent>)): seq<Queued>
  {
    if r.1.Some? then Done(r.1.value.queued) else []
  }

  lemma PassHeld(s: Mux, o: Offer)
    requires Valid(s)
    ensures Held(Iterate(s).0, o) + Times(SentBy(Iterate(s)), o) == Held(s, o)
  {
    if s.phase.Running? {
      var p := Pull(s);
      PullHeld(s, o);
      PullShape(s);
      if !Choose(p).Nothing? {
        TakenIsReady(p);
        OvertakerFinishes(p);
        TakeHeld(p, o);
        EmitHeld(Take(p, Choose(p)).1, Take(p, Choose(p)).0, o);
      }
    }
  }

  lemma PassSenders(s: Mux)
    requires Valid(s)
    ensures Iterate(s).0.sending == s.sending
  {
    if s.phase.Running? {
      var p := Pull(s);
      PullShape(s);
      if !Choose(p).Nothing? {
        TakenIsReady(p);
        TakeSenders(p);
        EmitSenders(Take(p, Choose(p)).1, Take(p, Choose(p)).0);
      }
    }
  }

  lemma TakeSenders(s: Mux)
    requires !Choose(s).Nothing?
    ensures Take(s, Choose(s)).1.sending == s.sending
  {
  }

  lemma EmitSenders(s: Mux, next: Queued)
    requires next.message.Valid() && !next.message.Finished()
    ensures Emit(s, next).0.sending == s.sending
  {
  }

  lemma PassKept(w: World, l: Ledger, o: Offer)
    requires Valid(w.mux) && Kept(w, l, o)
    ensures Kept(Next(w, Pass), l, o)
  {
    PassHeld(w.mux, o);
    SentFinished(w.log, Iterate(w.mux).1, o);
  }

  lemma SentFinished(log: seq<Sent>, sent: Option<Sent>, o: Offer)
    ensures Times(Finished(if sent.Some? then log + [sent.value] else log), o)
            == Times(Finished(log), o) + Times(if sent.Some? then Done(sent.value.queued) else [], o)
  {
    if sent.Some? {
      FinishedPush(log, sent.value);
      TimesAppend(Finished(log), Done(sent.value.queued), o);
    }
  }

  lemma WakeHeld(s: Mux, o: Offer)
    requires Valid(s)
    ensures Held(Wake(s), o) + (if Wake(s).phase.Returned? then Times(s.data, o) else 0) == Held(s, o)
  {
    if s.phase.Parked? {
      if s.control != [] {
        TimesHead(s.control, o);
        TimesAppend([s.control[0]], s.waiting, o);
      } else if s.open && s.data != [] {
        TimesHead(s.data, o);
        TimesAppend(s.waiting, [s.data[0]], o);
      }
    }
  }

  lemma WakeKept(w: World, l: Ledger, o: Offer)
    requires Valid(w.mux) && Kept(w, l, o)
    ensures Kept(Next(w, WakeUp), l, o)
  {
    WakeHeld(w.mux, o);
    TimesAppend(w.lost, w.mux.data, o);
  }

  lemma PushTimes(offers: seq<Offer>, x: Offer, o: Offer)
    ensures multiset(offers + [x])[o] == multiset(offers)[o] + if x == o then 1 else 0
  {
  }

  /** One message more in the data channel. */
  lemma SlotTaken(w: World, l: Ledger, after: Mux, q: Queued, asked: seq<Offer>, o: Offer)
    requires Agrees(w, l) && Kept(w, l, o) && Offers(after.sending) == asked
    requires after.data == w.mux.data + [q] && after.bulk == w.mux.bulk && after.waiting == w.mux.waiting
    requires after.control == w.mux.control
    ensures var n, m := OutboundRuns.Record(w, after), l.(asked := asked, slots := l.slots + [OfferOf(q)]);
      Agrees(n, m) && Kept(n, m, o)
  {
    TimesAppend(w.mux.data, [q], o);
    TimesOne(q, o);
    PushTimes(l.slots, OfferOf(q), o);
    assert after.data[|w.mux.data|] == q;
    assert Offers(w.accepted + [q]) == Offers(w.accepted) + [OfferOf(q)];
  }

  lemma AcquireKept(w: World, l: Ledger, key: string, bytes: seq<byte>, o: Offer)
    requires Valid(w.mux) && Agrees(w, l) && Kept(w, l, o)
    ensures var n, m := Next(w, AcquirePermit(key, bytes)), Noted(l, w, AcquirePermit(key, bytes));
      Agrees(n, m) && Kept(n, m, o)
  {
    if Permitted(w.mux, bytes) {
      var q := Queued(w.tickets, key, true, Outgoing(bytes, 0, None));
      assert Offers(w.mux.sending + [q]) == Offers(w.mux.sending) + [OfferOf(q)];
    }
  }

  lemma GetSlotKept(w: World, l: Ledger, i: nat, o: Offer)
    requires Valid(w.mux) && Agrees(w, l) && Kept(w, l, o)
    ensures var n, m := Next(w, GetSlot(i)), Noted(l, w, GetSlot(i)); Agrees(n, m) && Kept(n, m, o)
  {
    if i < |l.asked| && SlotFree(w.mux) {
      var asked := l.asked[..i] + l.asked[i + 1..];
      assert Offers(w.mux.sending[..i] + w.mux.sending[i + 1..]) == asked;
      SlotTaken(w, l, Deliver(w.mux, i), w.mux.sending[i], asked, o);
    }
  }

  lemma SendNowKept(w: World, l: Ledger, key: string, bytes: seq<byte>, o: Offer)
    requires Valid(w.mux) && Agrees(w, l) && Kept(w, l, o)
    ensures var n, m := Next(w, SendNow(key, bytes)), Noted(l, w, SendNow(key, bytes)); Agrees(n, m) && Kept(n, m, o)
  {
    if Permitted(w.mux, bytes) && SlotFree(w.mux) {
      var q := Queued(w.tickets, key, true, Outgoing(bytes, 0, None));
      SlotTaken(w, l, TrySend(w.mux, w.tickets, key, bytes), q, l.asked, o);
    }
  }

  lemma HeartbeatKept(w: World, l: Ledger, key: string, bytes: seq<byte>, o: Offer)
    requires Valid(w.mux) && Agrees(w, l) && Kept(w, l, o)
    ensures var n, m := Next(w, Heartbeat(key, bytes)), Noted(l, w, Heartbeat(key, bytes)); Agrees(n, m) && Kept(n, m, o)
  {
    if BeatFits(w.mux, bytes) {
      var q := Queued(w.tickets, key, false, Outgoing(bytes, 0, None));
      TimesAppend(w.mux.control, [q], o);
      TimesOne(q, o);
      PushTimes(l.beats, OfferOf(q), o);
    }
  }

  lemma NextKept(w: World, l: Ledger, e: Event, o: Offer)
    requires Valid(w.mux) && Agrees(w, l) && Kept(w, l, o)
    ensures Agrees(Next(w, e), Noted(l, w, e)) && Kept(Next(w, e), Noted(l, w, e), o)
  {
    match e
    case AcquirePermit(key, bytes) => AcquireKept(w, l, key, bytes, o);
    case GetSlot(i) => GetSlotKept(w, l, i, o);
    case SendNow(key, bytes) => SendNowKept(w, l, key, bytes, o);
    case Heartbeat(key, bytes) => HeartbeatKept(w, l, key, bytes, o);
    case Close =>
    case Pass => PassKept(w, l, o); PassSenders(w.mux);
    case WakeUp => WakeKept(w, l, o);
  }

  /** The offer an event brings, if it is taken. */
  function Brought(w: World, e: Event): multiset<Offer>
  {
    match e
    case AcquirePermit(key, bytes) =>
      if Permitted(w.mux, bytes) then multiset{Offer(w.tickets, key, true, bytes)} else multiset{}
    case SendNow(key, bytes) =>
      if Permitted(w.mux, bytes) && SlotFree(w.mux) then multiset{Offer(w.tickets, key, true, bytes)} else multiset{}
    case Heartbeat(key, bytes) =>
      if BeatFits(w.mux, bytes) then multiset{Offer(w.tickets, key, false, bytes)} else multiset{}
    case _ => multiset{}
  }

  lemma NotedBrings(l: Ledger, w: World, e: Event)
    ensures AllOffers(Noted(l, w, e)) == AllOffers(l) + Brought(w, e)
  {
    var more := Brought(w, e);
    SpreadOut(multiset(l.asked), multiset(l.slots), multiset(l.beats), more);
    match e
    case GetSlot(i) =>
      if i < |l.asked| && SlotFree(w.mux) {
        MovedOver(l.asked, i, l.slots, multiset(l.beats));
      }
    case _ =>
  }

  lemma SpreadOut<T>(a: multiset<T>, b: multiset<T>, c: multiset<T>, more: multiset<T>)
    ensures (a + more) + b + c == a + b + c + more
    ensures a + (b + more) + c == a + b + c + more
    ensures a + b + (c + more) == a + b + c + more
  {
  }

  lemma MovedOver<T>(a: seq<T>, i: nat, b: seq<T>, c: multiset<T>)
    requires i < |a|
    ensures multiset(a[..i] + a[i + 1..]) + multiset(b + [a[i]]) + c == multiset(a) + multiset(b) + c
  {
    assert a == a[..i] + ([a[i]] + a[i + 1..]);
  }

  lemma MoreDistinct(offers: multiset<Offer>, limit: nat, more: multiset<Offer>)
    requires Distinct(offers, limit)
    requires more == multiset{} || exists o: Offer :: more == multiset{o} && o.ticket == limit
    ensures Distinct(offers + more, limit + 1)
  {
  }

  lemma NextDistinct(w: World, l: Ledger, e: Event)
    requires Valid(w.mux) && Distinct(AllOffers(l), w.tickets)
    ensures Distinct(AllOffers(Noted(l, w, e)), Next(w, e).tickets)
  {
    NotedBrings(l, w, e);
    TicketsGrow(w, e);
    MoreDistinct(AllOffers(l), w.tickets, Brought(w, e));
    assert AllOffers(l) + multiset{} == AllOffers(l);
  }

  lemma TicketsGrow(w: World, e: Event)
    requires Valid(w.mux)
    ensures w.tickets <= Next(w, e).tickets
    ensures Brought(w, e) != multiset{} ==> Next(w, e).tickets == w.tickets + 1
    ensures Next(w, e).tickets <= w.tickets + 1
  {
  }

  lemma {:induction false} RunKept(w: World, l: Ledger, events: seq<Event>, o: Offer)
    requires Valid(w.mux) && Agrees(w, l) && Kept(w, l, o)
    ensures Agrees(Run(w, events), NotedAll(l, w, events)) && Kept(Run(w, events), NotedAll(l, w, events), o)
    decreases |events|
  {
    if events != [] {
      NextValid(w, events[0]);
      NextKept(w, l, events[0], o);
      RunKept(Next(w, events[0]), Noted(l, w, events[0]), events[1..], o);
    }
  }

  lemma {:induction false} RunDistinct(w: World, l: Ledger, events: seq<Event>)
    requires Valid(w.mux) && Distinct(AllOffers(l), w.tickets)
    ensures Distinct(AllOffers(NotedAll(l, w, events)), Run(w, events).tickets)
    decreases |events|
  {
    if events != [] {
      NextValid(w, events[0]);
      NextDistinct(w, l, events[0]);
      RunDistinct(Next(w, events[0]), Noted(l, w, events[0]), events[1..]);
    }
  }

  // ----- what arrives -----

  function BytesOf(offers: seq<Offer>): (r: seq<seq<byte>>)
    ensures |r| == |offers|
    ensures forall i | 0 <= i < |r| :: r[i] == offers[i].bytes
  {
    seq(|offers|, i requires 0 <= i < |offers| => offers[i].bytes)
  }

  /** The data messages of one key. */
  function OfKey(offers: seq<Offer>, key: string): seq<seq<byte>>
  {
    if offers == [] then []
    else (if offers[0].permit && offers[0].key == key then [offers[0].bytes] else []) + OfKey(offers[1..], key)
  }

  lemma {:induction false} OfKeyStream(queue: seq<Queued>, key: string)
    ensures OfKey(Offers(queue), key) == KeyStream(queue, key)
  {
    if queue != [] {
      assert Offers(queue)[1..] == Offers(queue[1..]);
      OfKeyStream(queue[1..], key);
    }
  }

  lemma {:induction false} ContentsBytes(queue: seq<Queued>)
    ensures Reassembly.Contents(queue) == BytesOf(Offers(queue))
  {
    if queue != [] {
      var n := |queue| - 1;
      ContentsBytes(queue[..n]);
      assert BytesOf(Offers(queue)) == BytesOf(Offers(queue[..n])) + [queue[n].message.data];
    }
  }

  /** The messages the receiver has, each as its sender offered it. */
  function Arrivals(w: World): seq<Offer> { Offers(Finished(w.log)) }

  /** In every state: what the senders handed in is what is queued, held, sent or lost. */
  ghost predicate Faithful(w: World, l: Ledger)
  {
    Agrees(w, l) && Distinct(AllOffers(l), w.tickets) && forall o :: Kept(w, l, o)
  }

  lemma Begun(start: World, none: Ledger)
    requires start == Initial() && none == Ledger([], [], [])
    ensures Valid(start.mux) && Faithful(start, none)
    ensures forall key :: Ordered(start, key)
  {
    InitialValid(start);
    assert Finished(start.log) == [] && Line(start.mux) == [];
  }

  /** Main result: in every run, what waits for a slot and what was given one are
      exactly the messages the senders handed in, byte for byte, under their keys,
      each once; and every one of them, and every heartbeat taken, is exactly one of:
      still held, sent in full, in the data channel when the writer returned. */
  lemma QueuedIsWhatWasSent(w: World, l: Ledger, events: seq<Event>)
    requires Valid(w.mux) && Faithful(w, l)
    ensures Faithful(Run(w, events), NotedAll(l, w, events))
    ensures forall q | q in Run(w, events).mux.sending :: q.message.Fresh()
  {
    RunDistinct(w, l, events);
    RunKept(w, l, events, Offer(0, "", true, []));
    forall o ensures Kept(Run(w, events), NotedAll(l, w, events), o) {
      RunKept(w, l, events, o);
    }
  }

  /** What the receiver has, against what was handed in. */
  predicate Delivers(w: World, l: Ledger, key: string)
  {
    && Reassembly.ReceiveAll(w.log).delivered == BytesOf(Arrivals(w))
    && (forall o | o in Arrivals(w) :: o in l.slots || o in l.beats)
    && (forall i, j | 0 <= i < j < |Arrivals(w)| :: Arrivals(w)[i] != Arrivals(w)[j])
    && OfKey(Arrivals(w), key) <= OfKey(l.slots, key)
    && (w.mux.phase.Returned? && w.lost == [] ==> OfKey(Arrivals(w), key) == OfKey(l.slots, key))
  }

  /** Main result, end to end: every message the receiver delivers is, byte for byte,
      one that a sender handed in, no offer is delivered twice, and for each key the
      data messages delivered are the first of those that got a slot, in that order;
      all of them when the writer has returned and nothing was lost. */
  lemma ReceiverGetsWhatWasSent(start: World, none: Ledger, events: seq<Event>, key: string)
    requires start == Initial() && Valid(start.mux) && none == Ledger([], [], [])
    ensures Delivers(Run(start, events), NotedAll(none, start, events), key)
  {
    Begun(start, none);
    Reassembly.ReceiverGetsWhatWasFinished(start, events);
    RunDelivers(start, none, events, key);
  }

  lemma RunDelivers(start: World, none: Ledger, events: seq<Event>, key: string)
    requires Valid(start.mux) && Faithful(start, none) && Ordered(start, key)
    requires var w := Run(start, events);
      Reassembly.ReceiveAll(w.log).delivered == Reassembly.Contents(Finished(w.log))
    ensures Delivers(Run(start, events), NotedAll(none, start, events), key)
  {
    QueuedIsWhatWasSent(start, none, events);
    RunOrdered(start, events, key);
    var w, l := Run(start, events), NotedAll(none, start, events);
    ContentsBytes(Finished(w.log));
    DeliversOffers(w, l);
    DeliversInOrder(w, l, key);
  }

  lemma DeliversOffers(w: World, l: Ledger)
    requires Distinct(AllOffers(l), w.tickets) && forall o :: Kept(w, l, o)
    ensures forall o | o in Arrivals(w) :: o in l.slots || o in l.beats
    ensures forall i, j | 0 <= i < j < |Arrivals(w)| :: Arrivals(w)[i] != Arrivals(w)[j]
  {
    forall o | o in Arrivals(w) ensures multiset(Arrivals(w))[o] == 1 && (o in l.slots || o in l.beats) {
      assert Kept(w, l, o);
      TimesIsCount(Finished(w.log), o);
      assert multiset(Arrivals(w))[o] > 0;
      TakenOnce(l, o, w.tickets);
    }
    OnceApart(Arrivals(w));
  }

  lemma TakenOnce(l: Ledger, o: Offer, limit: nat)
    requires Distinct(AllOffers(l), limit) && Taken(l, o) > 0
    ensures Taken(l, o) == 1 && (o in l.slots || o in l.beats)
  {
    assert AllOffers(l)[o] == multiset(l.asked)[o] + Taken(l, o);
    assert o in AllOffers(l);
  }

  lemma OnceApart<T>(s: seq<T>)
    requires forall x | x in s :: multiset(s)[x] == 1
    ensures forall i, j | 0 <= i < j < |s| :: s[i] != s[j]
  {
    forall i, j | 0 <= i < j < |s| ensures s[i] != s[j] {
      TwoPlaces(s, i, j);
    }
  }

  lemma TwoPlaces<T>(s: seq<T>, i: nat, j: nat)
    requires i < j < |s|
    ensures s[i] == s[j] ==> multiset(s)[s[i]] >= 2
  {
    assert s == s[..j] + ([s[j]] + s[j + 1..]);
    assert s[i] in s[..j];
    assert multiset(s) == multiset(s[..j]) + multiset([s[j]] + s[j + 1..]);
    assert s[j] in multiset([s[j]] + s[j + 1..]);
  }

  lemma DeliversInOrder(w: World, l: Ledger, key: string)
    requires Valid(w.mux) && Agrees(w, l) && Ordered(w, key)
    ensures OfKey(Arrivals(w), key) <= OfKey(l.slots, key)
    ensures w.mux.phase.Returned? && w.lost == [] ==> OfKey(Arrivals(w), key) == OfKey(l.slots, key)
  {
    OfKeyStream(Finished(w.log), key);
    OfKeyStream(w.accepted, key);
    Firsts(KeyStream(Finished(w.log), key), KeyStream(Line(w.mux), key), KeyStream(w.lost, key));
    if w.mux.phase.Returned? {
      assert Line(w.mux) == [];
    }
  }

  lemma Firsts<T>(a: seq<T>, b: seq<T>, c: seq<T>)
    ensures a <= a + b + c
    ensures b == [] && c == [] ==> a + b + c == a
  {
  }
}
