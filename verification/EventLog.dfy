/** The hub's browser events (crates/hub/src/machine_manager.rs): sequence
    numbers, the bounded history ring, snapshots and replay. Publishing is split
    into the steps other threads can get between: change the state, take a
    sequence number, append to the history, broadcast. */
module EventLog {
  import opened Basics

  const EVENT_HISTORY_LIMIT: nat := 1024
  const SEQ_RECOVERY_OFFSET: nat := 200

  /** `change` is the index of the state change the event tells about. */
  datatype Envelope = Envelope(seqno: nat, target: Option<string>, change: nat)

  datatype Hub = Hub(
    changes: nat,                 // state changes made so far, numbered from 0
    untold: set<nat>,             // changes whose event has no number yet
    next: nat,                    // `next_event_seq`
    flight: set<Envelope>,        // numbered, not yet in the history
    pushed: seq<Envelope>,        // everything ever appended to the history
    dropped: nat,                 // how many of those the ring has let go
    sending: set<Envelope>,       // in the history, not yet broadcast
    broadcast: seq<Envelope>)     // everything broadcast, in order

  function Fresh(next: nat): Hub { Hub(0, {}, next, {}, [], 0, {}, []) }

  function History(h: Hub): seq<Envelope>
    requires h.dropped <= |h.pushed|
  {
    h.pushed[h.dropped..]
  }

  datatype Step =
    | Change
    | Number(change: nat, target: Option<string>)
    | Append(e: Envelope)
    | Broadcast(e: Envelope)

  function Next(h: Hub, s: Step): Hub
  {
    match s
    case Change => h.(changes := h.changes + 1, untold := h.untold + {h.changes})
    case Number(change, target) =>
      if change !in h.untold then h
      else h.(untold := h.untold - {change}, next := h.next + 1,
              flight := h.flight + {Envelope(h.next + 1, target, change)})
    case Append(e) =>
      if e !in h.flight then h
      else
        var pushed := h.pushed + [e];
        h.(flight := h.flight - {e}, pushed := pushed, sending := h.sending + {e},
           dropped := if |pushed| - h.dropped > EVENT_HISTORY_LIMIT then h.dropped + 1 else h.dropped)
    case Broadcast(e) =>
      if e !in h.sending then h
      else h.(sending := h.sending - {e}, broadcast := h.broadcast + [e])
  }

  function Run(h: Hub, steps: seq<Step>): Hub
    decreases |steps|
  {
    if steps == [] then h else Run(Next(h, steps[0]), steps[1..])
  }

  predicate Known(h: Hub, e: Envelope) { e in h.flight || e in h.pushed }

  ghost predicate Valid(h: Hub)
  {
    && h.dropped <= |h.pushed|
    && |h.pushed| - h.dropped <= EVENT_HISTORY_LIMIT
    && (h.dropped > 0 ==> |h.pushed| - h.dropped == EVENT_HISTORY_LIMIT)
    && (forall c | c in h.untold :: c < h.changes)
    && (forall e | Known(h, e) :: 1 <= e.seqno <= h.next && e.change < h.changes)
    && (forall e, f | Known(h, e) && Known(h, f) && e.seqno == f.seqno :: e == f)
    && (forall e | e in h.flight :: e !in h.pushed)
    && (forall i, j | 0 <= i < j < |h.pushed| :: h.pushed[i].seqno != h.pushed[j].seqno)
    && (forall e :: e in h.pushed <==> e in h.sending || e in h.broadcast)
    && (forall e | e in h.sending :: e !in h.broadcast)
  }

  lemma NextValid(h: Hub, s: Step)
    requires Valid(h)
    ensures Valid(Next(h, s))
  {
    var n := Next(h, s);
    match s
    case Change =>
    case Number(change, target) =>
      assert forall e :: Known(n, e) ==> Known(h, e) || (n != h && e == Envelope(h.next + 1, target, change));
    case Append(e) =>
      if e in h.flight {
        assert forall f :: f in n.pushed <==> f in h.pushed || f == e;
        assert forall f :: Known(n, f) <==> Known(h, f);
        forall i | 0 <= i < |h.pushed| ensures h.pushed[i].seqno != e.seqno {
          assert Known(h, h.pushed[i]) && Known(h, e);
        }
      }
    case Broadcast(e) =>
      assert forall f :: Known(n, f) <==> Known(h, f);
  }

  lemma {:induction false} RunValid(h: Hub, steps: seq<Step>)
    requires Valid(h)
    ensures Valid(Run(h, steps))
    decreases |steps|
  {
    if steps != [] {
      NextValid(h, steps[0]);
      RunValid(Next(h, steps[0]), steps[1..]);
    }
  }

  /** The past does not change: logs only grow, and a number that had been taken
      belongs to an event that was already known. */
  ghost predicate Extends(h: Hub, later: Hub)
  {
    && h.changes <= later.changes && h.next <= later.next && h.dropped <= later.dropped
    && h.pushed <= later.pushed && h.broadcast <= later.broadcast
    && (forall e | Known(later, e) && e.seqno <= h.next :: Known(h, e))
  }

  lemma NextExtends(h: Hub, s: Step)
    ensures Extends(h, Next(h, s))
  {
  }

  lemma {:induction false} RunExtends(h: Hub, steps: seq<Step>)
    ensures Extends(h, Run(h, steps))
    decreases |steps|
  {
    if steps != [] {
      NextExtends(h, steps[0]);
      RunExtends(Next(h, steps[0]), steps[1..]);
    }
  }

  // ----- subscribing -----

  /** `history_has_gap_after_seq` */
  predicate HasGapAfter(history: seq<Envelope>, after: nat)
  {
    if after == 0 || history == [] then false else after + 1 < history[0].seqno
  }

  /** `event_visible_to` */
  predicate VisibleTo(e: Envelope, user: Option<string>)
  {
    e.target.None? || e.target == user
  }

  function Replay(history: seq<Envelope>, user: Option<string>, after: nat): (r: seq<Envelope>)
    ensures forall e :: e in r <==> e in history && e.seqno > after && VisibleTo(e, user)
  {
    if history == [] then []
    else (if history[0].seqno > after && VisibleTo(history[0], user) then [history[0]] else [])
         + Replay(history[1..], user, after)
  }

  datatype Subscription = Subscription(from: nat, requiresResync: bool, replay: seq<Envelope>)

  /** `build_event_subscription`: the receiver was created at `start`, the history
      is read at `h`. */
  function Subscribe(start: Hub, h: Hub, user: Option<string>, after: nat): Subscription
    requires h.dropped <= |h.pushed|
  {
    var gap := HasGapAfter(History(h), after);
    Subscription(|start.broadcast|, gap, if gap then [] else Replay(History(h), user, after))
  }

  /** What the subscriber gets to see by the time of `h`. */
  ghost predicate Delivered(sub: Subscription, h: Hub, e: Envelope)
  {
    e in sub.replay || (sub.from <= |h.broadcast| && e in h.broadcast[sub.from..])
  }

  /** No event of `user` that the ring has let go is newer than the oldest it has. */
  ghost predicate EvictedInOrder(h: Hub, user: Option<string>)
    requires h.dropped <= |h.pushed|
  {
    History(h) != [] ==>
      forall e | e in h.pushed[..h.dropped] && VisibleTo(e, user) :: e.seqno < History(h)[0].seqno
  }

  lemma InHistoryOrEvicted(h: Hub, e: Envelope)
    requires Valid(h) && e in h.pushed
    ensures e in History(h) || (e in h.pushed[..h.dropped] && History(h) != [])
  {
    assert h.pushed == h.pushed[..h.dropped] + History(h);
  }

  lemma InHistoryIsReplayed(start: Hub, read: Hub, user: Option<string>, after: nat, e: Envelope)
    requires Valid(read) && EvictedInOrder(read, user) && after != 0
    requires e in read.pushed && e.seqno > after && VisibleTo(e, user)
    ensures var sub := Subscribe(start, read, user, after); sub.requiresResync || e in sub.replay
  {
    InHistoryOrEvicted(read, e);
  }

  /** Main result. Between creating the receiver, reading the history and now,
      the hub may take any steps. If the ring lost nothing out of order, every
      published event past `after` has been delivered or a resync was asked for. */
  lemma NothingMissed(start: Hub, before: seq<Step>, since: seq<Step>,
                      user: Option<string>, after: nat, e: Envelope)
    requires Valid(start) && after != 0
    requires var read := Run(start, before); read.dropped <= |read.pushed| && EvictedInOrder(read, user)
    requires e in Run(Run(start, before), since).broadcast && e.seqno > after && VisibleTo(e, user)
    ensures var read := Run(start, before);
            var sub := Subscribe(start, read, user, after);
            sub.requiresResync || Delivered(sub, Run(read, since), e)
  {
    var read := Run(start, before);
    RunValid(start, before);
    EarlierOrLater(start, before, since, e);
    if e !in Run(read, since).broadcast[|start.broadcast|..] {
      InHistoryIsReplayed(start, read, user, after, e);
    }
  }

  /** What has been broadcast by now was broadcast before the receiver was created,
      and is then in the ring or past it, or it reaches the receiver. */
  lemma EarlierOrLater(start: Hub, before: seq<Step>, since: seq<Step>, e: Envelope)
    requires Valid(start) && e in Run(Run(start, before), since).broadcast
    ensures var read := Run(start, before);
      && |start.broadcast| <= |Run(read, since).broadcast|
      && (e in start.broadcast || e in Run(read, since).broadcast[|start.broadcast|..])
      && (e in start.broadcast ==> e in read.pushed && Known(read, e))
  {
    var read := Run(start, before);
    RunExtends(start, before);
    RunExtends(read, since);
    var now := Run(read, since);
    assert now.broadcast == start.broadcast + now.broadcast[|start.broadcast|..];
    if e in start.broadcast {
      assert e in start.pushed;
    }
  }

  lemma {:induction false} BroadcastOnce(h: Hub, steps: seq<Step>, e: Envelope)
    requires Valid(h) && e in h.pushed && e !in h.sending
    ensures |h.broadcast| <= |Run(h, steps).broadcast|
    ensures e !in Run(h, steps).broadcast[|h.broadcast|..]
    decreases |steps|
  {
    if steps != [] {
      var n := Next(h, steps[0]);
      NextValid(h, steps[0]);
      BroadcastOnce(n, steps[1..], e);
      RunExtends(n, steps[1..]);
      var late := Run(n, steps[1..]).broadcast;
      assert late[|h.broadcast|..] == n.broadcast[|h.broadcast|..] + late[|n.broadcast|..];
    }
  }

  /** The other half: when the ring has let go of an event newer than its oldest,
      a subscriber that asks from that oldest is told there is no gap, and the
      event never reaches it, whatever happens later. */
  lemma OutOfOrderEvictionIsMissed(h: Hub, e: Envelope, user: Option<string>, since: seq<Step>)
    requires Valid(h) && e in h.pushed[..h.dropped] && e in h.broadcast && VisibleTo(e, user)
    requires e.seqno > History(h)[0].seqno
    ensures var after := History(h)[0].seqno;
            var sub := Subscribe(h, h, user, after);
            after != 0 && e.seqno > after && !sub.requiresResync
            && e in Run(h, since).broadcast && !Delivered(sub, Run(h, since), e)
  {
    var k :| 0 <= k < h.dropped && h.pushed[k] == e;
    assert Known(h, h.pushed[h.dropped]);
    forall i | 0 <= i < |History(h)| ensures History(h)[i] != e {
      assert h.pushed[h.dropped + i].seqno != h.pushed[k].seqno;
    }
    RunExtends(h, since);
    BroadcastOnce(h, since, e);
  }

  /** Exactly when every subscriber of `user` sees all it asked for. */
  lemma MissesNothingExactlyWhenInOrder(h: Hub, user: Option<string>)
    requires Valid(h) && h.sending == {}
    ensures EvictedInOrder(h, user)
            <==> forall after: nat, e | after != 0 && e in h.broadcast && e.seqno > after && VisibleTo(e, user) ::
                   var sub := Subscribe(h, h, user, after); sub.requiresResync || Delivered(sub, h, e)
  {
    if EvictedInOrder(h, user) {
      forall after: nat, e | after != 0 && e in h.broadcast && e.seqno > after && VisibleTo(e, user)
        ensures var sub := Subscribe(h, h, user, after); sub.requiresResync || Delivered(sub, h, e)
      {
        NothingMissed(h, [], [], user, after, e);
      }
    } else {
      var e :| e in h.pushed[..h.dropped] && VisibleTo(e, user) && e.seqno >= History(h)[0].seqno;
      var k :| 0 <= k < h.dropped && h.pushed[k] == e;
      assert h.pushed[k].seqno != h.pushed[h.dropped].seqno;
      OutOfOrderEvictionIsMissed(h, e, user, []);
      assert Run(h, []) == h;
    }
  }

  lemma EvictedOrKept(h: Hub, e: Envelope)
    requires Valid(h) && e in h.pushed
    ensures e in History(h) <==> e !in h.pushed[..h.dropped]
  {
    InHistoryOrEvicted(h, e);
    forall k, i | 0 <= k < h.dropped && 0 <= i < |History(h)| ensures History(h)[i] != h.pushed[k] {
      assert h.pushed[h.dropped + i].seqno != h.pushed[k].seqno;
    }
  }

  /** A browser that starts from sequence 0 is never asked to resync. Whatever the
      hub does while it subscribes and after, it misses exactly the visible events
      that were broadcast before it subscribed and that the ring had let go of when
      the history was read. */
  lemma FromZero(start: Hub, before: seq<Step>, since: seq<Step>, user: Option<string>, e: Envelope)
    requires Valid(start) && VisibleTo(e, user)
    requires e in Run(Run(start, before), since).broadcast
    ensures var read := Run(start, before);
      && read.dropped <= |read.pushed|
      && var sub := Subscribe(start, read, user, 0);
         && !sub.requiresResync
         && (Delivered(sub, Run(read, since), e) <==> !(e in start.broadcast && e in read.pushed[..read.dropped]))
  {
    var read := Run(start, before);
    RunValid(start, before);
    EarlierOrLater(start, before, since, e);
    if e in start.broadcast {
      assert e in start.pushed;
      EvictedOrKept(read, e);
      BroadcastOnce(start, before + since, e);
      RunTwice(start, before, since);
    }
  }

  lemma {:induction false} RunTwice(h: Hub, first: seq<Step>, more: seq<Step>)
    ensures Run(h, first + more) == Run(Run(h, first), more)
    decreases |first|
  {
    if first == [] {
      assert first + more == more;
    } else {
      assert (first + more)[1..] == first[1..] + more;
      RunTwice(Next(h, first[0]), first[1..], more);
    }
  }

  // ----- numbering and appending as one step -----

  /** Appends happen in the order of the numbers. */
  ghost predicate InOrder(h: Hub)
  {
    && (forall i, j | 0 <= i < j < |h.pushed| :: h.pushed[i].seqno < h.pushed[j].seqno)
    && (forall e, i | e in h.flight && 0 <= i < |h.pushed| :: h.pushed[i].seqno < e.seqno)
  }

  /** Publishers that append in the order in which they took their numbers. */
  ghost predicate Orderly(h: Hub, steps: seq<Step>)
    decreases |steps|
  {
    steps == []
    || ((steps[0].Append? ==> forall f | f in h.flight :: steps[0].e.seqno <= f.seqno)
        && Orderly(Next(h, steps[0]), steps[1..]))
  }

  lemma NextInOrder(h: Hub, s: Step)
    requires Valid(h) && InOrder(h)
    requires s.Append? ==> forall f | f in h.flight :: s.e.seqno <= f.seqno
    ensures InOrder(Next(h, s))
  {
    match s
    case Number(change, target) => NumberInOrder(h, change, target);
    case Append(e) =>
      if e in h.flight {
        AppendInOrder(h, e);
      }
    case _ =>
  }

  lemma NumberInOrder(h: Hub, change: nat, target: Option<string>)
    requires Valid(h) && InOrder(h)
    ensures InOrder(Next(h, Number(change, target)))
  {
    forall i | 0 <= i < |h.pushed| ensures h.pushed[i].seqno <= h.next {
      assert Known(h, h.pushed[i]);
    }
  }

  lemma AppendInOrder(h: Hub, e: Envelope)
    requires Valid(h) && InOrder(h) && e in h.flight && forall f | f in h.flight :: e.seqno <= f.seqno
    ensures InOrder(Next(h, Append(e)))
  {
    forall f | f in h.flight && f != e ensures e.seqno < f.seqno {
      assert Known(h, f) && Known(h, e);
    }
    assert Next(h, Append(e)).pushed == h.pushed + [e] && Next(h, Append(e)).flight == h.flight - {e};
  }

  /** Under orderly publishing the ring never loses anything out of order, so
      the result above needs no condition. */
  lemma {:induction false} OrderlyRunsLoseInOrder(h: Hub, steps: seq<Step>, user: Option<string>)
    requires Valid(h) && InOrder(h) && Orderly(h, steps)
    ensures Valid(Run(h, steps)) && EvictedInOrder(Run(h, steps), user)
    decreases |steps|
  {
    if steps != [] {
      NextValid(h, steps[0]);
      NextInOrder(h, steps[0]);
      OrderlyRunsLoseInOrder(Next(h, steps[0]), steps[1..], user);
    } else if History(h) != [] {
      forall e | e in h.pushed[..h.dropped] ensures e.seqno < History(h)[0].seqno {
        var k :| 0 <= k < h.dropped && h.pushed[k] == e;
        assert h.pushed[k].seqno < h.pushed[h.dropped].seqno;
      }
    }
  }
}
