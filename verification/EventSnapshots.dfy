/** Snapshots followed by replay, a run in which publishers overtake each other,
    and what a restart of the hub does to sequence numbers. */
module EventSnapshots {
  import opened Basics
  import opened EventLog

  // ----- snapshot plus replay -----

  /** A snapshot loads the sequence number first and reads the state later: it
      shows every change whose event has a number up to the one it carries. */
  lemma SnapshotReflects(load: Hub, between: seq<Step>, since: seq<Step>, e: Envelope)
    requires Valid(load)
    requires Known(Run(Run(load, between), since), e) && e.seqno <= load.next
    ensures e.change < Run(load, between).changes
  {
    RunExtends(load, between);
    RunExtends(Run(load, between), since);
    assert Known(Run(load, between), e);
  }

  /** Main result: for a browser that loads a snapshot and then subscribes after
      the snapshot's number, with the hub taking any steps in between, each
      visible published event is shown by the snapshot, delivered, or covered by
      a resync. From number 0 this needs a ring that has let nothing go. */
  lemma SnapshotPlusReplay(load: Hub, a: seq<Step>, b: seq<Step>, c: seq<Step>, d: seq<Step>,
                           user: Option<string>, e: Envelope)
    requires Valid(load)
    requires var hist := Run(Run(Run(load, a), b), c);
             hist.dropped <= |hist.pushed|
             && if load.next == 0 then hist.dropped == 0 else EvictedInOrder(hist, user)
    requires e in Run(Run(Run(Run(load, a), b), c), d).broadcast && VisibleTo(e, user)
    ensures var read := Run(load, a);
            var start := Run(read, b);
            var hist := Run(start, c);
            var sub := Subscribe(start, hist, user, load.next);
            e.change < read.changes || sub.requiresResync || Delivered(sub, Run(hist, d), e)
  {
    var read := Run(load, a);
    var start := Run(read, b);
    RunValid(load, a);
    RunValid(read, b);
    RunValid(start, c);
    RunValid(Run(start, c), d);
    if e.seqno <= load.next {
      RunTwice(read, b, c + d);
      RunTwice(start, c, d);
      assert Known(Run(read, b + (c + d)), e);
      SnapshotReflects(load, a, b + (c + d), e);
    } else if load.next != 0 {
      NothingMissed(start, c, d, user, load.next, e);
    } else {
      FromZeroMissesNothing(start, c, d, user, e);
    }
  }

  lemma FromZeroMissesNothing(start: Hub, c: seq<Step>, d: seq<Step>, user: Option<string>, e: Envelope)
    requires Valid(start) && Valid(Run(start, c)) && Run(start, c).dropped == 0
    requires e in Run(Run(start, c), d).broadcast && VisibleTo(e, user)
    ensures Delivered(Subscribe(start, Run(start, c), user, 0), Run(Run(start, c), d), e)
  {
    FromZero(start, c, d, user, e);
  }

  // ----- publishers that overtake each other -----

  predicate Quiet(h: Hub) { h.untold == {} && h.flight == {} && h.sending == {} }

  function Coming(h: Hub): Envelope { Envelope(h.next + 1, None, h.changes) }

  function PublishSteps(h: Hub): seq<Step>
  {
    [Change, Number(h.changes, None), Append(Coming(h)), Broadcast(Coming(h))]
  }

  lemma FourSteps(h: Hub, a: Step, b: Step, c: Step, d: Step)
    ensures Run(h, [a, b, c, d]) == Next(Next(Next(Next(h, a), b), c), d)
  {
    assert [a, b, c, d][1..] == [b, c, d] && [b, c, d][1..] == [c, d] && [c, d][1..] == [d] && [d][1..] == [];
    var z := Next(Next(Next(h, a), b), c);
    assert Run(z, [d]) == Run(Next(z, d), []);
    assert Run(Next(Next(h, a), b), [c, d]) == Run(z, [d]);
  }

  lemma PublishOne(h: Hub)
    requires Quiet(h)
    ensures var n := Run(h, PublishSteps(h));
            Quiet(n) && n.pushed == h.pushed + [Coming(h)] && n.broadcast == h.broadcast + [Coming(h)]
            && n.next == h.next + 1 && n.changes == h.changes + 1
            && n.dropped == (if |h.pushed| + 1 - h.dropped > EVENT_HISTORY_LIMIT then h.dropped + 1 else h.dropped)
  {
    FourSteps(h, Change, Number(h.changes, None), Append(Coming(h)), Broadcast(Coming(h)));
    var n2 := Next(Next(h, Change), Number(h.changes, None));
    assert n2.untold == {} && n2.flight == {Coming(h)};
  }

  /** Publish `n` events one after the other. */
  lemma {:induction false} PublishLater(h: Hub, n: nat) returns (steps: seq<Step>)
    requires Quiet(h) && |h.pushed| + n <= EVENT_HISTORY_LIMIT + 1
    requires h.dropped == if |h.pushed| > EVENT_HISTORY_LIMIT then 1 else 0
    ensures var r := Run(h, steps);
            Quiet(r) && h.pushed <= r.pushed && |r.pushed| == |h.pushed| + n && h.broadcast <= r.broadcast
            && r.dropped == if |h.pushed| + n > EVENT_HISTORY_LIMIT then 1 else 0
    decreases n
  {
    if n == 0 {
      steps := [];
    } else {
      PublishOne(h);
      var rest := PublishLater(Run(h, PublishSteps(h)), n - 1);
      steps := PublishSteps(h) + rest;
      RunTwice(h, PublishSteps(h), rest);
    }
  }

  /** Two publishers that append in the wrong order. */
  function Overtaken(): seq<Step>
  {
    var e1, e2 := Envelope(1, None, 0), Envelope(2, None, 1);
    [Change, Change, Number(0, None), Number(1, None)] + [Append(e2), Append(e1), Broadcast(e2), Broadcast(e1)]
  }

  lemma OvertakenState(h: Hub)
    requires h == Fresh(0)
    ensures var r := Run(h, Overtaken());
            var e1, e2 := Envelope(1, None, 0), Envelope(2, None, 1);
            Quiet(r) && r.pushed == [e2, e1] && r.broadcast == [e2, e1] && r.dropped == 0
  {
    var e1, e2 := Envelope(1, None, 0), Envelope(2, None, 1);
    RunTwice(h, [Change, Change, Number(0, None), Number(1, None)], [Append(e2), Append(e1), Broadcast(e2), Broadcast(e1)]);
    FourSteps(h, Change, Change, Number(0, None), Number(1, None));
    var x := Next(Next(Next(Next(h, Change), Change), Number(0, None)), Number(1, None));
    assert x.untold == {} && x.flight == {e1, e2} && x.next == 2;
    FourSteps(x, Append(e2), Append(e1), Broadcast(e2), Broadcast(e1));
    var y := Next(Next(x, Append(e2)), Append(e1));
    assert y.flight == {} && y.sending == {e1, e2} && y.pushed == [e2, e1];
  }

  /** The condition of the replay result can fail: two publishers overtake each
      other and 1023 events later the ring drops the newer of the two first, so a
      browser that has seen number 1 never learns of number 2. */
  lemma PublishersMayOvertake(h: Hub) returns (steps: seq<Step>)
    requires h == Fresh(0)
    ensures var r := Run(h, steps);
            var missed := Envelope(2, None, 1);
            Valid(r) && missed in r.broadcast && !EvictedInOrder(r, None)
            && !Subscribe(r, r, None, 1).requiresResync && !Delivered(Subscribe(r, r, None, 1), r, missed)
  {
    var e1, e2 := Envelope(1, None, 0), Envelope(2, None, 1);
    OvertakenState(h);
    var x := Run(h, Overtaken());
    var more := PublishLater(x, EVENT_HISTORY_LIMIT - 1);
    steps := Overtaken() + more;
    RunTwice(h, Overtaken(), more);
    RunValid(h, steps);
    StartsSwapped(x, Run(x, more), e1, e2);
    NewerDroppedFirst(Run(h, steps), e1, e2);
  }

  lemma StartsSwapped(x: Hub, r: Hub, first: Envelope, second: Envelope)
    requires x.pushed == [second, first] && x.broadcast == [second, first]
    requires x.pushed <= r.pushed && x.broadcast <= r.broadcast
    ensures |r.pushed| > 1 && r.pushed[0] == second && r.pushed[1] == first && second in r.broadcast
  {
    assert r.broadcast[0] == second;
  }

  lemma NewerDroppedFirst(r: Hub, first: Envelope, second: Envelope)
    requires Valid(r) && r.dropped == 1 && |r.pushed| > 1 && r.pushed[0] == second && r.pushed[1] == first
    requires second in r.broadcast && second.target.None? && first.seqno < second.seqno
    ensures !EvictedInOrder(r, None)
    ensures var sub := Subscribe(r, r, None, first.seqno); !sub.requiresResync && !Delivered(sub, r, second)
  {
    assert r.pushed[..1] == [second] && History(r)[0] == first;
    OutOfOrderEvictionIsMissed(r, second, None, []);
    assert Run(r, []) == r;
  }

  // ----- restart -----

  /** Where a new process goes on counting: some way past the number that was
      flushed last, or at 0 if none was. */
  function Base(flushed: Option<nat>): nat
  {
    if flushed.Some? then flushed.value + SEQ_RECOVERY_OFFSET else 0
  }

  /** Every number since the process started belongs to an event. */
  ghost predicate AllTaken(h: Hub, base: nat)
  {
    base <= h.next && forall n | base < n <= h.next :: Taken(h, n)
  }

  ghost predicate Taken(h: Hub, n: nat)
  {
    exists e :: Known(h, e) && e.seqno == n
  }

  lemma NextTaken(h: Hub, s: Step, base: nat)
    requires AllTaken(h, base)
    ensures AllTaken(Next(h, s), base)
  {
    var r := Next(h, s);
    forall n | base < n <= r.next ensures Taken(r, n) {
      if n <= h.next {
        assert Taken(h, n);
        var e :| Known(h, e) && e.seqno == n;
        assert Known(r, e);
      } else {
        assert Known(r, Envelope(h.next + 1, s.target, s.change));
      }
    }
  }

  lemma {:induction false} RunTaken(h: Hub, steps: seq<Step>, base: nat)
    requires AllTaken(h, base)
    ensures AllTaken(Run(h, steps), base)
    decreases |steps|
  {
    if steps != [] {
      NextTaken(h, steps[0], base);
      RunTaken(Next(h, steps[0]), steps[1..], base);
    }
  }

  /** A new process numbers every event it will ever publish above every event of
      the old one. */
  ghost predicate GoesUp(was: Hub, base: nat)
  {
    forall steps, e, f | Known(was, e) && Known(Run(Fresh(base), steps), f) :: e.seqno < f.seqno
  }

  lemma NewNumbers(base: nat, steps: seq<Step>, f: Envelope)
    requires Known(Run(Fresh(base), steps), f)
    ensures f.seqno > base
  {
    RunExtends(Fresh(base), steps);
    assert !Known(Fresh(base), f);
  }

  /** The first number a new process gives. */
  lemma FirstNumber(base: nat) returns (steps: seq<Step>, f: Envelope)
    ensures Known(Run(Fresh(base), steps), f) && f.seqno == base + 1
  {
    var h := Fresh(base);
    steps := [Change, Number(0, None)];
    f := Envelope(base + 1, None, 0);
    assert steps[1..] == [Number(0, None)] && steps[1..][1..] == [];
    var x := Next(h, Change);
    assert Run(x, steps[1..]) == Run(Next(x, Number(0, None)), []);
  }

  /** Main result: over a restart, numbers go up in every run of the new process
      exactly if the old one gave no number past the base of the new one (or none at
      all). A hub that never flushed restarts from 0 and gives its numbers twice. */
  lemma RestartIsMonotone(base: nat, before: seq<Step>, was: Hub, flushed: Option<nat>)
    requires was == Run(Fresh(base), before)
    ensures GoesUp(was, Base(flushed)) <==> was.next <= Base(flushed) || was.next == base
    ensures flushed.None? && was.next > base ==> !GoesUp(was, Base(flushed))
  {
    RunValid(Fresh(base), before);
    RunTaken(Fresh(base), before, base);
    if was.next <= Base(flushed) || was.next == base {
      forall steps, e, f | Known(was, e) && Known(Run(Fresh(Base(flushed)), steps), f)
        ensures e.seqno < f.seqno
      {
        NewNumbers(Base(flushed), steps, f);
        NewNumbers(base, before, e);
      }
    } else {
      assert Taken(was, was.next);
      var e :| Known(was, e) && e.seqno == was.next;
      var steps, f := FirstNumber(Base(flushed));
      assert e.seqno >= f.seqno;
    }
  }

  /** How a browser that had seen a number of the old process is received by the
      new one: it is told to resync exactly once something has been published. */
  lemma RestartGap(flushed: Option<nat>, steps: seq<Step>, start: Hub, user: Option<string>, after: nat)
    requires 0 < after < Base(flushed)
    ensures var h := Run(Fresh(Base(flushed)), steps);
      && h.dropped <= |h.pushed|
      && (Subscribe(start, h, user, after).requiresResync <==> h.pushed != [])
  {
    var h := Run(Fresh(Base(flushed)), steps);
    RunValid(Fresh(Base(flushed)), steps);
    if h.pushed != [] {
      NewNumbers(Base(flushed), steps, History(h)[0]);
    }
  }
}
