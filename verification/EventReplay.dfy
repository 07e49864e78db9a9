/** In which order a subscriber gets what it missed, and what it makes of it. */
module EventReplay {
  import opened Basics
  import opened EventLog
  import Leases

  predicate Wanted(e: Envelope, user: Option<string>, after: nat)
  {
    e.seqno > after && (e.target.None? || e.target == user)
  }

  predicate Increasing(at: seq<nat>)
  {
    forall i, j | 0 <= i < j < |at| :: at[i] < at[j]
  }

  /** `replay` lists what is wanted of the history, from the positions `at`: each such
      entry once, in the order of the history. */
  predicate Picks(history: seq<Envelope>, user: Option<string>, after: nat, replay: seq<Envelope>, at: seq<nat>)
  {
    && |at| == |replay| && Increasing(at)
    && (forall k | 0 <= k < |at| :: at[k] < |history| && replay[k] == history[at[k]])
    && (forall i | 0 <= i < |history| :: i in at <==> Wanted(history[i], user, after))
  }

  lemma PicksPush(history: seq<Envelope>, user: Option<string>, after: nat, replay: seq<Envelope>, at: seq<nat>, e: Envelope)
    requires Picks(history, user, after, replay, at)
    ensures if Wanted(e, user, after) then Picks(history + [e], user, after, replay + [e], at + [|history|])
            else Picks(history + [e], user, after, replay, at)
  {
    assert forall k | 0 <= k < |at| :: at[k] in at;
    forall i | 0 <= i < |history| + 1
      ensures i in at + [|history|] <==> i in at || i == |history|
      ensures i in at ==> i < |history|
    {
      if i in at {
        var k :| 0 <= k < |at| && at[k] == i;
      }
    }
  }

  lemma {:induction false} ReplayPush(history: seq<Envelope>, user: Option<string>, after: nat, e: Envelope)
    ensures Replay(history + [e], user, after) == Replay(history, user, after) + Found(e, user, after)
  {
    if history == [] {
      assert (history + [e])[1..] == [];
    } else {
      assert (history + [e])[1..] == history[1..] + [e] && (history + [e])[0] == history[0];
      ReplayPush(history[1..], user, after, e);
      Assoc(Found(history[0], user, after), Replay(history[1..], user, after), Found(e, user, after));
    }
  }

  function Found(e: Envelope, user: Option<string>, after: nat): seq<Envelope>
  {
    if Wanted(e, user, after) then [e] else []
  }

  /** How far the filter has come after `i` entries. */
  predicate Filtered(history: seq<Envelope>, i: nat, user: Option<string>, after: nat, replay: seq<Envelope>, at: seq<nat>)
    requires i <= |history|
  {
    replay == Replay(history[..i], user, after) && Picks(history[..i], user, after, replay, at)
  }

  lemma FilterStart(history: seq<Envelope>, user: Option<string>, after: nat)
    ensures Filtered(history, 0, user, after, [], [])
  {
  }

  lemma FilterDone(history: seq<Envelope>, user: Option<string>, after: nat, replay: seq<Envelope>, at: seq<nat>)
    requires Filtered(history, |history|, user, after, replay, at)
    ensures replay == Replay(history, user, after) && Picks(history, user, after, replay, at)
  {
    assert history[..|history|] == history;
  }

  lemma FilterOne(history: seq<Envelope>, i: nat, user: Option<string>, after: nat, replay: seq<Envelope>, at: seq<nat>)
    requires i < |history| && Filtered(history, i, user, after, replay, at)
    ensures if Wanted(history[i], user, after) then Filtered(history, i + 1, user, after, replay + [history[i]], at + [i])
            else Filtered(history, i + 1, user, after, replay, at)
  {
    assert history[..i + 1] == history[..i] + [history[i]];
    FilterPush(history[..i], history[i], user, after, replay, at);
  }

  lemma FilterPush(history: seq<Envelope>, e: Envelope, user: Option<string>, after: nat, replay: seq<Envelope>, at: seq<nat>)
    requires replay == Replay(history, user, after) && Picks(history, user, after, replay, at)
    ensures if Wanted(e, user, after)
            then replay + [e] == Replay(history + [e], user, after)
                 && Picks(history + [e], user, after, replay + [e], at + [|history|])
            else replay == Replay(history + [e], user, after) && Picks(history + [e], user, after, replay, at)
  {
    ReplayPush(history, user, after, e);
    PicksPush(history, user, after, replay, at, e);
    assert replay + [] == replay;
  }

  /** Main result: a replay is what is wanted of the history, nothing left out, each
      entry once and in the order of the history. */
  lemma {:induction false} ReplayInOrder(history: seq<Envelope>, user: Option<string>, after: nat) returns (at: seq<nat>)
    ensures Picks(history, user, after, Replay(history, user, after), at)
  {
    if history == [] {
      at := [];
    } else {
      var n := |history| - 1;
      var before := ReplayInOrder(history[..n], user, after);
      assert history == history[..n] + [history[n]];
      ReplayPush(history[..n], user, after, history[n]);
      PicksPush(history[..n], user, after, Replay(history[..n], user, after), before, history[n]);
      at := before + if Wanted(history[n], user, after) then [n] else [];
    }
  }

  predicate Between(a: nat, n: nat, b: nat) { a < n < b }

  /** A resync is asked for exactly if the browser has seen some number and one between
      that and the oldest event in the ring is missing from the ring; then nothing is
      replayed, and otherwise all that is wanted. What comes later is everything broadcast
      after the receiver was made. */
  lemma ResyncExactly(start: Hub, h: Hub, user: Option<string>, after: nat) returns (at: seq<nat>)
    requires h.dropped <= |h.pushed|
    ensures var sub := Subscribe(start, h, user, after);
      && (sub.requiresResync <==>
            after != 0 && History(h) != [] && exists n: nat :: Between(after, n, History(h)[0].seqno))
      && (sub.requiresResync ==> sub.replay == [])
      && (!sub.requiresResync ==> Picks(History(h), user, after, sub.replay, at))
      && sub.from == |start.broadcast|
  {
    at := ReplayInOrder(History(h), user, after);
    if after != 0 && History(h) != [] && after + 1 < History(h)[0].seqno {
      assert Between(after, after + 1, History(h)[0].seqno);
    }
  }

  predicate Ascending(events: seq<Envelope>)
  {
    forall i, j | 0 <= i < j < |events| :: events[i].seqno < events[j].seqno
  }

  /** If publishers append in the order of their numbers, then in every run the numbers
      of every replay go up, and no event is in it twice. */
  lemma {:induction false} OrderlyReplaysAscend(h: Hub, steps: seq<Step>, user: Option<string>, after: nat)
    requires Valid(h) && InOrder(h) && Orderly(h, steps)
    ensures var r := Run(h, steps);
      r.dropped <= |r.pushed| && InOrder(r) && Ascending(Replay(History(r), user, after))
    decreases |steps|
  {
    if steps != [] {
      NextValid(h, steps[0]);
      NextInOrder(h, steps[0]);
      OrderlyReplaysAscend(Next(h, steps[0]), steps[1..], user, after);
    } else {
      var at := ReplayInOrder(History(h), user, after);
      PickedAscend(History(h), user, after, Replay(History(h), user, after), at);
    }
  }

  lemma PickedAscend(history: seq<Envelope>, user: Option<string>, after: nat, replay: seq<Envelope>, at: seq<nat>)
    requires Picks(history, user, after, replay, at) && Ascending(history)
    ensures Ascending(replay)
  {
  }

  // ----- folding a replay -----

  /** What an envelope tells about leases, if anything. */
  type Tells = nat -> Option<Leases.Entry>

  function Entries(events: seq<Envelope>, tells: Tells): seq<Leases.Entry>
  {
    if events == [] then []
    else
      var last := tells(events[|events| - 1].change);
      Entries(events[..|events| - 1], tells) + if last.Some? then [last.value] else []
  }

  /** Every lease event is addressed to its user. */
  predicate Addressed(events: seq<Envelope>, tells: Tells)
  {
    forall i | 0 <= i < |events| && tells(events[i].change).Some? ::
      events[i].target == Some(tells(events[i].change).value.user)
  }

  /** Going on with a fold from leases that are known. */
  function FoldOn(leases: map<string, string>, log: seq<Leases.Entry>, user: string): map<string, string>
  {
    if log == [] then leases
    else
      var before, last := FoldOn(leases, log[..|log| - 1], user), log[|log| - 1];
      if last.user != user then before else Leases.Apply(before, last.event)
  }

  lemma {:induction false} FoldGoesOn(a: seq<Leases.Entry>, b: seq<Leases.Entry>, user: string)
    ensures Leases.Fold(a + b, user) == FoldOn(Leases.Fold(a, user), b, user)
  {
    if b == [] {
      assert a + b == a;
    } else {
      ButLast(a, b);
      FoldGoesOn(a, b[..|b| - 1], user);
    }
  }

  lemma FoldOnPush(leases: map<string, string>, log: seq<Leases.Entry>, e: Leases.Entry, user: string)
    ensures FoldOn(leases, log + [e], user)
            == if e.user != user then FoldOn(leases, log, user) else Leases.Apply(FoldOn(leases, log, user), e.event)
  {
    assert (log + [e])[..|log|] == log;
  }

  lemma EntriesPush(events: seq<Envelope>, e: Envelope, tells: Tells)
    ensures Entries(events + [e], tells) == Entries(events, tells) + if tells(e.change).Some? then [tells(e.change).value] else []
  {
    assert (events + [e])[..|events|] == events;
  }

  lemma {:induction false} EntriesAppend(a: seq<Envelope>, b: seq<Envelope>, tells: Tells)
    ensures Entries(a + b, tells) == Entries(a, tells) + Entries(b, tells)
  {
    if b == [] {
      assert a + b == a;
    } else {
      var n := |b| - 1;
      ButLast(a, b);
      EntriesAppend(a, b[..n], tells);
      assert b == b[..n] + [b[n]];
      EntriesPush(b[..n], b[n], tells);
      EntriesPush(a + b[..n], b[n], tells);
      assert (a + b[..n]) + [b[n]] == a + b;
      Assoc(Entries(a, tells), Entries(b[..n], tells),
            if tells(b[n].change).Some? then [tells(b[n].change).value] else []);
    }
  }

  /** What is not wanted of later events is about other users. */
  lemma {:induction false} ReplayFoldsAlike(leases: map<string, string>, events: seq<Envelope>, user: string, after: nat,
                                           tells: Tells)
    requires Addressed(events, tells) && forall i | 0 <= i < |events| :: events[i].seqno > after
    ensures FoldOn(leases, Entries(Replay(events, Some(user), after), tells), user)
            == FoldOn(leases, Entries(events, tells), user)
  {
    if events != [] {
      var n := |events| - 1;
      var e := events[n];
      assert events == events[..n] + [e];
      ReplayFoldsAlike(leases, events[..n], user, after, tells);
      ReplayPush(events[..n], Some(user), after, e);
      EntriesPush(events[..n], e, tells);
      OneAlike(leases, Replay(events[..n], Some(user), after), events[..n], e, user, after, tells);
    }
  }

  lemma OneAlike(leases: map<string, string>, picked: seq<Envelope>, all: seq<Envelope>, e: Envelope, user: string,
                 after: nat, tells: Tells)
    requires FoldOn(leases, Entries(picked, tells), user) == FoldOn(leases, Entries(all, tells), user)
    requires e.seqno > after && (tells(e.change).Some? ==> e.target == Some(tells(e.change).value.user))
    ensures FoldOn(leases, Entries(picked + if Wanted(e, Some(user), after) then [e] else [], tells), user)
            == FoldOn(leases, Entries(all + [e], tells), user)
  {
    EntriesPush(picked, e, tells);
    EntriesPush(all, e, tells);
    assert picked + [] == picked;
    if tells(e.change).Some? {
      FoldOnPush(leases, Entries(picked, tells), tells(e.change).value, user);
      FoldOnPush(leases, Entries(all, tells), tells(e.change).value, user);
    } else {
      assert Entries(picked, tells) + [] == Entries(picked, tells) && Entries(all, tells) + [] == Entries(all, tells);
    }
  }

  /** How many of the events are numbered up to `after`, when they are in order. */
  function SeenOf(events: seq<Envelope>, after: nat): (k: nat)
    ensures k <= |events|
    ensures forall i | 0 <= i < k :: events[i].seqno <= after
    ensures Ascending(events) ==> forall i | k <= i < |events| :: events[i].seqno > after
  {
    if events == [] || events[0].seqno > after then 0 else 1 + SeenOf(events[1..], after)
  }

  lemma {:induction false} NothingWanted(events: seq<Envelope>, user: Option<string>, after: nat)
    requires forall i | 0 <= i < |events| :: events[i].seqno <= after
    ensures Replay(events, user, after) == []
  {
    if events != [] {
      NothingWanted(events[1..], user, after);
    }
  }

  lemma {:induction false} ReplayAppend(a: seq<Envelope>, b: seq<Envelope>, user: Option<string>, after: nat)
    ensures Replay(a + b, user, after) == Replay(a, user, after) + Replay(b, user, after)
  {
    if a == [] {
      assert a + b == b;
    } else {
      assert (a + b)[1..] == a[1..] + b;
      ReplayAppend(a[1..], b, user, after);
    }
  }

  /** A ring that has let go of `dropped` events still has all past `after`. */
  predicate Reaches(pushed: seq<Envelope>, dropped: nat, after: nat)
  {
    dropped == 0 || (dropped < |pushed| && pushed[dropped].seqno <= after + 1)
  }

  lemma SeenSplit(pushed: seq<Envelope>, dropped: nat, after: nat)
    requires Ascending(pushed) && Reaches(pushed, dropped, after)
    ensures dropped <= SeenOf(pushed, after)
  {
    var k := SeenOf(pushed, after);
    if k < |pushed| {
      assert pushed[k].seqno > after;
      assert forall i | k < i < |pushed| :: pushed[i].seqno > after + 1;
    }
  }

  /** The replay is what comes after the events numbered up to `after`. */
  lemma ReplayIsTheRest(pushed: seq<Envelope>, dropped: nat, user: Option<string>, after: nat)
    requires Ascending(pushed) && Reaches(pushed, dropped, after)
    ensures dropped <= |pushed|
    ensures Replay(pushed[dropped..], user, after) == Replay(pushed[SeenOf(pushed, after)..], user, after)
  {
    var k := SeenOf(pushed, after);
    SeenSplit(pushed, dropped, after);
    assert pushed[dropped..] == pushed[dropped..k] + pushed[k..];
    SeenIsSkipped(pushed[dropped..k], pushed[k..], user, after);
  }

  lemma SeenIsSkipped(seen: seq<Envelope>, rest: seq<Envelope>, user: Option<string>, after: nat)
    requires forall i | 0 <= i < |seen| :: seen[i].seqno <= after
    ensures Replay(seen + rest, user, after) == Replay(rest, user, after)
  {
    ReplayAppend(seen, rest, user, after);
    NothingWanted(seen, user, after);
    assert [] + Replay(rest, user, after) == Replay(rest, user, after);
  }

  lemma RestRebuilds(pushed: seq<Envelope>, user: string, after: nat, tells: Tells)
    requires Ascending(pushed) && Addressed(pushed, tells)
    ensures var k := SeenOf(pushed, after);
      FoldOn(Leases.Fold(Entries(pushed[..k], tells), user), Entries(Replay(pushed[k..], Some(user), after), tells), user)
      == Leases.Fold(Entries(pushed, tells), user)
  {
    var k := SeenOf(pushed, after);
    var seen, rest := pushed[..k], pushed[k..];
    assert pushed == seen + rest;
    EntriesAppend(seen, rest, tells);
    FoldGoesOn(Entries(seen, tells), Entries(rest, tells), user);
    LaterPart(pushed, k, after, tells);
    ReplayFoldsAlike(Leases.Fold(Entries(seen, tells), user), rest, user, after, tells);
  }

  lemma LaterPart(pushed: seq<Envelope>, k: nat, after: nat, tells: Tells)
    requires k <= |pushed| && Addressed(pushed, tells) && forall i | k <= i < |pushed| :: pushed[i].seqno > after
    ensures Addressed(pushed[k..], tells) && forall i | 0 <= i < |pushed[k..]| :: pushed[k..][i].seqno > after
  {
  }

  lemma NoGapReaches(h: Hub, after: nat)
    requires Valid(h) && InOrder(h) && (after != 0 || h.dropped == 0) && !HasGapAfter(History(h), after)
    ensures Ascending(h.pushed) && Reaches(h.pushed, h.dropped, after)
  {
  }

  /** Main result: where publishers append in the order of their numbers, a browser that
      knows the leases as of number `after` and folds the replay into them, when it is
      not told to resync, has exactly the fold of the whole log. */
  lemma ReplayRebuilds(h: Hub, user: string, after: nat, tells: Tells)
    requires Valid(h) && InOrder(h) && Addressed(h.pushed, tells)
    requires (after != 0 || h.dropped == 0) && !HasGapAfter(History(h), after)
    ensures var known := Leases.Fold(Entries(h.pushed[..SeenOf(h.pushed, after)], tells), user);
      FoldOn(known, Entries(Replay(History(h), Some(user), after), tells), user)
      == Leases.Fold(Entries(h.pushed, tells), user)
  {
    NoGapReaches(h, after);
    Rebuilds(h.pushed, h.dropped, user, after, tells);
  }

  lemma Rebuilds(pushed: seq<Envelope>, dropped: nat, user: string, after: nat, tells: Tells)
    requires Ascending(pushed) && Reaches(pushed, dropped, after) && Addressed(pushed, tells)
    ensures dropped <= |pushed|
    ensures var known := Leases.Fold(Entries(pushed[..SeenOf(pushed, after)], tells), user);
      FoldOn(known, Entries(Replay(pushed[dropped..], Some(user), after), tells), user)
      == Leases.Fold(Entries(pushed, tells), user)
  {
    ReplayIsTheRest(pushed, dropped, Some(user), after);
    RestRebuilds(pushed, user, after, tells);
  }
}
