/** The event history as the mutable object the hub keeps, proved against the
    published steps of `EventLog`. */
module EventBus {
  import opened Basics
  import opened EventLog
  import opened EventReplay
  import opened EventSnapshots

  class Bus {
    var next: nat
    var history: seq<Envelope>
    var sent: seq<Envelope>
    /** The same history with everything it ever held. */
    ghost var hub: Hub

    ghost predicate Valid()
      reads this
    {
      EventLog.Valid(hub) && Quiet(hub) && hub.next == next && History(hub) == history && hub.broadcast == sent
    }

    constructor (flushed: Option<nat>)
      ensures Valid()
      ensures hub == Fresh(Base(flushed))
    {
      var start := if flushed.Some? then flushed.value + SEQ_RECOVERY_OFFSET else 0;
      next, history, sent := start, [], [];
      hub := Fresh(start);
    }

    /** `send_event` with nobody in between: number, append, trim, broadcast. */
    method SendEvent(target: Option<string>, change: nat)
      requires Valid() && change == hub.changes
      modifies this
      ensures Valid()
      ensures hub == Sent(old(hub), target, change)
      ensures next == old(next) + 1 && sent == old(sent) + [Envelope(next, target, change)]
    {
      next := next + 1;
      var envelope := Envelope(next, target, change);
      SendSteps(hub, target, change);
      history := history + [envelope];
      if |history| > EVENT_HISTORY_LIMIT {
        history := history[1..];
      }
      sent := sent + [envelope];
      hub := Sent(hub, target, change);
    }

    /** `build_event_subscription` with nobody in between. */
    method Subscribe(user: Option<string>, after: nat) returns (requiresResync: bool, replay: seq<Envelope>, ghost at: seq<nat>)
      requires Valid()
      ensures requiresResync <==> after != 0 && history != [] && after + 1 < history[0].seqno
      ensures if requiresResync then replay == [] else Picks(history, user, after, replay, at)
      ensures var sub := EventLog.Subscribe(hub, hub, user, after);
              requiresResync == sub.requiresResync && replay == sub.replay
    {
      requiresResync := false;
      if after != 0 && history != [] {
        requiresResync := after + 1 < history[0].seqno;
      }
      replay, at := [], [];
      if !requiresResync {
        replay, at := Visible(history, user, after);
      }
    }
  }

  /** The filter over the history. */
  method Visible(history: seq<Envelope>, user: Option<string>, after: nat) returns (replay: seq<Envelope>, ghost at: seq<nat>)
    ensures replay == Replay(history, user, after) && Picks(history, user, after, replay, at)
  {
    replay, at := [], [];
    var i := 0;
    FilterStart(history, user, after);
    while i < |history|
      invariant 0 <= i <= |history| && Filtered(history, i, user, after, replay, at)
    {
      replay, at := Consider(history, i, user, after, replay, at);
      i := i + 1;
    }
    FilterDone(history, user, after, replay, at);
  }

  method Consider(history: seq<Envelope>, i: nat, user: Option<string>, after: nat, replay: seq<Envelope>, ghost at: seq<nat>)
    returns (more: seq<Envelope>, ghost moreAt: seq<nat>)
    requires i < |history| && Filtered(history, i, user, after, replay, at)
    ensures Filtered(history, i + 1, user, after, more, moreAt)
  {
    FilterOne(history, i, user, after, replay, at);
    more, moreAt := replay, at;
    if history[i].seqno > after && VisibleTo(history[i], user) {
      more, moreAt := replay + [history[i]], at + [i];
    }
  }

  /** All four steps of publishing one event, uninterrupted. */
  function Sent(h: Hub, target: Option<string>, change: nat): Hub
  {
    var e := Envelope(h.next + 1, target, change);
    Run(h, [Change, Number(change, target), Append(e), Broadcast(e)])
  }

  lemma SendSteps(h: Hub, target: Option<string>, change: nat)
    requires EventLog.Valid(h) && Quiet(h) && change == h.changes
    ensures var e, r := Envelope(h.next + 1, target, change), Sent(h, target, change);
            EventLog.Valid(r) && Quiet(r) && r.next == h.next + 1
            && r.broadcast == h.broadcast + [e]
            && History(r) == if |History(h)| < EVENT_HISTORY_LIMIT then History(h) + [e]
                             else (History(h) + [e])[1..]
  {
    var e := Envelope(h.next + 1, target, change);
    var steps := [Change, Number(change, target), Append(e), Broadcast(e)];
    RunValid(h, steps);
    FourSteps(h, Change, Number(change, target), Append(e), Broadcast(e));
    var n2 := Next(Next(h, Change), Number(change, target));
    assert n2.untold == {} && n2.flight == {e};
    assert (h.pushed + [e])[h.dropped..] == History(h) + [e];
  }
}
