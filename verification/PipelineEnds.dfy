/** What is left of an attach when its pty is gone. */
module PipelineEnds {
  import opened Basics
  import opened Frames
  import opened Coalesce
  import opened Pipeline
  import opened PipelineStreams

  /** Will there be a compressor for `id` when the items have been handled? */
  predicate WillCompress(id: seq<byte>, items: seq<Item>, now: bool)
    decreases |items|
  {
    if items == [] then now
    else WillCompress(id, items[1..], if items[0].MarkItem? && items[0].attach == id then items[0].enable else now)
  }

  lemma {:induction false} WillAppend(id: seq<byte>, x: seq<Item>, y: seq<Item>, now: bool)
    ensures WillCompress(id, x + y, now) == WillCompress(id, y, WillCompress(id, x, now))
    decreases |x|
  {
    if x == [] {
      assert x + y == y;
    } else {
      assert (x + y)[1..] == x[1..] + y && (x + y)[0] == x[0];
      WillAppend(id, x[1..], y, if x[0].MarkItem? && x[0].attach == id then x[0].enable else now);
    }
  }

  lemma {:induction false} WillNotChange(id: seq<byte>, items: seq<Item>, now: bool)
    requires forall i | 0 <= i < |items| :: !(items[i].MarkItem? && items[i].attach == id)
    ensures WillCompress(id, items, now) == now
    decreases |items|
  {
    if items != [] {
      WillNotChange(id, items[1..], now);
    }
  }

  lemma OneMark(id: seq<byte>, owner: seq<byte>, enable: bool, now: bool)
    ensures WillCompress(id, [MarkItem(owner, enable)], now) == if owner == id then enable else now
  {
    assert [MarkItem(owner, enable)][1..] == [];
  }

  lemma SendOneWill(a: Attach, p: Pipe, w: Wire)
    ensures WillCompress(a.id, WireItems(w), p.context.Some?) == SendOne(a, p, w).context.Some?
  {
    match w
    case Marker(owner, enable) => OneMark(a.id, owner, enable, p.context.Some?);
    case _ => WillNotChange(a.id, WireItems(w), p.context.Some?);
  }

  lemma {:induction false} SendAllWill(a: Attach, p: Pipe, wire: seq<Wire>, rest: seq<Item>)
    ensures WillCompress(a.id, WireMeaning(wire) + rest, p.context.Some?)
            == WillCompress(a.id, rest, SendAll(a, p, wire).context.Some?)
    decreases |wire|
  {
    if wire == [] {
      assert WireMeaning(wire) + rest == rest;
    } else {
      var n := SendOne(a, p, wire[0]);
      WireSplit(wire, rest);
      WillAppend(a.id, WireItems(wire[0]), WireMeaning(wire[1..]) + rest, p.context.Some?);
      SendOneWill(a, p, wire[0]);
      SendAllWill(a, n, wire[1..], rest);
    }
  }

  /** An attach whose pty is gone will have no compressor. */
  predicate Ends(a: Attach, p: Pipe)
  {
    !p.alive ==> !WillCompress(a.id, BatchMeaning(p.chan), p.context.Some?)
  }

  lemma PushWill(a: Attach, chan: seq<Outbound>, m: Outbound, now: bool)
    ensures WillCompress(a.id, BatchMeaning(chan + [m]), now)
            == WillCompress(a.id, OutboundItems(m), WillCompress(a.id, BatchMeaning(chan), now))
  {
    assert (chan + [m])[..|chan|] == chan;
    WillAppend(a.id, BatchMeaning(chan), OutboundItems(m), now);
  }

  lemma OffEnds(a: Attach, chan: seq<Outbound>, now: bool)
    ensures !WillCompress(a.id, BatchMeaning(chan + [Compression(a.id, false)]), now)
  {
    PushWill(a, chan, Compression(a.id, false), now);
    OneMark(a.id, a.id, false, WillCompress(a.id, BatchMeaning(chan), now));
  }

  lemma OtherEnds(a: Attach, p: Pipe, m: Outbound)
    requires Ends(a, p) && (m.Json? || m.attach != a.id)
    ensures Ends(a, p.(chan := p.chan + [m]))
  {
    var now := p.context.Some?;
    PushWill(a, p.chan, m, now);
    WillNotChange(a.id, OutboundItems(m), WillCompress(a.id, BatchMeaning(p.chan), now));
  }

  lemma SendEnds(a: Attach, p: Pipe, n: nat)
    requires Ends(a, p) && n <= |p.chan|
    ensures Ends(a, SendAll(a, p.(chan := p.chan[n..]), Coalesced(p.chan[..n])))
  {
    var q, wire := p.(chan := p.chan[n..]), Coalesced(p.chan[..n]);
    assert p.chan == p.chan[..n] + p.chan[n..];
    BatchMeaningAppend(p.chan[..n], p.chan[n..]);
    CoalescedKeeps(p.chan[..n]);
    SendAllWill(a, q, wire, BatchMeaning(p.chan[n..]));
    SendAllFrame(a, q, wire);
  }

  lemma NextEnds(a: Attach, p: Pipe, s: Step)
    requires Ends(a, p) && Enabled(a, p, s)
    ensures Ends(a, Next(a, p, s))
  {
    match s
    case Other(m) => OtherEnds(a, p, m);
    case Die =>
      var chan := p.chan + [Json("attach_died")];
      OffEnds(a, chan, p.context.Some?);
      assert chan + [Compression(a.id, false)] == p.chan + [Json("attach_died"), Compression(a.id, false)];
    case MachineClose => OffEnds(a, p.chan, p.context.Some?);
    case SendBatch(n) => SendEnds(a, p, n);
    case Arrive => ArriveFrame(a, p);
    case _ =>
  }

  lemma {:induction false} RunEnds(a: Attach, p: Pipe, steps: seq<Step>)
    requires Ends(a, p) && Possible(a, p, steps)
    ensures Ends(a, Run(a, p, steps))
    decreases |steps|
  {
    if steps != [] {
      NextEnds(a, p, steps[0]);
      RunEnds(a, Next(a, p, steps[0]), steps[1..]);
    }
  }

  /** Main result: in every run, once the pty is gone and what was queued has been sent,
      the attach has no compressor left. */
  lemma DeadAttachLeavesNothing(a: Attach, start: Pipe, steps: seq<Step>)
    requires start == Opened() && Possible(a, start, steps)
    ensures var p := Run(a, start, steps); !p.alive && p.chan == [] ==> p.context.None?
  {
    assert BatchMeaning(start.chan) == [];
    RunEnds(a, start, steps);
    assert BatchMeaning([]) == [];
  }
}
