/** What a browser can read: the machine's half of the pipeline, and the two
    halves together. */
module PipelineStreams {
  import opened Basics
  import opened Frames
  import opened Coalesce
  import opened Pipeline

  // ----- what is still to be processed, item by item -----

  /** Markers and bytes of `id` come in an order the inflater can follow. */
  predicate Clean(id: seq<byte>, items: seq<Item>, phase: Phase)
    decreases |items|
  {
    items == [] || (CleanOne(id, items[0], phase) && Clean(id, items[1..], AfterOne(id, items[0], phase)))
  }

  predicate CleanOne(id: seq<byte>, item: Item, phase: Phase)
  {
    && (item.ByteItem? && item.attach == id ==> phase.On?)
    && (item.MarkItem? && item.attach == id && item.enable ==> phase.Before?)
  }

  function After(id: seq<byte>, items: seq<Item>, phase: Phase): Phase
    decreases |items|
  {
    if items == [] then phase else After(id, items[1..], AfterOne(id, items[0], phase))
  }

  function AfterOne(id: seq<byte>, item: Item, phase: Phase): Phase
  {
    if item.MarkItem? && item.attach == id then (if item.enable then On else Off) else phase
  }

  /** The bytes of `id` among the items. */
  function Pending(id: seq<byte>, items: seq<Item>): seq<byte>
  {
    if items == [] then []
    else (if items[0].ByteItem? && items[0].attach == id then [items[0].value] else []) + Pending(id, items[1..])
  }

  predicate NeverEnables(id: seq<byte>, items: seq<Item>)
  {
    MarkItem(id, true) !in items
  }

  lemma {:induction false} ItemsAppend(id: seq<byte>, x: seq<Item>, y: seq<Item>, phase: Phase)
    ensures Clean(id, x + y, phase) <==> Clean(id, x, phase) && Clean(id, y, After(id, x, phase))
    ensures After(id, x + y, phase) == After(id, y, After(id, x, phase))
    ensures Pending(id, x + y) == Pending(id, x) + Pending(id, y)
    decreases |x|
  {
    if x == [] {
      assert x + y == y;
    } else {
      assert (x + y)[1..] == x[1..] + y && (x + y)[0] == x[0];
      ItemsAppend(id, x[1..], y, AfterOne(id, x[0], phase));
      PendingAppend(id, x, y);
    }
  }

  lemma {:induction false} PendingAppend(id: seq<byte>, x: seq<Item>, y: seq<Item>)
    ensures Pending(id, x + y) == Pending(id, x) + Pending(id, y)
  {
    if x == [] {
      assert x + y == y;
    } else {
      assert (x + y)[1..] == x[1..] + y;
      PendingAppend(id, x[1..], y);
    }
  }

  lemma {:induction false} BytesItems(id: seq<byte>, owner: seq<byte>, data: seq<byte>, phase: Phase)
    ensures Clean(id, Bytes(owner, data), phase) <==> owner != id || data == [] || phase.On?
    ensures After(id, Bytes(owner, data), phase) == phase
    ensures Pending(id, Bytes(owner, data)) == if owner == id then data else []
    decreases |data|
  {
    if data != [] {
      assert Bytes(owner, data)[1..] == Bytes(owner, data[1..]);
      BytesItems(id, owner, data[1..], phase);
    }
  }

  lemma MarkItems(id: seq<byte>, owner: seq<byte>, enable: bool, phase: Phase)
    ensures Clean(id, [MarkItem(owner, enable)], phase) <==> owner != id || !enable || phase.Before?
    ensures After(id, [MarkItem(owner, enable)], phase)
            == if owner != id then phase else if enable then On else Off
    ensures Pending(id, [MarkItem(owner, enable)]) == []
  {
    assert [MarkItem(owner, enable)][1..] == [];
  }

  lemma TextItems(id: seq<byte>, text: string, phase: Phase)
    ensures Clean(id, [TextItem(text)], phase)
    ensures After(id, [TextItem(text)], phase) == phase
    ensures Pending(id, [TextItem(text)]) == []
  {
    assert [TextItem(text)][1..] == [];
  }

  // ----- the compressed stream -----

  /** The frames a compressor that sees these messages in order emits. */
  function DeflateAll(a: Attach, messages: seq<seq<byte>>): (r: seq<seq<byte>>)
    ensures |r| == |messages|
  {
    if messages == [] then []
    else
      var n := |messages| - 1;
      DeflateAll(a, messages[..n]) + [a.deflate(Concat(messages[..n]), messages[n])]
  }

  lemma DeflatePush(a: Attach, messages: seq<seq<byte>>, message: seq<byte>)
    ensures DeflateAll(a, messages + [message])
            == DeflateAll(a, messages) + [a.deflate(Concat(messages), message)]
  {
    assert (messages + [message])[..|messages|] == messages;
  }

  lemma {:induction false} DeflatePrefix(a: Attach, messages: seq<seq<byte>>, k: nat)
    requires k <= |messages|
    ensures DeflateAll(a, messages)[..k] == DeflateAll(a, messages[..k])
  {
    var n := |messages|;
    if k < n {
      DeflatePrefix(a, messages[..n - 1], k);
      assert messages[..n - 1][..k] == messages[..k];
      assert DeflateAll(a, messages)[..k] == DeflateAll(a, messages[..n - 1])[..k];
    } else {
      assert messages[..k] == messages;
    }
  }

  lemma ConcatPush(messages: seq<seq<byte>>, message: seq<byte>)
    ensures Concat(messages + [message]) == Concat(messages) + message
  {
    ConcatAppend(messages, [message]);
    assert Concat([message]) == message + Concat([]);
  }

  lemma ConcatPrefix(messages: seq<seq<byte>>, k: nat)
    requires k <= |messages|
    ensures Concat(messages[..k]) <= Concat(messages)
  {
    assert messages == messages[..k] + messages[k..];
    ConcatAppend(messages[..k], messages[k..]);
  }

  /** The stream contract of the compressor and the browser's inflater. */
  ghost predicate Inflates(a: Attach, inflate: seq<byte> -> seq<byte>)
  {
    forall messages: seq<seq<byte>> :: inflate(Concat(DeflateAll(a, messages))) == Concat(messages)
  }

  // ----- invariant of the machine's half -----

  /** While the browser of a compressed attach listens: the frames emitted are
      the stream of the payloads, and payloads plus what is still to come are the
      bytes of the pty. */
  predicate StreamValid(a: Attach, p: Pipe, items: seq<Item>)
  {
    && p.emitted == DeflateAll(a, p.payloads)
    && Concat(p.payloads) + Pending(a.id, items) == p.produced
    && Clean(a.id, items, p.phase)
    && (p.phase.On? <==> p.context.Some?)
    && (p.context.Some? ==> p.context.value == Concat(p.payloads))
    && (p.phase.Before? ==> p.payloads == [])
    && (p.alive ==> After(a.id, items, p.phase).On? && p.spawned)
    && (!p.spawned ==> After(a.id, items, p.phase).Before?)
  }

  /** An uncompressed attach: payloads go out as they are. */
  predicate RawValid(a: Attach, p: Pipe, items: seq<Item>)
  {
    && p.emitted == p.payloads && p.context.None?
    && Concat(p.payloads) + Pending(a.id, items) == p.produced
    && NeverEnables(a.id, items)
  }

  predicate MachineValid(a: Attach, p: Pipe, items: seq<Item>)
  {
    if a.compress then !p.stopped ==> StreamValid(a, p, items) else RawValid(a, p, items)
  }

  lemma SendFrameStream(a: Attach, p: Pipe, payload: seq<byte>, rest: seq<Item>)
    requires a.compress && StreamValid(a, p, Bytes(a.id, payload) + rest) && payload != []
    ensures StreamValid(a, SendOne(a, p, Frame(a.id, payload)), rest)
  {
    ItemsAppend(a.id, Bytes(a.id, payload), rest, p.phase);
    BytesItems(a.id, a.id, payload, p.phase);
    DeflatePush(a, p.payloads, payload);
    ConcatPush(p.payloads, payload);
    PayloadSent(p.payloads, payload, Pending(a.id, rest));
  }

  lemma SendMarkStream(a: Attach, p: Pipe, enable: bool, rest: seq<Item>)
    requires a.compress && StreamValid(a, p, [MarkItem(a.id, enable)] + rest)
    ensures StreamValid(a, SendOne(a, p, Marker(a.id, enable)), rest)
  {
    ItemsAppend(a.id, [MarkItem(a.id, enable)], rest, p.phase);
    MarkItems(a.id, a.id, enable, p.phase);
    assert [] + Pending(a.id, rest) == Pending(a.id, rest);
  }

  lemma SendOtherStream(a: Attach, p: Pipe, w: Wire, rest: seq<Item>)
    requires a.compress && StreamValid(a, p, WireItems(w) + rest) && (w.Text? || w.attach != a.id)
    ensures StreamValid(a, SendOne(a, p, w), rest)
  {
    ItemsAppend(a.id, WireItems(w), rest, p.phase);
    OtherItems(a.id, w, p.phase);
    assert [] + Pending(a.id, rest) == Pending(a.id, rest);
    OtherWire(a, p, w);
  }

  /** Wire messages that are not the attach's own say nothing about it. */
  lemma OtherItems(id: seq<byte>, w: Wire, phase: Phase)
    requires w.Text? || w.attach != id
    ensures Clean(id, WireItems(w), phase) && After(id, WireItems(w), phase) == phase
    ensures Pending(id, WireItems(w)) == []
  {
    match w
    case Text(text) => TextItems(id, text, phase);
    case Marker(owner, enable) => MarkItems(id, owner, enable, phase);
    case Frame(owner, payload) => BytesItems(id, owner, payload, phase);
  }

  lemma SendOneStream(a: Attach, p: Pipe, w: Wire, rest: seq<Item>)
    requires a.compress && StreamValid(a, p, WireItems(w) + rest)
    requires w.Frame? ==> w.payload != []
    ensures StreamValid(a, SendOne(a, p, w), rest)
  {
    if w.Text? || w.attach != a.id {
      SendOtherStream(a, p, w, rest);
    } else if w.Marker? {
      SendMarkStream(a, p, w.enable, rest);
    } else {
      SendFrameStream(a, p, w.payload, rest);
    }
  }

  lemma SendFrameRaw(a: Attach, p: Pipe, payload: seq<byte>, rest: seq<Item>)
    requires !a.compress && RawValid(a, p, Bytes(a.id, payload) + rest)
    ensures RawValid(a, SendOne(a, p, Frame(a.id, payload)), rest)
  {
    PendingAppend(a.id, Bytes(a.id, payload), rest);
    BytesItems(a.id, a.id, payload, p.phase);
    PayloadSent(p.payloads, payload, Pending(a.id, rest));
    NeverLater(a.id, Bytes(a.id, payload), rest);
  }

  lemma NeverLater(id: seq<byte>, items: seq<Item>, rest: seq<Item>)
    requires NeverEnables(id, items + rest)
    ensures NeverEnables(id, items) && NeverEnables(id, rest)
  {
    assert forall x | x in rest :: x in items + rest;
    assert forall x | x in items :: x in items + rest;
  }

  lemma SendMarkRaw(a: Attach, p: Pipe, enable: bool, rest: seq<Item>)
    requires !a.compress && RawValid(a, p, [MarkItem(a.id, enable)] + rest)
    ensures RawValid(a, SendOne(a, p, Marker(a.id, enable)), rest)
  {
    PendingAppend(a.id, [MarkItem(a.id, enable)], rest);
    MarkItems(a.id, a.id, enable, p.phase);
    NeverLater(a.id, [MarkItem(a.id, enable)], rest);
    assert MarkItem(a.id, enable) in [MarkItem(a.id, enable)];
    assert [] + Pending(a.id, rest) == Pending(a.id, rest);
  }

  /** What is not the attach's own changes at most the wire. */
  lemma OtherWire(a: Attach, p: Pipe, w: Wire)
    requires w.Text? || w.attach != a.id
    ensures SendOne(a, p, w) == p.(wire := SendOne(a, p, w).wire)
  {
  }

  lemma SendOtherRaw(a: Attach, p: Pipe, w: Wire, rest: seq<Item>)
    requires !a.compress && RawValid(a, p, WireItems(w) + rest) && (w.Text? || w.attach != a.id)
    ensures RawValid(a, SendOne(a, p, w), rest)
  {
    PendingAppend(a.id, WireItems(w), rest);
    OtherItems(a.id, w, p.phase);
    NeverLater(a.id, WireItems(w), rest);
    assert Pending(a.id, WireItems(w) + rest) == Pending(a.id, rest);
    OtherWire(a, p, w);
  }

  lemma SendOneRaw(a: Attach, p: Pipe, w: Wire, rest: seq<Item>)
    requires !a.compress && RawValid(a, p, WireItems(w) + rest)
    ensures RawValid(a, SendOne(a, p, w), rest)
  {
    if w.Text? || w.attach != a.id {
      SendOtherRaw(a, p, w, rest);
    } else if w.Marker? {
      SendMarkRaw(a, p, w.enable, rest);
    } else {
      SendFrameRaw(a, p, w.payload, rest);
    }
  }

  lemma PayloadSent(payloads: seq<seq<byte>>, payload: seq<byte>, rest: seq<byte>)
    ensures Concat(payloads) + (payload + rest) == Concat(payloads + [payload]) + rest
  {
    ConcatPush(payloads, payload);
    Assoc(Concat(payloads), payload, rest);
  }

  lemma {:induction false} WireMeaningCons(w: Wire, rest: seq<Wire>)
    ensures WireMeaning([w] + rest) == WireItems(w) + WireMeaning(rest)
    decreases |rest|
  {
    if rest == [] {
      assert [w] + rest == [w] && [w][..0] == [];
    } else {
      var n := |rest| - 1;
      ButLast([w], rest);
      WireMeaningCons(w, rest[..n]);
      Assoc(WireItems(w), WireMeaning(rest[..n]), WireItems(rest[n]));
    }
  }

  lemma {:induction false} SendAllMachine(a: Attach, p: Pipe, wire: seq<Wire>, rest: seq<Item>)
    requires MachineValid(a, p, WireMeaning(wire) + rest) && NoEmptyFrames(wire)
    ensures MachineValid(a, SendAll(a, p, wire), rest)
    decreases |wire|
  {
    if wire == [] {
      assert WireMeaning(wire) + rest == rest;
    } else {
      var n := SendOne(a, p, wire[0]);
      WireSplit(wire, rest);
      if a.compress && !p.stopped {
        SendOneStream(a, p, wire[0], WireMeaning(wire[1..]) + rest);
      } else if !a.compress {
        SendOneRaw(a, p, wire[0], WireMeaning(wire[1..]) + rest);
      }
      SendAllMachine(a, n, wire[1..], rest);
    }
  }

  lemma WireSplit(wire: seq<Wire>, rest: seq<Item>)
    requires wire != []
    ensures WireMeaning(wire) + rest == WireItems(wire[0]) + (WireMeaning(wire[1..]) + rest)
    ensures NoEmptyFrames(wire) ==> NoEmptyFrames(wire[1..])
  {
    assert wire == [wire[0]] + wire[1..];
    WireMeaningCons(wire[0], wire[1..]);
    Assoc(WireItems(wire[0]), WireMeaning(wire[1..]), rest);
  }

  // ----- every run of the whole pipeline -----

  /** What the browser has been shown inflates to a prefix of the pty's bytes. */
  predicate ShownValid(a: Attach, p: Pipe)
  {
    a.compress ==>
      && p.done <= |p.payloads| && p.done <= |p.taken|
      && p.taken[..p.done] == DeflateAll(a, p.payloads[..p.done])
      && Concat(p.payloads[..p.done]) <= p.produced
  }

  predicate Sound(a: Attach, p: Pipe)
  {
    && HubValid(a, p) && ShownValid(a, p)
    && NoEmptyOutput(p.chan) && MachineValid(a, p, BatchMeaning(p.chan)) && (p.alive ==> p.spawned)
  }

  lemma PrefixShown(a: Attach, p: Pipe, items: seq<Item>)
    requires a.compress && HubValid(a, p) && StreamValid(a, p, items)
    ensures ShownValid(a, p)
  {
    assert p.taken[..p.done] == p.emitted[..p.done];
    DeflatePrefix(a, p.payloads, p.done);
    ConcatPrefix(p.payloads, p.done);
    assert Concat(p.payloads) <= p.produced;
  }

  /** Sending changes nothing in the queues, at the hub or about the pty. */
  predicate OnlySent(p: Pipe, n: Pipe)
  {
    && n.chan == p.chan && n.stopped == p.stopped && n.alive == p.alive && n.spawned == p.spawned
    && n.taken == p.taken && n.done == p.done && n.produced == p.produced && p.payloads <= n.payloads
  }

  lemma SendOneFrame(a: Attach, p: Pipe, w: Wire)
    ensures OnlySent(p, SendOne(a, p, w))
  {
    if w.Frame? && w.attach == a.id {
      SendMineFrame(a, p, w.payload);
    } else {
      SendOtherFrame(a, p, w);
    }
  }

  lemma SendMineFrame(a: Attach, p: Pipe, payload: seq<byte>)
    ensures OnlySent(p, SendOne(a, p, Frame(a.id, payload)))
  {
  }

  lemma SendOtherFrame(a: Attach, p: Pipe, w: Wire)
    requires !w.Frame? || w.attach != a.id
    ensures OnlySent(p, SendOne(a, p, w))
  {
    var n := SendOne(a, p, w);
    assert n == p.(wire := n.wire, context := n.context, phase := n.phase);
  }

  lemma {:induction false} SendAllFrame(a: Attach, p: Pipe, wire: seq<Wire>)
    ensures OnlySent(p, SendAll(a, p, wire))
    decreases |wire|
  {
    if wire != [] {
      SendOneFrame(a, p, wire[0]);
      SendAllFrame(a, SendOne(a, p, wire[0]), wire[1..]);
    }
  }

  lemma QueueOne(a: Attach, chan: seq<Outbound>, m: Outbound, phase: Phase)
    ensures var was, more, all := BatchMeaning(chan), OutboundItems(m), BatchMeaning(chan + [m]);
      && all == was + more
      && (Clean(a.id, all, phase) <==> Clean(a.id, was, phase) && Clean(a.id, more, After(a.id, was, phase)))
      && After(a.id, all, phase) == After(a.id, more, After(a.id, was, phase))
      && Pending(a.id, all) == Pending(a.id, was) + Pending(a.id, more)
  {
    assert (chan + [m])[..|chan|] == chan;
    ItemsAppend(a.id, BatchMeaning(chan), OutboundItems(m), phase);
  }

  /** A message that is not the attach's own leaves everything as it is. */
  lemma QueueForeign(a: Attach, p: Pipe, m: Outbound)
    requires MachineValid(a, p, BatchMeaning(p.chan)) && (m.Json? || m.attach != a.id)
    ensures MachineValid(a, p.(chan := p.chan + [m]), BatchMeaning(p.chan + [m]))
  {
    QueueOne(a, p.chan, m, p.phase);
    var phase := After(a.id, BatchMeaning(p.chan), p.phase);
    match m
    case Json(text) => TextItems(a.id, text, phase);
    case Output(id, data) => BytesItems(a.id, id, data, phase);
    case Compression(id, enable) => MarkItems(a.id, id, enable, phase);
    assert Pending(a.id, BatchMeaning(p.chan)) + [] == Pending(a.id, BatchMeaning(p.chan));
    assert MarkItem(a.id, true) !in OutboundItems(m);
  }

  lemma QueueOutput(a: Attach, p: Pipe, data: seq<byte>)
    requires MachineValid(a, p, BatchMeaning(p.chan)) && p.alive && data != []
    ensures MachineValid(a, Next(a, p, Read(data)), BatchMeaning(p.chan + [Output(a.id, data)]))
  {
    QueueOne(a, p.chan, Output(a.id, data), p.phase);
    BytesItems(a.id, a.id, data, After(a.id, BatchMeaning(p.chan), p.phase));
    Assoc(Concat(p.payloads), Pending(a.id, BatchMeaning(p.chan)), data);
    assert MarkItem(a.id, true) !in OutboundItems(Output(a.id, data));
  }

  lemma QueueOff(a: Attach, p: Pipe, alive: bool)
    requires MachineValid(a, p, BatchMeaning(p.chan)) && (alive ==> p.stopped) && p.spawned
    ensures var chan := p.chan + [Compression(a.id, false)];
      MachineValid(a, p.(alive := alive, chan := chan), BatchMeaning(chan))
  {
    QueueOne(a, p.chan, Compression(a.id, false), p.phase);
    MarkItems(a.id, a.id, false, After(a.id, BatchMeaning(p.chan), p.phase));
    assert Pending(a.id, BatchMeaning(p.chan)) + [] == Pending(a.id, BatchMeaning(p.chan));
  }

  lemma QueueOn(a: Attach, p: Pipe)
    requires MachineValid(a, p, BatchMeaning(p.chan)) && !p.spawned
    ensures MachineValid(a, Next(a, p, Spawn), BatchMeaning(Next(a, p, Spawn).chan))
  {
    if a.compress {
      QueueOne(a, p.chan, Compression(a.id, true), p.phase);
      MarkItems(a.id, a.id, true, After(a.id, BatchMeaning(p.chan), p.phase));
      assert Pending(a.id, BatchMeaning(p.chan)) + [] == Pending(a.id, BatchMeaning(p.chan));
    } else {
      assert p.chan + [] == p.chan;
    }
  }

  lemma DieMachine(a: Attach, p: Pipe)
    requires MachineValid(a, p, BatchMeaning(p.chan)) && p.alive && p.spawned
    ensures MachineValid(a, Next(a, p, Die), BatchMeaning(Next(a, p, Die).chan))
  {
    var q := p.(chan := p.chan + [Json("attach_died")]);
    QueueForeign(a, p, Json("attach_died"));
    QueueOff(a, q, false);
    assert q.chan + [Compression(a.id, false)] == p.chan + [Json("attach_died"), Compression(a.id, false)];
  }

  lemma SendMachine(a: Attach, p: Pipe, n: nat)
    requires MachineValid(a, p, BatchMeaning(p.chan)) && NoEmptyOutput(p.chan) && n <= |p.chan|
    ensures MachineValid(a, SendAll(a, p.(chan := p.chan[n..]), Coalesced(p.chan[..n])), BatchMeaning(p.chan[n..]))
  {
    assert p.chan == p.chan[..n] + p.chan[n..];
    BatchMeaningAppend(p.chan[..n], p.chan[n..]);
    CoalescedKeeps(p.chan[..n]);
    CoalescedNoEmpty(p.chan[..n]);
    SendAllMachine(a, p.(chan := p.chan[n..]), Coalesced(p.chan[..n]), BatchMeaning(p.chan[n..]));
  }

  lemma NextQueue(a: Attach, p: Pipe, s: Step)
    requires NoEmptyOutput(p.chan) && Enabled(a, p, s) && (p.alive ==> p.spawned)
    ensures NoEmptyOutput(Next(a, p, s).chan)
    ensures Next(a, p, s).alive ==> Next(a, p, s).spawned
  {
    if s.SendBatch? {
      SendAllFrame(a, p.(chan := p.chan[s.count..]), Coalesced(p.chan[..s.count]));
    }
  }

  lemma ArriveFrame(a: Attach, p: Pipe)
    requires p.wire != []
    ensures var n := Next(a, p, Arrive);
      n == p.(wire := n.wire, arrived := n.arrived, queue := n.queue, taken := n.taken,
              routed := n.routed, thinned := n.thinned)
  {
    var d := DecodeAttach(p.wire[0]);
  }

  lemma QuietMachine(a: Attach, p: Pipe, s: Step)
    requires MachineValid(a, p, BatchMeaning(p.chan)) && Enabled(a, p, s)
    requires s.Arrive? || s.Drain? || s.Unroute? || s.Stop?
    ensures MachineValid(a, Next(a, p, s), BatchMeaning(Next(a, p, s).chan))
  {
    if s.Arrive? {
      ArriveFrame(a, p);
    }
    var n := Next(a, p, s);
    assert n.chan == p.chan && n.spawned == p.spawned && n.alive == p.alive && n.context == p.context;
    assert n.phase == p.phase && n.produced == p.produced && n.payloads == p.payloads && n.emitted == p.emitted;
  }

  lemma NextMachine(a: Attach, p: Pipe, s: Step)
    requires NoEmptyOutput(p.chan) && MachineValid(a, p, BatchMeaning(p.chan)) && Enabled(a, p, s)
    requires p.alive ==> p.spawned
    ensures MachineValid(a, Next(a, p, s), BatchMeaning(Next(a, p, s).chan))
  {
    match s
    case Spawn => QueueOn(a, p);
    case Read(bytes) => QueueOutput(a, p, bytes);
    case Other(m) => QueueForeign(a, p, m);
    case Die => DieMachine(a, p);
    case MachineClose => QueueOff(a, p, p.alive);
    case SendBatch(n) =>
      SendMachine(a, p, n);
      SendAllFrame(a, p.(chan := p.chan[n..]), Coalesced(p.chan[..n]));
    case _ => QuietMachine(a, p, s);
  }

  lemma NextShown(a: Attach, p: Pipe, s: Step)
    requires Enabled(a, p, s) && ShownValid(a, p)
    requires var n := Next(a, p, s); HubValid(a, n) && MachineValid(a, n, BatchMeaning(n.chan))
    ensures ShownValid(a, Next(a, p, s))
  {
    var n := Next(a, p, s);
    if a.compress {
      if n.stopped {
        StepAfterStop(a, p, s);
        StoppedShown(a, p, n);
      } else {
        PrefixShown(a, n, BatchMeaning(n.chan));
      }
    }
  }

  lemma StepAfterStop(a: Attach, p: Pipe, s: Step)
    requires Enabled(a, p, s) && Next(a, p, s).stopped
    ensures var n := Next(a, p, s);
      n.done == p.done && p.taken <= n.taken && p.payloads <= n.payloads && p.produced <= n.produced
  {
    if s.SendBatch? {
      SendAllFrame(a, p.(chan := p.chan[s.count..]), Coalesced(p.chan[..s.count]));
    } else if s.Arrive? {
      ArriveFrame(a, p);
      ArriveTakes(a, p);
    }
  }

  lemma ArriveTakes(a: Attach, p: Pipe)
    requires p.wire != []
    ensures p.taken <= Next(a, p, Arrive).taken
  {
    var d := DecodeAttach(p.wire[0]);
  }

  /** After the browser is gone nothing about what it was shown changes. */
  lemma StoppedShown(a: Attach, p: Pipe, n: Pipe)
    requires ShownValid(a, p) && n.done == p.done && p.taken <= n.taken
    requires p.payloads <= n.payloads && p.produced <= n.produced
    ensures ShownValid(a, n)
  {
    if a.compress {
      assert n.payloads[..p.done] == p.payloads[..p.done] && n.taken[..p.done] == p.taken[..p.done];
    }
  }

  lemma {:induction false} RunSound(a: Attach, p: Pipe, steps: seq<Step>)
    requires Sound(a, p) && Possible(a, p, steps)
    ensures Sound(a, Run(a, p, steps))
    decreases |steps|
  {
    if steps != [] {
      NextHub(a, p, steps[0]);
      NextQueue(a, p, steps[0]);
      NextMachine(a, p, steps[0]);
      NextShown(a, p, steps[0]);
      RunSound(a, Next(a, p, steps[0]), steps[1..]);
    }
  }

  lemma {:induction false} PartOfPart<T>(x: seq<T>, y: seq<T>, k: nat, n: nat)
    requires k <= |x| && n <= |y| && Subsequence(x, y[..n])
    ensures Subsequence(x[..k], y)
    decreases |x| + |y|
  {
    if k == 0 {
      assert x[..k] == [];
    } else if n < |y| {
      assert y[..|y| - 1][..n] == y[..n];
      PartOfPart(x, y[..|y| - 1], k, n);
    } else if k < |x| {
      assert y[..n] == y;
      Shorter(x, y);
      assert x[..|x| - 1][..k] == x[..k];
      PartOfPart(x[..|x| - 1], y, k, n);
    } else {
      assert x[..k] == x && y[..n] == y;
    }
  }

  lemma {:induction false} Shorter<T>(x: seq<T>, y: seq<T>)
    requires x != [] && Subsequence(x, y)
    ensures Subsequence(x[..|x| - 1], y)
    decreases |y|
  {
    if Subsequence(x, y[..|y| - 1]) {
      Shorter(x, y[..|y| - 1]);
    } else {
      PushSkipped(x[..|x| - 1], y);
    }
  }

  lemma PushSkipped<T>(x: seq<T>, y: seq<T>)
    requires y != [] && Subsequence(x, y[..|y| - 1])
    ensures Subsequence(x, y)
  {
  }

  lemma StartSound(a: Attach)
    ensures Sound(a, Opened())
  {
    var p := Opened();
    assert BatchMeaning(p.chan) == [];
    assert DeflateAll(a, []) == [];
    assert p.payloads[..p.done] == [] && p.taken[..p.done] == [];
  }

  /** Everything sent has been written to the browser. */
  predicate Quiet(p: Pipe)
  {
    p.chan == [] && p.wire == [] && p.queue == [] && p.routed && !p.stopped && p.thinned == 0
  }

  /** Main result for compressed attaches: whatever the rest of the traffic, the
      batching, the merging of chunks, the resets and the closing do, the browser
      inflates what it was shown to a prefix of the pty's bytes, and to all of
      them once nothing is under way. */
  lemma CompressedReadsAPrefix(a: Attach, start: Pipe, steps: seq<Step>, inflate: seq<byte> -> seq<byte>)
    requires a.compress && Inflates(a, inflate)
    requires start == Opened() && Possible(a, start, steps)
    ensures var p := Run(a, start, steps);
      && p.taken <= p.emitted
      && inflate(p.shown) <= p.produced
      && (Quiet(p) ==> inflate(p.shown) == p.produced)
  {
    StartSound(a);
    RunSound(a, start, steps);
    var p := Run(a, start, steps);
    var read := p.payloads[..p.done];
    assert inflate(Concat(DeflateAll(a, read))) == Concat(read);
    assert p.taken <= p.emitted[..p.arrived] <= p.emitted;
    if Quiet(p) {
      QuietHub(a, p);
      assert read == p.payloads;
      assert Pending(a.id, BatchMeaning(p.chan)) == [];
    }
  }

  lemma QuietHub(a: Attach, p: Pipe)
    requires HubValid(a, p) && Quiet(p)
    ensures p.taken == p.emitted && p.done == |p.taken|
    ensures p.shown == Concat(p.emitted)
  {
    assert Mine(a, p.wire) == [];
    assert p.emitted[..p.arrived] == p.emitted;
    assert p.taken[..p.done] == p.taken;
  }

  /** Main result for uncompressed attaches: the browser is shown some of the
      machine's frames, whole and in order; all of them, in a prefix of the pty's
      bytes, as long as none was thinned out. */
  lemma UncompressedReadsWholeFrames(a: Attach, start: Pipe, steps: seq<Step>)
    requires !a.compress && start == Opened() && Possible(a, start, steps)
    ensures var p := Run(a, start, steps);
      && Concat(p.payloads) <= p.produced
      && p.done <= |p.taken| && Subsequence(p.taken[..p.done], p.payloads)
      && p.shown == Concat(p.taken[..p.done])
      && (p.routed && !p.stopped && p.thinned == 0 ==> p.shown <= p.produced)
      && (Quiet(p) ==> p.shown == p.produced)
  {
    StartSound(a);
    RunSound(a, start, steps);
    var p := Run(a, start, steps);
    PartOfPart(p.taken, p.payloads, p.done, p.arrived);
    if p.routed && !p.stopped && p.thinned == 0 {
      UnthinnedPrefix(a, p, BatchMeaning(p.chan));
    }
    if Quiet(p) {
      QuietHub(a, p);
      assert Pending(a.id, BatchMeaning(p.chan)) == [];
    }
  }

  lemma UnthinnedPrefix(a: Attach, p: Pipe, items: seq<Item>)
    requires HubValid(a, p) && RawValid(a, p, items) && p.routed && !p.stopped && p.thinned == 0
    ensures p.shown <= p.produced
  {
    assert p.taken[..p.done] == p.payloads[..p.done];
    ConcatPrefix(p.payloads, p.done);
  }
}
