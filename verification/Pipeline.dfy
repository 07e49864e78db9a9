/** The byte pipeline of one attach, from the pty on the machine to the browser,
    amid the traffic of any number of others: crates/machine/src/hub_conn.rs
    (send loop), crates/hub/src/attach_router.rs and crates/hub/src/ws.rs. */
module Pipeline {
  import opened Basics
  import opened Frames
  import opened Coalesce

  const SEND_BATCH_LIMIT: nat := 64
  const ATTACH_OUTPUT_QUEUE: nat := 256
  const MERGE_LIMIT: nat := 32

  /** The ids the frame codec carries. */
  type FrameId = id: seq<byte> | |id| < 0x10000 && IsUtf8(id) witness []

  /** The attach under study. `deflate(context, message)` is what the compressor
      emits for a message after it has seen `context`. */
  datatype Attach = Attach(id: FrameId, compress: bool, deflate: (seq<byte>, seq<byte>) -> seq<byte>)

  /** Where the send loop is with this attach's compression markers. */
  datatype Phase = Before | On | Off

  datatype Pipe = Pipe(
    // machine
    spawned: bool,                 // OpenAttach was handled
    alive: bool,                   // the pty reader has not reported its death
    chan: seq<Outbound>,           // the send channel, everybody's messages
    context: Option<seq<byte>>,    // this attach's compressor, if there is one
    wire: seq<seq<byte>>,          // encoded binary frames on their way to the hub
    // hub
    routed: bool,                  // the router has a sender for the attach
    queue: seq<seq<byte>>,         // chunks waiting for the browser's socket
    stopped: bool,                 // the browser's tasks have ended
    shown: seq<byte>,              // bytes written to the browser
    // what an observer has noted
    phase: Phase,
    produced: seq<byte>,           // bytes read from the pty
    payloads: seq<seq<byte>>,      // merged payloads sent with the attach's compression setting
    emitted: seq<seq<byte>>,       // contents of this attach's frames, as sent
    arrived: nat,                  // how many of them the hub has seen
    taken: seq<seq<byte>>,         // chunks that were queued for the browser
    done: nat,                     // how many of those were written
    thinned: nat)                  // chunks dropped because the queue was full

  function Opened(): Pipe
  {
    Pipe(false, false, [], None, [], true, [], false, [], Before, [], [], [], 0, [], 0, 0)
  }

  datatype Step =
    | Spawn
    | Read(bytes: seq<byte>)
    | Other(message: Outbound)
    | Die
    | MachineClose
    | SendBatch(count: nat)
    | Arrive
    | Drain(count: nat)
    | Unroute
    | Stop

  predicate Enabled(a: Attach, p: Pipe, s: Step)
  {
    match s
    case Spawn => !p.spawned
    case Read(bytes) => p.alive && bytes != []
    case Other(m) => m.Json? || (m.attach != a.id && |m.attach| < 0x10000 && (m.Output? ==> m.data != []))
    case Die => p.alive
    case MachineClose => p.spawned && p.stopped
    case SendBatch(n) => 0 < n <= SEND_BATCH_LIMIT && n <= |p.chan|
    case Arrive => p.wire != []
    case Drain(n) => !p.stopped && 0 < n <= MERGE_LIMIT && n <= |p.queue|
    case Unroute => true
    case Stop => true
  }

  /** The send loop's handling of one merged wire message. */
  function SendOne(a: Attach, p: Pipe, w: Wire): Pipe
  {
    match w
    case Text(_) => p
    case Marker(id, enable) =>
      if id != a.id then p
      else if enable then p.(context := Some([]), phase := if p.phase.Before? then On else p.phase)
      else p.(context := None, phase := Off)
    case Frame(id, payload) =>
      if id != a.id then (if |id| < 0x10000 then p.(wire := p.wire + [EncodeAttach(id, payload)]) else p)
      else
        var content := if p.context.Some? then a.deflate(p.context.value, payload) else payload;
        p.(context := if p.context.Some? then Some(p.context.value + payload) else None,
           wire := p.wire + [EncodeAttach(id, content)],
           payloads := if p.context.Some? == a.compress then p.payloads + [payload] else p.payloads,
           emitted := p.emitted + [content])
  }

  function SendAll(a: Attach, p: Pipe, wire: seq<Wire>): Pipe
    decreases |wire|
  {
    if wire == [] then p else SendAll(a, SendOne(a, p, wire[0]), wire[1..])
  }

  /** The hub's handling of one binary frame: queue it, or thin or reset. */
  function Route(a: Attach, p: Pipe, frame: seq<byte>): Pipe
  {
    var decoded := DecodeAttach(frame);
    if decoded.Err? || decoded.value.0 != a.id then p else RouteContent(a, p, decoded.value.1)
  }

  function RouteContent(a: Attach, p: Pipe, content: seq<byte>): Pipe
  {
    var n := p.(arrived := p.arrived + 1);
    if !p.routed || p.stopped then n
    else if |p.queue| < ATTACH_OUTPUT_QUEUE then
      n.(queue := p.queue + [content], taken := p.taken + [content])
    else if a.compress then n.(routed := false)
    else n.(thinned := p.thinned + 1)
  }

  function Next(a: Attach, p: Pipe, s: Step): Pipe
    requires Enabled(a, p, s)
  {
    match s
    case Spawn =>
      p.(spawned := true, alive := true,
         chan := p.chan + if a.compress then [Compression(a.id, true)] else [])
    case Read(bytes) => p.(chan := p.chan + [Output(a.id, bytes)], produced := p.produced + bytes)
    case Other(m) => p.(chan := p.chan + [m])
    case Die => p.(alive := false, chan := p.chan + [Json("attach_died"), Compression(a.id, false)])
    case MachineClose => p.(chan := p.chan + [Compression(a.id, false)])
    case SendBatch(n) => SendAll(a, p.(chan := p.chan[n..]), Coalesced(p.chan[..n]))
    case Arrive => Route(a, p.(wire := p.wire[1..]), p.wire[0])
    case Drain(n) =>
      p.(queue := p.queue[n..], shown := p.shown + Concat(p.queue[..n]), done := p.done + n)
    case Unroute => p.(routed := false)
    case Stop => p.(stopped := true)
  }

  predicate Possible(a: Attach, p: Pipe, steps: seq<Step>)
    decreases |steps|
  {
    steps == [] || (Enabled(a, p, steps[0]) && Possible(a, Next(a, p, steps[0]), steps[1..]))
  }

  function Run(a: Attach, p: Pipe, steps: seq<Step>): Pipe
    requires Possible(a, p, steps)
    decreases |steps|
  {
    if steps == [] then p else Run(a, Next(a, p, steps[0]), steps[1..])
  }

  // ----- the hub's half -----

  predicate Subsequence<T(==)>(x: seq<T>, y: seq<T>)
    decreases |y|
  {
    if x == [] then true
    else if y == [] then false
    else (x[|x| - 1] == y[|y| - 1] && Subsequence(x[..|x| - 1], y[..|y| - 1]))
         || Subsequence(x, y[..|y| - 1])
  }

  /** The contents of this attach's frames among the encoded ones. */
  function Mine(a: Attach, wire: seq<seq<byte>>): seq<seq<byte>>
  {
    if wire == [] then []
    else
      var first := DecodeAttach(wire[0]);
      (if first.Ok? && first.value.0 == a.id then [first.value.1] else []) + Mine(a, wire[1..])
  }

  lemma {:induction false} MineAppend(a: Attach, x: seq<seq<byte>>, y: seq<seq<byte>>)
    ensures Mine(a, x + y) == Mine(a, x) + Mine(a, y)
  {
    if x == [] {
      assert x + y == y;
    } else {
      assert (x + y)[1..] == x[1..] + y;
      MineAppend(a, x[1..], y);
    }
  }

  /** A compressed attach never has a hole; an uncompressed one loses only whole
      frames, and none while the browser keeps up. */
  predicate HubValid(a: Attach, p: Pipe)
  {
    && p.arrived <= |p.emitted| && p.done <= |p.taken|
    && Mine(a, p.wire) == p.emitted[p.arrived..]
    && p.queue == p.taken[p.done..]
    && p.shown == Concat(p.taken[..p.done])
    && Kept(a.compress, p.emitted[..p.arrived], p.taken, p.routed && !p.stopped, p.thinned)
  }

  lemma TakeOne(taken: seq<seq<byte>>, content: seq<byte>, done: nat)
    requires done <= |taken|
    ensures (taken + [content])[done..] == taken[done..] + [content]
    ensures (taken + [content])[..done] == taken[..done]
    ensures (taken + [content])[..|taken|] == taken
  {
  }

  /** What the hub has seen of the attach and what it has queued of that. */
  predicate Kept(compress: bool, seen: seq<seq<byte>>, taken: seq<seq<byte>>, routed: bool, thinned: nat)
  {
    && (compress ==> taken <= seen && thinned == 0)
    && Subsequence(taken, seen)
    && (routed && thinned == 0 ==> taken == seen)
  }

  lemma KeptTakes(compress: bool, seen: seq<seq<byte>>, taken: seq<seq<byte>>, thinned: nat, content: seq<byte>)
    requires Kept(compress, seen, taken, true, thinned)
    ensures Kept(compress, seen + [content], taken + [content], true, thinned)
  {
    assert (seen + [content])[..|seen|] == seen;
    assert (taken + [content])[..|taken|] == taken;
  }

  lemma KeptSkips(compress: bool, seen: seq<seq<byte>>, taken: seq<seq<byte>>, routed: bool, thinned: nat, content: seq<byte>)
    requires Kept(compress, seen, taken, routed, thinned)
    ensures Kept(compress, seen + [content], taken, false, thinned)
    ensures !compress ==> Kept(compress, seen + [content], taken, routed, thinned + 1)
  {
    assert (seen + [content])[..|seen|] == seen;
  }

  lemma Arrived<T>(emitted: seq<T>, arrived: nat, content: T, rest: seq<T>)
    requires arrived <= |emitted| && emitted[arrived..] == [content] + rest
    ensures arrived < |emitted| && emitted[arrived + 1..] == rest
    ensures emitted[..arrived + 1] == emitted[..arrived] + [content]
  {
    assert emitted[arrived] == emitted[arrived..][0] == content;
    assert emitted[arrived + 1..] == emitted[arrived..][1..];
  }

  lemma RouteContentValid(a: Attach, p: Pipe, rest: seq<seq<byte>>, content: seq<byte>)
    requires HubValid(a, p) && Mine(a, p.wire) == [content] + Mine(a, rest)
    ensures HubValid(a, RouteContent(a, p.(wire := rest), content))
  {
    Arrived(p.emitted, p.arrived, content, Mine(a, rest));
    var seen := p.emitted[..p.arrived];
    if p.routed && !p.stopped && |p.queue| < ATTACH_OUTPUT_QUEUE {
      TakeOne(p.taken, content, p.done);
      KeptTakes(a.compress, seen, p.taken, p.thinned, content);
    } else {
      KeptSkips(a.compress, seen, p.taken, p.routed && !p.stopped, p.thinned, content);
    }
  }

  lemma RouteValid(a: Attach, p: Pipe)
    requires HubValid(a, p) && p.wire != []
    ensures HubValid(a, Route(a, p.(wire := p.wire[1..]), p.wire[0]))
  {
    var d := DecodeAttach(p.wire[0]);
    if d.Ok? && d.value.0 == a.id {
      RouteContentValid(a, p, p.wire[1..], d.value.1);
    } else {
      assert Mine(a, p.wire) == [] + Mine(a, p.wire[1..]);
    }
  }

  lemma MineOne(a: Attach, wire: seq<seq<byte>>, id: seq<byte>, content: seq<byte>)
    requires |id| < 0x10000
    ensures Mine(a, wire + [EncodeAttach(id, content)]) == Mine(a, wire) + if id == a.id then [content] else []
  {
    var frame := EncodeAttach(id, content);
    MineAppend(a, wire, [frame]);
    assert [frame] == [frame] + [];
    if id == a.id {
      AttachFramesRoundTrip(frame, id, content);
    } else if DecodeAttach(frame).Ok? && DecodeAttach(frame).value.0 == a.id {
      AttachFramesRoundTrip(frame, a.id, DecodeAttach(frame).value.1);
      SameHeader(id, content, a.id, DecodeAttach(frame).value.1);
    }
  }

  lemma SameHeader(id: seq<byte>, content: seq<byte>, other: seq<byte>, otherContent: seq<byte>)
    requires |id| < 0x10000 && |other| < 0x10000
    requires EncodeAttach(id, content) == EncodeAttach(other, otherContent)
    ensures id == other
  {
    EncodedParts(ATTACH_FRAME_MAGIC, id, content);
    EncodedParts(ATTACH_FRAME_MAGIC, other, otherContent);
  }

  lemma SendMineHub(a: Attach, p: Pipe, payload: seq<byte>)
    requires HubValid(a, p)
    ensures HubValid(a, SendOne(a, p, Frame(a.id, payload)))
  {
    var content := if p.context.Some? then a.deflate(p.context.value, payload) else payload;
    MineOne(a, p.wire, a.id, content);
    TakeOne(p.emitted, content, p.arrived);
  }

  lemma SendOneHub(a: Attach, p: Pipe, w: Wire)
    requires HubValid(a, p)
    ensures HubValid(a, SendOne(a, p, w))
  {
    if w.Frame? && w.attach == a.id {
      SendMineHub(a, p, w.payload);
    } else {
      SendOtherHub(a, p, w);
    }
  }

  lemma SendOtherHub(a: Attach, p: Pipe, w: Wire)
    requires !w.Frame? || w.attach != a.id
    ensures Mine(a, SendOne(a, p, w).wire) == Mine(a, p.wire)
    ensures w.Frame? ==> SendOne(a, p, w) == p.(wire := SendOne(a, p, w).wire)
    ensures w.Marker? ==> SendOne(a, p, w) == p.(context := SendOne(a, p, w).context, phase := SendOne(a, p, w).phase)
  {
    if w.Frame? && |w.attach| < 0x10000 {
      MineOne(a, p.wire, w.attach, w.payload);
      assert Mine(a, p.wire) + [] == Mine(a, p.wire);
    }
  }

  lemma {:induction false} SendAllHub(a: Attach, p: Pipe, wire: seq<Wire>)
    requires HubValid(a, p)
    ensures HubValid(a, SendAll(a, p, wire))
    decreases |wire|
  {
    if wire != [] {
      SendOneHub(a, p, wire[0]);
      SendAllHub(a, SendOne(a, p, wire[0]), wire[1..]);
    }
  }

  lemma DrainHub(a: Attach, p: Pipe, n: nat)
    requires HubValid(a, p) && n <= |p.queue|
    ensures p.taken[..p.done + n] == p.taken[..p.done] + p.queue[..n]
    ensures p.shown + Concat(p.queue[..n]) == Concat(p.taken[..p.done + n])
    ensures p.queue[n..] == p.taken[p.done + n..]
  {
    assert p.taken[..p.done + n] == p.taken[..p.done] + p.queue[..n];
    ConcatAppend(p.taken[..p.done], p.queue[..n]);
  }

  lemma NextHub(a: Attach, p: Pipe, s: Step)
    requires HubValid(a, p) && Enabled(a, p, s)
    ensures HubValid(a, Next(a, p, s))
  {
    match s
    case SendBatch(n) => SendAllHub(a, p.(chan := p.chan[n..]), Coalesced(p.chan[..n]));
    case Arrive => RouteValid(a, p);
    case Drain(n) => DrainValid(a, p, n);
    case _ => OtherHub(a, p, s);
  }

  lemma DrainValid(a: Attach, p: Pipe, n: nat)
    requires HubValid(a, p) && Enabled(a, p, Drain(n))
    ensures HubValid(a, Next(a, p, Drain(n)))
  {
    DrainHub(a, p, n);
  }

  lemma OtherHub(a: Attach, p: Pipe, s: Step)
    requires HubValid(a, p) && Enabled(a, p, s) && !s.SendBatch? && !s.Arrive? && !s.Drain?
    ensures HubValid(a, Next(a, p, s))
  {
  }

  lemma {:induction false} RunHub(a: Attach, p: Pipe, steps: seq<Step>)
    requires HubValid(a, p) && Possible(a, p, steps)
    ensures HubValid(a, Run(a, p, steps))
    decreases |steps|
  {
    if steps != [] {
      NextHub(a, p, steps[0]);
      RunHub(a, Next(a, p, steps[0]), steps[1..]);
    }
  }
}
