/** The two loops of the byte pipeline as the program runs them, for all attaches
    at once, and what one attach sees of them: crates/machine/src/hub_conn.rs
    (send loop) and crates/hub/src/ws.rs (binary frames, send task). */
module PipelineLoops {
  import opened Basics
  import opened Frames
  import opened Coalesce
  import opened Pipeline

  type Deflate = (seq<byte>, seq<byte>) -> seq<byte>

  /** What the compressors have seen, and the binary frames written. */
  datatype Machine = Machine(compressors: map<AttachId, seq<byte>>, frames: seq<seq<byte>>)

  function SendWire(deflate: Deflate, m: Machine, w: Wire): Machine
  {
    match w
    case Text(_) => m
    case Marker(id, enable) =>
      m.(compressors := if enable then m.compressors[id := []] else m.compressors - {id})
    case Frame(id, payload) =>
      if |id| >= 0x10000 then m
      else if id in m.compressors then
        Machine(m.compressors[id := m.compressors[id] + payload],
                m.frames + [EncodeAttach(id, deflate(m.compressors[id], payload))])
      else m.(frames := m.frames + [EncodeAttach(id, payload)])
  }

  function SendWires(deflate: Deflate, m: Machine, wire: seq<Wire>): Machine
    decreases |wire|
  {
    if wire == [] then m else SendWires(deflate, SendWire(deflate, m, wire[0]), wire[1..])
  }

  /** The pipe of one attach agrees with the machine that serves them all. */
  predicate Serves(a: Attach, m: Machine, p: Pipe)
  {
    && p.context == (if a.id in m.compressors then Some(m.compressors[a.id]) else None)
    && Mine(a, p.wire) == Mine(a, m.frames)
  }

  lemma SendWireServes(a: Attach, m: Machine, p: Pipe, w: Wire)
    requires Serves(a, m, p)
    ensures Serves(a, SendWire(a.deflate, m, w), SendOne(a, p, w))
  {
    if w.Frame? && |w.attach| < 0x10000 {
      SendFrameServes(a, m, p, w.attach, w.payload);
    }
  }

  lemma SendFrameServes(a: Attach, m: Machine, p: Pipe, id: seq<byte>, payload: seq<byte>)
    requires Serves(a, m, p) && |id| < 0x10000
    ensures Serves(a, SendWire(a.deflate, m, Frame(id, payload)), SendOne(a, p, Frame(id, payload)))
  {
    var content := if id in m.compressors then a.deflate(m.compressors[id], payload) else payload;
    MineOne(a, m.frames, id, content);
    MineOne(a, p.wire, id, if id == a.id then content else payload);
  }

  /** Every attach's pipe is a faithful view of the one send loop: whatever the
      other attaches send, its compressor and its frames are the same. */
  lemma {:induction false} SendWiresServe(a: Attach, m: Machine, p: Pipe, wire: seq<Wire>)
    requires Serves(a, m, p)
    ensures Serves(a, SendWires(a.deflate, m, wire), SendAll(a, p, wire))
    decreases |wire|
  {
    if wire != [] {
      SendWireServes(a, m, p, wire[0]);
      SendWiresServe(a, SendWire(a.deflate, m, wire[0]), SendOne(a, p, wire[0]), wire[1..]);
    }
  }

  class SendLoop {
    const deflate: Deflate
    var compressors: map<AttachId, seq<byte>>
    var frames: seq<seq<byte>>

    function State(): Machine
      reads this
    {
      Machine(compressors, frames)
    }

    constructor (deflate: Deflate)
      ensures State() == Machine(map[], []) && this.deflate == deflate
    {
      this.deflate := deflate;
      compressors, frames := map[], [];
    }

    method SendMessage(w: Wire)
      modifies this
      ensures State() == SendWire(deflate, old(State()), w)
    {
      match w {
        case Text(_) =>
        case Marker(id, enable) =>
          if enable {
            compressors := compressors[id := []];
          } else {
            compressors := compressors - {id};
          }
        case Frame(id, payload) =>
          if |id| < 0x10000 {
            var content := payload;
            if id in compressors {
              content := deflate(compressors[id], payload);
              compressors := compressors[id := compressors[id] + payload];
            }
            frames := frames + [EncodeAttach(id, content)];
          }
      }
    }

    method SendBatch(batch: seq<Outbound>)
      modifies this
      ensures State() == SendWires(deflate, old(State()), Coalesced(batch))
    {
      var wire := CoalesceBatch(batch);
      var i := 0;
      while i < |wire|
        invariant 0 <= i <= |wire|
        invariant SendWires(deflate, State(), wire[i..]) == SendWires(deflate, old(State()), wire)
      {
        assert wire[i..][1..] == wire[i + 1..];
        SendMessage(wire[i]);
        i := i + 1;
      }
    }
  }

  // ----- the hub -----

  /** The channels of the attaches' browsers; a closed one has lost its reader. */
  datatype Browsers = Browsers(queues: map<AttachId, seq<seq<byte>>>, compressed: set<AttachId>, closed: set<AttachId>)

  datatype Outcome = Queued | Thinned | Reset | Gone | Unrouted | Undecodable

  function Dispatch(b: Browsers, frame: seq<byte>): (Browsers, Outcome)
  {
    var decoded := DecodeAttach(frame);
    if decoded.Err? then (b, Undecodable)
    else
      var (id, content) := decoded.value;
      if id !in b.queues then (b, Unrouted) else DispatchTo(b, id, content)
  }

  function DispatchTo(b: Browsers, id: AttachId, content: seq<byte>): (Browsers, Outcome)
    requires id in b.queues
  {
    if id in b.closed then (b, Gone)
    else if |b.queues[id]| < ATTACH_OUTPUT_QUEUE then
      (b.(queues := b.queues[id := b.queues[id] + [content]]), Queued)
    else if id in b.compressed then (b.(queues := b.queues - {id}, compressed := b.compressed - {id}), Reset)
    else (b, Thinned)
  }

  /** What must become of a frame: it waits behind the others exactly if its attach is
      routed, the browser is there and fewer than 256 chunks wait. A frame that finds
      256 resets a compressed attach, which is then routed nowhere, and is dropped for
      another; in every other case nothing changes. */
  predicate Handled(b: Browsers, frame: seq<byte>, after: Browsers, outcome: Outcome)
  {
    var decoded := DecodeAttach(frame);
    if decoded.Err? then outcome.Undecodable? && after == b
    else
      var (id, content) := decoded.value;
      var there := id in b.queues && id !in b.closed;
      && (outcome.Unrouted? <==> id !in b.queues)
      && (outcome.Gone? <==> id in b.queues && id in b.closed)
      && (outcome.Queued? <==> there && |b.queues[id]| < 256)
      && (outcome.Reset? <==> there && |b.queues[id]| >= 256 && id in b.compressed)
      && (outcome.Thinned? <==> there && |b.queues[id]| >= 256 && id !in b.compressed)
      && (outcome.Queued? ==> after == b.(queues := b.queues[id := b.queues[id] + [content]]))
      && (outcome.Reset? ==> after == b.(queues := b.queues - {id}, compressed := b.compressed - {id}))
      && (!outcome.Queued? && !outcome.Reset? ==> after == b)
  }

  lemma DispatchHandles(b: Browsers, frame: seq<byte>)
    ensures Handled(b, frame, Dispatch(b, frame).0, Dispatch(b, frame).1)
  {
  }

  /** The pipe of one attach agrees with the hub that serves them all. A browser
      whose channel was dropped still drains what is in it, so the queue only has
      to agree while the attach is routed. */
  predicate Routes(a: Attach, b: Browsers, p: Pipe)
  {
    && (p.routed <==> a.id in b.queues)
    && (p.routed ==> p.queue == b.queues[a.id] && (a.compress <==> a.id in b.compressed) && (p.stopped <==> a.id in b.closed))
  }

  /** One binary frame moves an attach's pipe exactly as its own frames would, and
      a frame that is not its own does not move it. */
  lemma DispatchRoutes(a: Attach, b: Browsers, p: Pipe, frame: seq<byte>)
    requires Routes(a, b, p)
    ensures Routes(a, Dispatch(b, frame).0, Route(a, p, frame))
  {
  }

  /** One attach's share of the channel: the chunks that came for it, those that
      were queued, what its browser was sent, and what waits. */
  datatype Flow = Flow(given: seq<seq<byte>>, taken: seq<seq<byte>>, shown: seq<byte>)

  /** Sent and waiting bytes are the queued chunks. Those are chunks that came, whole
      and in order; for a compressed attach the first of them, and all of them until
      its browser is gone. */
  predicate FlowValid(f: Flow, queue: seq<seq<byte>>, compress: bool, closed: bool)
  {
    && f.shown + Concat(queue) == Concat(f.taken)
    && Subsequence(f.taken, f.given)
    && (compress ==> f.taken <= f.given)
    && (compress && !closed ==> f.taken == f.given)
  }

  lemma FlowTakes(f: Flow, queue: seq<seq<byte>>, compress: bool, content: seq<byte>)
    requires FlowValid(f, queue, compress, false)
    ensures FlowValid(f.(given := f.given + [content], taken := f.taken + [content]), queue + [content], compress, false)
  {
    ButLast(f.taken, [content]);
    ButLast(f.given, [content]);
    ConcatAppend(f.taken, [content]);
    ConcatAppend(queue, [content]);
    Assoc(f.shown, Concat(queue), Concat([content]));
  }

  lemma FlowSkips(f: Flow, queue: seq<seq<byte>>, compress: bool, closed: bool, content: seq<byte>)
    requires FlowValid(f, queue, compress, closed) && (closed || !compress)
    ensures FlowValid(f.(given := f.given + [content]), queue, compress, closed)
  {
    ButLast(f.given, [content]);
    assert f.given + [] == f.given;
  }

  lemma FlowSends(f: Flow, queue: seq<seq<byte>>, compress: bool, closed: bool, count: nat)
    requires FlowValid(f, queue, compress, closed) && count <= |queue|
    ensures FlowValid(f.(shown := f.shown + Concat(queue[..count])), queue[count..], compress, closed)
  {
    assert queue == queue[..count] + queue[count..];
    ConcatAppend(queue[..count], queue[count..]);
    Assoc(f.shown, Concat(queue[..count]), Concat(queue[count..]));
  }

  predicate AllFlows(b: Browsers, flows: map<AttachId, Flow>)
  {
    && b.queues.Keys == flows.Keys
    && forall id | id in b.queues :: FlowValid(flows[id], b.queues[id], id in b.compressed, id in b.closed)
  }

  lemma FlowSet(b: Browsers, flows: map<AttachId, Flow>, id: AttachId, queue: seq<seq<byte>>, flow: Flow)
    requires AllFlows(b, flows) && FlowValid(flow, queue, id in b.compressed, id in b.closed)
    ensures AllFlows(b.(queues := b.queues[id := queue]), flows[id := flow])
  {
  }

  lemma FlowSame(b: Browsers, flows: map<AttachId, Flow>, id: AttachId, flow: Flow)
    requires AllFlows(b, flows) && id in flows && FlowValid(flow, b.queues[id], id in b.compressed, id in b.closed)
    ensures AllFlows(b, flows[id := flow])
  {
  }

  lemma FlowDrop(b: Browsers, flows: map<AttachId, Flow>, id: AttachId)
    requires AllFlows(b, flows)
    ensures AllFlows(b.(queues := b.queues - {id}, compressed := b.compressed - {id}), flows - {id})
  {
  }

  class Dispatcher {
    var queues: map<AttachId, seq<seq<byte>>>
    var compressed: set<AttachId>
    var closed: set<AttachId>
    ghost var flows: map<AttachId, Flow>

    function State(): Browsers
      reads this
    {
      Browsers(queues, compressed, closed)
    }

    ghost predicate Valid()
      reads this
    {
      AllFlows(State(), flows)
    }

    constructor ()
      ensures Valid() && queues == map[]
    {
      queues, compressed, closed, flows := map[], {}, {}, map[];
    }

    method Register(id: AttachId, compress: bool)
      requires Valid() && id !in queues && id !in compressed && id !in closed
      modifies this
      ensures Valid() && flows == old(flows)[id := Flow([], [], [])]
      ensures id in compressed <==> compress
    {
      queues, flows := queues[id := []], flows[id := Flow([], [], [])];
      if compress { compressed := compressed + {id}; }
    }

    /** One binary frame: it is queued, thinned out, or resets its attach; no other
        attach notices, and no compressed one ever gets a hole. */
    method HandleBinary(frame: seq<byte>) returns (outcome: Outcome)
      requires Valid()
      modifies this
      ensures Valid() && (State(), outcome) == Dispatch(old(State()), frame)
      ensures Handled(old(State()), frame, State(), outcome)
      ensures outcome.Undecodable? || outcome.Unrouted? ==> flows == old(flows)
      ensures DecodeAttach(frame).Ok? ==>
                var (id, content) := DecodeAttach(frame).value;
                && flows - {id} == old(flows) - {id}
                && (id in old(flows) && id in flows ==> flows[id].given == old(flows)[id].given + [content])
                && (outcome.Thinned? ==> id !in compressed)
                && (outcome.Reset? ==> id !in flows)
    {
      DispatchHandles(State(), frame);
      var decoded := DecodeAttach(frame);
      if decoded.Err? { return Undecodable; }
      var (id, content) := decoded.value;
      if id !in queues { return Unrouted; }
      outcome := Deliver(id, content);
    }

    method Deliver(id: AttachId, content: seq<byte>) returns (outcome: Outcome)
      requires Valid() && id in queues
      modifies this
      ensures Valid() && (State(), outcome) == DispatchTo(old(State()), id, content)
      ensures !outcome.Undecodable? && !outcome.Unrouted?
      ensures flows - {id} == old(flows) - {id}
      ensures id in flows ==> flows[id].given == old(flows)[id].given + [content]
      ensures outcome.Thinned? ==> id !in compressed
      ensures outcome.Reset? <==> id !in flows
    {
      if id in closed {
        Miss(id, content);
        outcome := Gone;
      } else if |queues[id]| < ATTACH_OUTPUT_QUEUE {
        Enqueue(id, content);
        outcome := Queued;
      } else if id in compressed {
        ResetAttach(id);
        outcome := Reset;
      } else {
        Miss(id, content);
        outcome := Thinned;
      }
    }

    ghost method Miss(id: AttachId, content: seq<byte>)
      requires Valid() && id in queues && (id in closed || id !in compressed)
      modifies this`flows
      ensures Valid() && flows - {id} == old(flows) - {id} && id in flows
      ensures flows[id].given == old(flows)[id].given + [content]
    {
      var given := flows[id].(given := flows[id].given + [content]);
      FlowSkips(flows[id], queues[id], id in compressed, id in closed, content);
      FlowSame(State(), flows, id, given);
      flows := flows[id := given];
    }

    method ResetAttach(id: AttachId)
      requires Valid() && id in queues
      modifies this`queues, this`compressed, this`flows
      ensures Valid() && queues == old(queues) - {id} && compressed == old(compressed) - {id}
      ensures flows == old(flows) - {id}
    {
      FlowDrop(State(), flows, id);
      queues, flows := queues - {id}, flows - {id};
      compressed := compressed - {id};
    }

    method Enqueue(id: AttachId, content: seq<byte>)
      requires Valid() && id in queues && id !in closed
      modifies this`queues, this`flows
      ensures Valid() && queues == old(queues)[id := old(queues)[id] + [content]]
      ensures flows - {id} == old(flows) - {id} && id in flows
      ensures flows[id].given == old(flows)[id].given + [content]
    {
      ghost var flow := flows[id];
      ghost var longer := flow.(given := flow.given + [content], taken := flow.taken + [content]);
      FlowTakes(flow, queues[id], id in compressed, content);
      FlowSet(State(), flows, id, queues[id] + [content], longer);
      flows := flows[id := longer];
      queues := queues[id := queues[id] + [content]];
    }

    /** The send task's next message: up to 32 chunks merged into one. */
    method NextMessage(id: AttachId) returns (message: seq<byte>, count: nat)
      requires Valid() && id in queues && queues[id] != []
      modifies this`queues, this`flows
      ensures Valid() && flows == old(flows)[id := old(flows)[id].(shown := old(flows)[id].shown + message)]
      ensures 0 < count <= MERGE_LIMIT && count <= |old(queues)[id]|
      ensures count == 32 || count == |old(queues)[id]|
      ensures message == Concat(old(queues)[id][..count])
      ensures queues == old(queues)[id := old(queues)[id][count..]]
    {
      message, count := Merge(queues[id]);
      FlowSends(flows[id], queues[id], id in compressed, id in closed, count);
      FlowSet(State(), flows, id, queues[id][count..], flows[id].(shown := flows[id].shown + message));
      flows := flows[id := flows[id].(shown := flows[id].shown + message)];
      queues := queues[id := queues[id][count..]];
    }
  }

  /** The first chunks of a queue, in one. */
  method Merge(chunks: seq<seq<byte>>) returns (message: seq<byte>, count: nat)
    requires chunks != []
    ensures 0 < count <= MERGE_LIMIT && count <= |chunks| && message == Concat(chunks[..count])
    ensures count == |chunks| || count == MERGE_LIMIT
  {
    count := if |chunks| < MERGE_LIMIT then |chunks| else MERGE_LIMIT;
    message := [];
    var i := 0;
    while i < count
      invariant 0 <= i <= count <= |chunks|
      invariant message == Concat(chunks[..i])
    {
      ConcatAppend(chunks[..i], [chunks[i]]);
      assert chunks[..i + 1] == chunks[..i] + [chunks[i]];
      assert Concat([chunks[i]]) == chunks[i] + Concat([]);
      message := message + chunks[i];
      i := i + 1;
    }
  }
}
