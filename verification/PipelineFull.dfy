/** When a browser gets everything: exactly when its channel is never full. */
module PipelineFull {
  import opened Basics
  import opened Frames
  import opened Coalesce
  import opened Pipeline
  import opened PipelineStreams

  /** A frame of this attach arrives. */
  predicate Finds(a: Attach, p: Pipe, s: Step)
  {
    && s.Arrive? && p.wire != []
    && DecodeAttach(p.wire[0]).Ok? && DecodeAttach(p.wire[0]).value.0 == a.id
  }

  /** The hub passes on what comes for the attach, and has dropped nothing of it. */
  predicate Listening(p: Pipe)
  {
    p.routed && !p.stopped && p.thinned == 0
  }

  /** A frame arrives while 256 chunks wait, the route is taken away, or the browser
      stops. */
  predicate Disturbs(a: Attach, p: Pipe, s: Step)
  {
    (Finds(a, p, s) && |p.queue| >= 256) || s.Unroute? || s.Stop?
  }

  /** What becomes of a frame: queued behind the others exactly if it is routed, its
      browser is there and there is room; without room a compressed attach loses its
      route and another one the frame; otherwise nothing happens to it. */
  lemma ArrivesExactly(a: Attach, p: Pipe, s: Step)
    requires Enabled(a, p, s) && Finds(a, p, s)
    ensures var n, content := Next(a, p, s), DecodeAttach(p.wire[0]).value.1;
      var there, room := p.routed && !p.stopped, |p.queue| < 256;
      && n.queue == (if there && room then p.queue + [content] else p.queue)
      && n.taken == (if there && room then p.taken + [content] else p.taken)
      && (n.thinned == p.thinned + (if there && !room && !a.compress then 1 else 0))
      && (n.routed <==> p.routed && !(there && !room && a.compress))
      && n.arrived == p.arrived + 1 && n.wire == p.wire[1..] && n.stopped == p.stopped && n.shown == p.shown
  {
  }

  lemma {:induction false} SendAllHub(a: Attach, p: Pipe, wire: seq<Wire>)
    ensures var n := SendAll(a, p, wire);
      n.routed == p.routed && n.stopped == p.stopped && n.thinned == p.thinned && n.queue == p.queue
    decreases |wire|
  {
    if wire != [] {
      SendOneHubSame(a, p, wire[0]);
      SendAllHub(a, SendOne(a, p, wire[0]), wire[1..]);
    }
  }

  lemma SendOneHubSame(a: Attach, p: Pipe, w: Wire)
    ensures var n := SendOne(a, p, w);
      n.routed == p.routed && n.stopped == p.stopped && n.thinned == p.thinned && n.queue == p.queue
  {
  }

  lemma StepListens(a: Attach, p: Pipe, s: Step)
    requires Enabled(a, p, s)
    ensures Listening(Next(a, p, s)) <==> Listening(p) && !Disturbs(a, p, s)
  {
    if s.SendBatch? {
      SendAllHub(a, p.(chan := p.chan[s.count..]), Coalesced(p.chan[..s.count]));
    } else if Finds(a, p, s) {
      ArrivesExactly(a, p, s);
    } else if s.Arrive? {
      assert Route(a, p.(wire := p.wire[1..]), p.wire[0]) == p.(wire := p.wire[1..]);
    }
  }

  predicate DisturbedEver(a: Attach, p: Pipe, steps: seq<Step>)
    requires Possible(a, p, steps)
    decreases |steps|
  {
    steps != [] && (Disturbs(a, p, steps[0]) || DisturbedEver(a, Next(a, p, steps[0]), steps[1..]))
  }

  /** In every run: the hub has dropped nothing and still passes on what comes exactly
      if no frame of the attach met a full channel, the route was not taken away and
      the browser did not stop. */
  lemma {:induction false} ListensExactly(a: Attach, p: Pipe, steps: seq<Step>)
    requires Possible(a, p, steps)
    ensures Listening(Run(a, p, steps)) <==> Listening(p) && !DisturbedEver(a, p, steps)
    decreases |steps|
  {
    if steps != [] {
      StepListens(a, p, steps[0]);
      ListensExactly(a, Next(a, p, steps[0]), steps[1..]);
    }
  }

  /** Nothing is under way. */
  predicate Idle(p: Pipe)
  {
    p.chan == [] && p.wire == [] && p.queue == []
  }

  /** Main result for a browser that keeps up: what an uncompressed attach was shown is
      a prefix of the pty's bytes, and all of them once nothing is under way. */
  lemma UndisturbedReadsAll(a: Attach, start: Pipe, steps: seq<Step>)
    requires !a.compress && start == Opened() && Possible(a, start, steps) && !DisturbedEver(a, start, steps)
    ensures var p := Run(a, start, steps);
      p.shown <= p.produced && (Idle(p) ==> p.shown == p.produced)
  {
    ListensExactly(a, start, steps);
    UncompressedReadsWholeFrames(a, start, steps);
  }

  /** The same for a compressed one, through its inflater. */
  lemma UndisturbedInflatesAll(a: Attach, start: Pipe, steps: seq<Step>, inflate: seq<byte> -> seq<byte>)
    requires a.compress && Inflates(a, inflate)
    requires start == Opened() && Possible(a, start, steps) && !DisturbedEver(a, start, steps)
    ensures var p := Run(a, start, steps);
      inflate(p.shown) <= p.produced && (Idle(p) ==> inflate(p.shown) == p.produced)
  {
    ListensExactly(a, start, steps);
    CompressedReadsAPrefix(a, start, steps, inflate);
  }
}
