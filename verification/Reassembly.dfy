/** The other end of the encrypted channel: `Channel::decode` reassembles the
    fragments the multiplexer interleaves. */
module Reassembly {
  import opened Basics
  import opened Outbound
  import opened OutboundRuns

  const MAX_ASSEMBLIES: nat := 8
  const MAX_ASSEMBLY_BYTES: nat := 64 * 1024 * 1024

  datatype Assembly = Assembly(total: nat, data: seq<byte>)

  datatype Receiver = Receiver(
    lastStarted: nat,
    pending: map<nat, Assembly>,
    reserved: nat,
    failed: bool,
    delivered: seq<seq<byte>>)

  function Listening(): Receiver { Receiver(0, map[], 0, false, []) }

  /** A failed channel forgets everything it was assembling. */
  function Fail(r: Receiver): Receiver { r.(failed := true, pending := map[], reserved := 0) }

  function Deliver(r: Receiver, message: seq<byte>): Receiver
  {
    r.(delivered := r.delivered + [message])
  }

  /** `Channel::decode`: take one record. */
  function Receive(r: Receiver, record: Record): Receiver
  {
    var data := record.data;
    if r.failed then r
    else if !(1 <= |data| <= FRAGMENT_BYTES) then Fail(r)
    else if record.total == 0 || record.total > MAX_MESSAGE || record.offset + |data| > record.total then Fail(r)
    else if record.offset == 0 then
      if record.id <= r.lastStarted then Fail(r)
      else
        var started := r.(lastStarted := record.id);
        if |data| == record.total then Deliver(started, data)
        else if |r.pending| >= MAX_ASSEMBLIES || r.reserved + record.total > MAX_ASSEMBLY_BYTES then Fail(started)
        else started.(reserved := r.reserved + record.total,
                      pending := r.pending[record.id := Assembly(record.total, data)])
    else if record.id !in r.pending then Fail(r)
    else
      var assembly := r.pending[record.id];
      if assembly.total != record.total || |assembly.data| != record.offset then Fail(r)
      else
        var whole := assembly.data + data;
        if |whole| == record.total then
          Deliver(r.(pending := r.pending - {record.id},
                     reserved := if r.reserved >= record.total then r.reserved - record.total else 0), whole)
        else r.(pending := r.pending[record.id := assembly.(data := whole)])
  }

  function ReceiveAll(log: seq<Sent>): Receiver
  {
    if log == [] then Listening() else Receive(ReceiveAll(log[..|log| - 1]), log[|log| - 1].record)
  }

  function Contents(queue: seq<Queued>): seq<seq<byte>>
  {
    if queue == [] then [] else Contents(queue[..|queue| - 1]) + [queue[|queue| - 1].message.data]
  }

  lemma ContentsPush(queue: seq<Queued>, q: Queued)
    ensures Contents(queue + [q]) == Contents(queue) + [q.message.data]
  {
    assert (queue + [q])[..|queue|] == queue;
  }

  /** The receiver is exactly in step with the writer: it is assembling the
      active bulk message and nothing else, and has every finished message. */
  ghost predicate InStep(s: Mux, r: Receiver, finished: seq<Queued>)
  {
    && !r.failed
    && s.nextId == r.lastStarted + 1
    && r.delivered == Contents(finished)
    && (if s.bulk.None? then r.pending == map[] && r.reserved == 0
        else
          var m := s.bulk.value.message;
          m.id.Some? && m.offset <= |m.data|
          && r.pending == map[m.id.value := Assembly(|m.data|, m.data[..m.offset])]
          && r.reserved == |m.data|)
  }

  lemma EmitInStep(s: Mux, r: Receiver, finished: seq<Queued>, next: Queued)
    requires Shape(s) && InStep(s, r, finished) && next.message.Fresh()
    requires !EncodeNext(s.nextId, next.message).1.Finished() ==> s.bulk.None?
    ensures var (after, sent) := Emit(s, next);
            InStep(after, Receive(r, sent.record), finished + Done(sent.queued))
  {
    var (after, sent) := Emit(s, next);
    ContentsPush(finished, sent.queued);
    assert next.message.data[0..|next.message.data|] == next.message.data;
    assert finished + [] == finished;
  }

  lemma ResumeInStep(s: Mux, r: Receiver, finished: seq<Queued>)
    requires Shape(s) && s.bulk.Some? && InStep(s, r, finished)
    ensures var (after, sent) := Emit(s.(bulk := None), s.bulk.value);
            InStep(after, Receive(r, sent.record), finished + Done(sent.queued))
  {
    var next := s.bulk.value;
    var m := next.message;
    var (after, sent) := Emit(s.(bulk := None), next);
    ContentsPush(finished, sent.queued);
    var end := sent.queued.message.offset;
    assert m.data[..m.offset] + m.data[m.offset..end] == m.data[..end];
    assert r.pending - {m.id.value} == map[];
    assert m.data[..|m.data|] == m.data;
    assert finished + [] == finished;
  }

  lemma PassInStep(s: Mux, r: Receiver, finished: seq<Queued>)
    requires Valid(s) && InStep(s, r, finished)
    ensures var (after, o) := Iterate(s);
            if o.None? then InStep(after, r, finished)
            else InStep(after, Receive(r, o.value.record), finished + Done(o.value.queued))
  {
    if s.phase.Running? {
      var p := Pull(s);
      PullShape(s);
      if !Choose(p).Nothing? {
        TakenIsReady(p);
        OvertakerFinishes(p);
        TakeShape(p);
        if Choose(p).Resume? {
          assert InStep(p, r, finished);
          ResumeInStep(p.(streak := 0), r, finished);
        } else {
          EmitInStep(Take(p, Choose(p)).1, r, finished, Take(p, Choose(p)).0);
        }
      }
    }
  }

  ghost predicate WorldInStep(w: World)
  {
    InStep(w.mux, ReceiveAll(w.log), Finished(w.log))
  }

  lemma PassWorldInStep(w: World)
    requires Valid(w.mux) && WorldInStep(w)
    ensures WorldInStep(Next(w, Pass))
  {
    PassInStep(w.mux, ReceiveAll(w.log), Finished(w.log));
    var o := Iterate(w.mux).1;
    if o.Some? {
      assert (w.log + [o.value])[..|w.log|] == w.log;
      FinishedPush(w.log, o.value);
    }
  }

  lemma OtherKeepsWriter(w: World, e: Event)
    requires Valid(w.mux) && !e.Pass?
    ensures var n := Next(w, e);
            n.log == w.log && n.mux.bulk == w.mux.bulk && n.mux.nextId == w.mux.nextId
  {
  }

  lemma NextInStep(w: World, e: Event)
    requires Valid(w.mux) && WorldInStep(w)
    ensures WorldInStep(Next(w, e))
  {
    if e.Pass? {
      PassWorldInStep(w);
    } else {
      OtherKeepsWriter(w, e);
    }
  }

  lemma {:induction false} RunInStep(w: World, events: seq<Event>)
    requires Valid(w.mux) && WorldInStep(w)
    ensures WorldInStep(Run(w, events))
    decreases |events|
  {
    if events != [] {
      NextValid(w, events[0]);
      NextInStep(w, events[0]);
      RunInStep(Next(w, events[0]), events[1..]);
    }
  }

  /** Main result: in every run the receiver never fails, never assembles more
      than one message, and delivers exactly the finished messages, byte for
      byte and in the order in which they were finished. */
  lemma ReceiverGetsWhatWasFinished(start: World, events: seq<Event>)
    requires start == Initial() && Valid(start.mux)
    ensures var w := Run(start, events);
            var r := ReceiveAll(w.log);
            !r.failed && |r.pending| <= 1 && r.delivered == Contents(Finished(w.log))
  {
    RunInStep(start, events);
  }
}
