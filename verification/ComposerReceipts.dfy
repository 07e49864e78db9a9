/** What the receipt of a composer message does and does not tell. */
module ComposerReceipts {
  import opened Basics
  import opened ComposerPaste
  import opened Composer
  import opened ComposerRuns

  /** All marks of a request, on whatever attach, are one paste and its submit key. */
  lemma OnePlaceOnly(w: World, start: World, steps: seq<Step>, a: Name, i: nat, b: Name, j: nat, r: RequestId)
    requires start == Start() && Possible(start, steps) && w == Run(start, steps)
    requires Writes(w, a, i, r) && Writes(w, b, j, r)
    ensures a == b && (i < j ==> j == i + 1 && w.writers[a].log[i] == Pasted(r) && w.writers[a].log[j] == Submit(r))
  {
    AtMostOnceDelivery(w, start, steps);
    assert AtMostOnce(w.writers[a].log);
  }

  // ----- unknown -----

  /** Something of the key has reached some pty. */
  ghost predicate Reached(w: World, key: Key)
  {
    exists a, i :: Touched(w, a, i, key)
  }

  /** Main result: whatever the receipt says, exactly the stage of the key's request
      tells whether anything of it was written: one that was never dispatched, is
      under way, was refused, waits in a writer's queue or failed at its first byte
      has left nothing. */
  lemma ReachedExactly(w: World, start: World, steps: seq<Step>, key: Key)
    requires start == Start() && Possible(start, steps) && w == Run(start, steps)
    ensures Reached(w, key) <==>
            exists r :: 0 <= r < |w.requests| && w.requests[r].key == key && Wrote(w.requests[r].stage)
  {
    RunValid(start, steps);
    if Reached(w, key) {
      var a: Name, i: nat :| Touched(w, a, i, key);
      assert WriterValid(w.requests, a, w.writers[a]);
      assert Wrote(w.requests[Of(w.writers[a].log[i]).value].stage);
    }
    if r :| 0 <= r < |w.requests| && w.requests[r].key == key && Wrote(w.requests[r].stage) {
      MarkOf(w, r);
    }
  }

  lemma MarkOf(w: World, r: RequestId)
    requires MachineValid(w) && r < |w.requests| && Wrote(w.requests[r].stage)
    ensures Reached(w, w.requests[r].key)
  {
    var a := w.requests[r].attach;
    var log := w.writers[a].log;
    assert Shown(log, r, w.requests[r].stage);
    if w.requests[r].stage.Whole? {
      var i: nat :| OnceAt(log, r, i);
      assert Touched(w, a, i, w.requests[r].key);
    } else {
      var i: nat :| 0 <= i < |log| && Of(log[i]) == Some(r);
      assert Touched(w, a, i, w.requests[r].key);
    }
  }

  /** A key whose message can no longer reach a pty: its id is taken, no submission
      is about to dispatch it, and what was dispatched came to nothing. */
  predicate Spent(w: World, key: Key)
  {
    && key in w.rows
    && (forall t | t in w.tasks && w.tasks[t].key == key :: !w.tasks[t].phase.Reserved?)
    && (forall r | 0 <= r < |w.requests| && w.requests[r].key == key ::
          w.requests[r].stage.Refused? || w.requests[r].stage.Unwritten?)
  }

  lemma SpentStage(w: World, r: RequestId, stage: Stage, key: Key)
    requires Spent(w, key) && r < |w.requests|
    requires !w.requests[r].stage.Refused? && !w.requests[r].stage.Unwritten?
    ensures forall q | 0 <= q < |w.requests| && SetStage(w, r, stage).requests[q].key == key ::
              SetStage(w, r, stage).requests[q].stage.Refused? || SetStage(w, r, stage).requests[q].stage.Unwritten?
  {
  }

  lemma SpentDecide(w: World, t: TaskId, supports: bool, connected: bool, key: Key)
    requires HubValid(w) && Spent(w, key) && t in w.tasks && w.tasks[t].phase.Reserved?
    ensures Spent(DoDecide(w, t, supports, connected), key)
  {
    var n := DoDecide(w, t, supports, connected);
    assert w.tasks[t].key != key;
    assert w.requests <= n.requests;
  }

  lemma SpentMachine(w: World, s: Step, key: Key)
    requires MachineValid(w) && Spent(w, key) && Enabled(w, s)
    requires s.Prepare? || s.Perform? || s.Answer? || s.Open? || s.Type? || s.Stop?
    ensures Spent(Next(w, s), key)
  {
    if s.Prepare? {
      SpentStage(w, s.request, Next(w, s).requests[s.request].stage, key);
    } else if s.Perform? && w.writers[s.attach].queue[0].Paste? {
      var r := w.writers[s.attach].queue[0].request;
      assert WriterValid(w.requests, s.attach, w.writers[s.attach]);
      SpentStage(w, r, StageAfter(r, s.outcome), key);
    }
  }

  lemma NextSpent(w: World, s: Step, key: Key)
    requires HubValid(w) && MachineValid(w) && Spent(w, key) && Enabled(w, s)
    ensures Spent(Next(w, s), key)
  {
    match s
    case Decide(t, supports, connected) => SpentDecide(w, t, supports, connected, key);
    case Send(_, _, _, _, _, _) => SpentHub(w, s, key);
    case Hear(_) => SpentHub(w, s, key);
    case GiveUp(_) => SpentHub(w, s, key);
    case Finish(_, _) => SpentHub(w, s, key);
    case HubDies => SpentHub(w, s, key);
    case _ => SpentMachine(w, s, key);
  }

  lemma SpentHub(w: World, s: Step, key: Key)
    requires Spent(w, key) && Enabled(w, s)
    requires s.Send? || s.Hear? || s.GiveUp? || s.Finish? || s.HubDies?
    ensures Spent(Next(w, s), key)
  {
    HubOnly(w, s);
  }

  lemma {:induction false} RunSpent(w: World, steps: seq<Step>, key: Key)
    requires HubValid(w) && MachineValid(w) && Spent(w, key) && Possible(w, steps)
    ensures Spent(Run(w, steps), key)
    decreases |steps|
  {
    if steps != [] {
      NextSpent(w, steps[0], key);
      NextHub(w, steps[0]);
      NextMachine(w, steps[0]);
      RunSpent(Next(w, steps[0]), steps[1..], key);
    }
  }

  /** When unknown does mean never: if the hub stopped before it dispatched the
      message, or the dispatched one came to nothing, no byte of it is written,
      whatever happens later. */
  lemma SpentIsNeverWritten(w: World, start: World, before: seq<Step>, after: seq<Step>, key: Key)
    requires start == Start() && Possible(start, before) && w == Run(start, before)
    requires Spent(w, key) && Possible(w, after)
    ensures !Reached(Run(w, after), key)
  {
    RunValid(start, before);
    RunValid(w, after);
    RunSpent(w, after, key);
  }

  /** A hub that stops forgets its submissions: what it had not dispatched is spent. */
  lemma StoppedBeforeDispatchIsSpent(w: World, key: Key)
    requires key in w.rows && KeyUnsent(w.requests, key)
    ensures Spent(Next(w, HubDies), key)
  {
  }

  /** A message in the queue of its attach's writer, and its submission waiting. */
  function InQueue(key: Key, content: Message, a: Name): World
  {
    World(map[key := Row(content, Unknown)], map[0 := Task(key, content, Waiting(0))],
          [Request(key, content, a, Handed, None)], map[a := Writer(true, [Paste(0)], [])])
  }

  lemma QueueIsReached(w0: World, w1: World, w2: World, w3: World, w4: World, key: Key, content: Message, a: Name)
    requires Valid(content) && key.id == content.id
    requires w0 == Start() && w1 == Next(w0, Open(a))
    requires w2 == Next(w1, Send(0, key, content, a, true, true))
    requires w3 == Next(w2, Decide(0, true, true))
    requires w4 == Next(w3, Prepare(0, true, true))
    ensures w4 == InQueue(key, content, a)
  {
    assert w4.writers[a].queue == [Paste(0)];
  }

  /** Why unknown is not failed: the hub may stop between the writing of a
      message and the storing of its receipt. */
  lemma UnknownMayBeDelivered(w4: World, w5: World, w6: World, key: Key, content: Message, a: Name)
    requires w4 == InQueue(key, content, a)
    requires w5 == Next(w4, Perform(a, Succeeds))
    requires w6 == Next(w5, HubDies)
    ensures key in w6.rows && w6.rows[key].status.Unknown? && w6.tasks == map[]
    ensures a in w6.writers && Once(w6.writers[a].log, 0)
  {
    assert w5.writers[a].log == [Pasted(0), Submit(0)];
    assert OnceAt(w5.writers[a].log, 0, 0);
  }

  /** And when all goes well the message is pasted, submitted and acknowledged, and
      its receipt says so. */
  lemma DeliveredIsReached(w4: World, w5: World, w6: World, w7: World, w8: World, key: Key, content: Message, a: Name)
    requires w4 == InQueue(key, content, a)
    requires w5 == Next(w4, Perform(a, Succeeds))
    requires w6 == Next(w5, Answer(0, Delivered))
    requires w7 == Next(w6, Hear(0)) && w8 == Next(w7, Finish(0, true))
    ensures w8.rows == map[key := Row(content, Delivered)] && w8.tasks == map[]
    ensures a in w8.writers && w8.writers[a].log == [Pasted(0), Submit(0)]
  {
    assert w5.writers[a].log == [Pasted(0), Submit(0)] && w5.requests[0].stage == Whole;
    assert w7.tasks[0].phase == Finished(Delivered);
  }
}
