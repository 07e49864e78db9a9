/** What retries, timeouts, crashes and failing writes cannot break about
    composer messages. */
module ComposerRuns {
  import opened Basics
  import opened ComposerPaste
  import opened Composer

  // ----- what a receipt claims -----

  predicate KeyDelivered(requests: seq<Request>, key: Key)
  {
    exists r | 0 <= r < |requests| :: requests[r].key == key && requests[r].stage.Whole?
  }

  predicate KeyRefused(requests: seq<Request>, key: Key)
  {
    forall r | 0 <= r < |requests| :: requests[r].key == key ==> requests[r].stage.Refused?
  }

  predicate KeyUnsent(requests: seq<Request>, key: Key)
  {
    forall r | 0 <= r < |requests| :: requests[r].key != key
  }

  predicate Upheld(requests: seq<Request>, key: Key, status: Status)
  {
    match status
    case Delivered => KeyDelivered(requests, key)
    case Failed => KeyRefused(requests, key)
    case Unknown => true
  }

  // ----- the hub's half of the invariant -----

  predicate RowsValid(rows: map<Key, Row>, requests: seq<Request>)
  {
    forall key | key in rows :: Upheld(requests, key, rows[key].status)
  }

  predicate TaskValid(rows: map<Key, Row>, requests: seq<Request>, task: Task)
  {
    && task.key in rows && rows[task.key].content == task.content && rows[task.key].status.Unknown? && task.key.id == task.content.id
    && (task.phase.Reserved? ==> KeyUnsent(requests, task.key))
    && (task.phase.Waiting? ==> task.phase.request < |requests| && requests[task.phase.request].key == task.key)
    && (task.phase.Finished? ==> Upheld(requests, task.key, task.phase.status))
  }

  predicate TasksValid(rows: map<Key, Row>, tasks: map<TaskId, Task>, requests: seq<Request>)
  {
    && (forall t | t in tasks :: TaskValid(rows, requests, tasks[t]))
    && (forall t, u | t in tasks && u in tasks && tasks[t].key == tasks[u].key :: t == u)
  }

  predicate RequestsValid(rows: map<Key, Row>, requests: seq<Request>)
  {
    && (forall r | 0 <= r < |requests| ::
          && requests[r].key in rows && rows[requests[r].key].content == requests[r].content
          && (requests[r].reply == Some(Delivered) ==> requests[r].stage.Whole?)
          && (requests[r].reply == Some(Failed) ==> requests[r].stage.Refused?))
    && (forall q, r | 0 <= q < r < |requests| :: requests[q].key != requests[r].key)
  }

  predicate HubValid(w: World)
  {
    RowsValid(w.rows, w.requests) && TasksValid(w.rows, w.tasks, w.requests) && RequestsValid(w.rows, w.requests)
  }

  /** What the machine may do to requests: outcomes are final. */
  predicate Advance(a: seq<Request>, b: seq<Request>)
  {
    && |a| == |b|
    && forall r | 0 <= r < |a| ::
         && b[r].key == a[r].key && b[r].content == a[r].content && b[r].attach == a[r].attach
         && (a[r].stage.Whole? || a[r].stage.Refused? ==> b[r].stage == a[r].stage)
         && (b[r].reply == a[r].reply || (a[r].reply.None? && b[r].reply.Some? && Justified(b[r].stage, b[r].reply.value)))
  }

  lemma UpheldAdvance(a: seq<Request>, b: seq<Request>, key: Key, status: Status)
    requires Advance(a, b) && Upheld(a, key, status)
    ensures Upheld(b, key, status)
  {
    if status.Delivered? {
      var r :| 0 <= r < |a| && a[r].key == key && a[r].stage.Whole?;
      assert b[r].key == key && b[r].stage.Whole?;
    }
  }

  lemma TaskAdvance(rows: map<Key, Row>, a: seq<Request>, b: seq<Request>, t: Task)
    requires Advance(a, b) && TaskValid(rows, a, t)
    ensures TaskValid(rows, b, t)
  {
    if t.phase.Finished? {
      UpheldAdvance(a, b, t.key, t.phase.status);
    }
  }

  lemma AdvanceValid(w: World, n: World)
    requires HubValid(w) && Advance(w.requests, n.requests) && n.rows == w.rows && n.tasks == w.tasks
    ensures HubValid(n)
  {
    forall key | key in n.rows ensures Upheld(n.requests, key, n.rows[key].status) {
      UpheldAdvance(w.requests, n.requests, key, n.rows[key].status);
    }
    forall t | t in n.tasks ensures TaskValid(n.rows, n.requests, n.tasks[t]) {
      TaskAdvance(n.rows, w.requests, n.requests, n.tasks[t]);
    }
  }

  // ----- the hub's steps -----

  lemma SendValid(w: World, t: TaskId, key: Key, content: Message, attach: Name, canControl: bool)
    requires HubValid(w) && t !in w.tasks && key.id == content.id
    ensures HubValid(DoSend(w, t, key, content, attach, canControl))
  {
    var n := DoSend(w, t, key, content, attach, canControl);
    if key !in w.rows {
      assert KeyUnsent(w.requests, key);
      forall u | u in n.tasks ensures TaskValid(n.rows, n.requests, n.tasks[u]) {
        if u != t {
          assert TaskValid(w.rows, w.requests, w.tasks[u]);
        }
      }
    }
  }

  /** Changing one task's phase to a valid one. */
  lemma PhaseValid(w: World, t: TaskId, phase: Phase)
    requires HubValid(w) && t in w.tasks && TaskValid(w.rows, w.requests, w.tasks[t].(phase := phase))
    ensures HubValid(SetPhase(w, t, phase))
  {
    var n := SetPhase(w, t, phase);
    forall u | u in n.tasks ensures TaskValid(n.rows, n.requests, n.tasks[u]) {
      if u != t {
        assert n.tasks[u] == w.tasks[u];
      }
    }
  }

  /** One request more, of a key that had none. */
  lemma UpheldPush(requests: seq<Request>, x: Request, key: Key, status: Status)
    requires Upheld(requests, key, status) && (x.key != key || status.Unknown?)
    ensures Upheld(requests + [x], key, status)
  {
    if status.Delivered? {
      var r :| 0 <= r < |requests| && requests[r].key == key && requests[r].stage.Whole?;
      assert (requests + [x])[r] == requests[r];
    }
  }

  lemma TaskPush(rows: map<Key, Row>, requests: seq<Request>, x: Request, t: Task)
    requires TaskValid(rows, requests, t) && x.key != t.key
    ensures TaskValid(rows, requests + [x], t)
  {
    if t.phase.Finished? {
      UpheldPush(requests, x, t.key, t.phase.status);
    }
  }

  lemma DispatchValid(w: World, t: TaskId)
    requires HubValid(w) && t in w.tasks && w.tasks[t].phase.Reserved?
    ensures HubValid(DoDecide(w, t, true, true))
  {
    var task := w.tasks[t];
    assert TaskValid(w.rows, w.requests, task);
    if task.phase.canControl {
      var x := Request(task.key, task.content, task.phase.attach, Transit, None);
      var n := DoDecide(w, t, true, true);
      assert n.requests == w.requests + [x];
      forall u | u in n.tasks ensures TaskValid(n.rows, n.requests, n.tasks[u]) {
        if u != t {
          assert TaskValid(w.rows, w.requests, w.tasks[u]) && w.tasks[u].key != task.key;
          TaskPush(w.rows, w.requests, x, w.tasks[u]);
        }
      }
      forall key | key in n.rows ensures Upheld(n.requests, key, n.rows[key].status) {
        UpheldPush(w.requests, x, key, w.rows[key].status);
      }
    } else {
      PhaseValid(w, t, Finished(Failed));
    }
  }

  lemma DecideValid(w: World, t: TaskId, supports: bool, connected: bool)
    requires HubValid(w) && t in w.tasks && w.tasks[t].phase.Reserved?
    ensures HubValid(DoDecide(w, t, supports, connected))
  {
    assert TaskValid(w.rows, w.requests, w.tasks[t]);
    if w.tasks[t].phase.canControl && supports && connected {
      DispatchValid(w, t);
    } else {
      PhaseValid(w, t, Finished(Failed));
    }
  }

  /** A request's reply is what its key may claim: it has no other request. */
  lemma ReplyUpheld(w: World, r: RequestId)
    requires RequestsValid(w.rows, w.requests) && r < |w.requests| && w.requests[r].reply.Some?
    ensures Upheld(w.requests, w.requests[r].key, w.requests[r].reply.value)
  {
  }

  lemma HearValid(w: World, s: Step)
    requires HubValid(w) && Enabled(w, s) && s.Hear?
    ensures HubValid(Next(w, s))
  {
    var r := w.tasks[s.task].phase.request;
    assert TaskValid(w.rows, w.requests, w.tasks[s.task]);
    ReplyUpheld(w, r);
    PhaseValid(w, s.task, Finished(w.requests[r].reply.value));
  }

  lemma GiveUpValid(w: World, s: Step)
    requires HubValid(w) && Enabled(w, s) && s.GiveUp?
    ensures HubValid(Next(w, s))
  {
    assert TaskValid(w.rows, w.requests, w.tasks[s.task]);
    PhaseValid(w, s.task, Finished(Unknown));
  }

  lemma FinishValid(w: World, s: Step)
    requires HubValid(w) && Enabled(w, s) && s.Finish?
    ensures HubValid(Next(w, s))
  {
    var n := Next(w, s);
    assert TaskValid(w.rows, w.requests, w.tasks[s.task]);
    forall u | u in n.tasks ensures TaskValid(n.rows, n.requests, n.tasks[u]) {
      assert TaskValid(w.rows, w.requests, w.tasks[u]) && w.tasks[u].key != w.tasks[s.task].key;
    }
  }

  lemma AnswerValid(w: World, s: Step)
    requires HubValid(w) && Enabled(w, s) && s.Answer?
    ensures HubValid(Next(w, s))
  {
    AdvanceValid(w, Next(w, s));
  }

  // ----- the machine's half of the invariant -----

  function Of(m: Mark): Option<RequestId>
  {
    match m
    case Pasted(r) => Some(r)
    case Part(r) => Some(r)
    case Submit(r) => Some(r)
    case Typed(_) => None
  }

  predicate OnceAt(log: seq<Mark>, r: RequestId, i: nat)
  {
    && i + 1 < |log| && log[i] == Pasted(r) && log[i + 1] == Submit(r)
    && forall j | 0 <= j < |log| && Of(log[j]) == Some(r) :: j == i || j == i + 1
  }

  /** Paste and submit key, once, with nothing between them. */
  ghost predicate Once(log: seq<Mark>, r: RequestId)
  {
    exists i :: OnceAt(log, r, i)
  }

  /** At most that. */
  predicate AtMostOnce(log: seq<Mark>)
  {
    forall i, j | 0 <= i < j < |log| && Of(log[i]).Some? && Of(log[i]) == Of(log[j]) ::
      j == i + 1 && log[i].Pasted? && log[j].Submit?
  }

  predicate QueueValid(requests: seq<Request>, a: Name, queue: seq<Command>)
  {
    && (forall i | 0 <= i < |queue| && queue[i].Paste? ::
          && queue[i].request < |requests|
          && requests[queue[i].request].attach == a && requests[queue[i].request].stage.Handed?)
    && (forall i, j | 0 <= i < j < |queue| && queue[i].Paste? && queue[j].Paste? :: queue[i].request != queue[j].request)
  }

  predicate LogValid(requests: seq<Request>, a: Name, log: seq<Mark>)
  {
    && AtMostOnce(log)
    && forall i | 0 <= i < |log| && Of(log[i]).Some? ::
         && Of(log[i]).value < |requests| && requests[Of(log[i]).value].attach == a
         && Wrote(requests[Of(log[i]).value].stage)
  }

  predicate WriterValid(requests: seq<Request>, a: Name, writer: Writer)
  {
    QueueValid(requests, a, writer.queue) && LogValid(requests, a, writer.log)
  }

  predicate Marked(log: seq<Mark>, r: RequestId)
  {
    exists i | 0 <= i < |log| :: Of(log[i]) == Some(r)
  }

  /** Has anything of it been written? */
  predicate Wrote(stage: Stage)
  {
    stage.Whole? || stage.Broken?
  }

  ghost predicate Shown(log: seq<Mark>, r: RequestId, stage: Stage)
  {
    (stage.Whole? ==> Once(log, r)) && (stage.Broken? ==> Marked(log, r))
  }

  /** A request that is whole was written whole, a broken one in part. */
  ghost predicate WholeValid(requests: seq<Request>, writers: map<Name, Writer>)
  {
    forall r | 0 <= r < |requests| && Wrote(requests[r].stage) ::
      requests[r].attach in writers && Shown(writers[requests[r].attach].log, r, requests[r].stage)
  }

  ghost predicate MachineValid(w: World)
  {
    && (forall a | a in w.writers :: WriterValid(w.requests, a, w.writers[a]))
    && WholeValid(w.requests, w.writers)
  }

  /** Only request r changed, and only its stage. */
  predicate Restaged(a: seq<Request>, b: seq<Request>, r: RequestId)
  {
    && |b| == |a| && r < |a| && b[r].attach == a[r].attach
    && forall q | 0 <= q < |a| && q != r :: b[q] == a[q]
  }

  lemma PushPaste(requests: seq<Request>, after: seq<Request>, r: RequestId, a: Name, queue: seq<Command>)
    requires Restaged(requests, after, r) && requests[r].stage.Transit? && after[r].stage.Handed?
    requires requests[r].attach == a && QueueValid(requests, a, queue)
    ensures QueueValid(after, a, queue + [Paste(r)])
  {
  }

  /** Staging one request leaves the writers that have nothing to do with it. */
  lemma OtherWriter(requests: seq<Request>, after: seq<Request>, r: RequestId, a: Name, writer: Writer)
    requires Restaged(requests, after, r) && WriterValid(requests, a, writer)
    requires requests[r].stage.Transit? || requests[r].attach != a
    ensures WriterValid(after, a, writer)
  {
  }

  lemma PrepareMachine(w: World, r: RequestId, prepared: bool, found: bool)
    requires MachineValid(w) && r < |w.requests| && w.requests[r].stage.Transit?
    ensures MachineValid(DoPrepare(w, r, prepared, found))
  {
    var n := DoPrepare(w, r, prepared, found);
    var a := w.requests[r].attach;
    assert Restaged(w.requests, n.requests, r);
    forall b | b in n.writers ensures WriterValid(n.requests, b, n.writers[b]) {
      OtherWriter(w.requests, n.requests, r, b, w.writers[b]);
      if b == a && n.requests[r].stage.Handed? {
        PushPaste(w.requests, n.requests, r, a, w.writers[a].queue);
      }
    }
    assert WholeValid(n.requests, n.writers);
  }

  lemma OncePush(log: seq<Mark>, more: seq<Mark>, r: RequestId)
    requires Once(log, r) && forall m | m in more :: Of(m) != Some(r)
    ensures Once(log + more, r)
  {
    var i: nat :| OnceAt(log, r, i);
    assert forall j | 0 <= j < |log + more| && Of((log + more)[j]) == Some(r) :: j < |log|;
    assert OnceAt(log + more, r, i);
  }

  lemma ShownPush(log: seq<Mark>, more: seq<Mark>, r: RequestId, stage: Stage)
    requires Shown(log, r, stage) && forall m | m in more :: Of(m) != Some(r)
    ensures Shown(log + more, r, stage)
  {
    if stage.Whole? {
      OncePush(log, more, r);
    } else if stage.Broken? {
      var i :| 0 <= i < |log| && Of(log[i]) == Some(r);
      assert (log + more)[i] == log[i];
    }
  }

  /** What a writer may put into its log for request r. */
  predicate Attempt(more: seq<Mark>, r: RequestId)
  {
    more == [Pasted(r), Submit(r)] || more == [Pasted(r)] || more == [Part(r)] || more == []
  }

  lemma AttemptShown(log: seq<Mark>, r: RequestId, outcome: Write)
    requires forall i | 0 <= i < |log| :: Of(log[i]) != Some(r)
    ensures Shown(log + Written(r, outcome), r, StageAfter(r, outcome))
  {
    var all := log + Written(r, outcome);
    if outcome.Succeeds? {
      assert OnceAt(all, r, |log|);
    } else if Written(r, outcome) != [] {
      assert Of(all[|log|]) == Some(r);
    }
  }

  lemma AttemptMarks(log: seq<Mark>, more: seq<Mark>, r: RequestId)
    requires AtMostOnce(log) && Attempt(more, r) && forall i | 0 <= i < |log| :: Of(log[i]) != Some(r)
    ensures AtMostOnce(log + more)
  {
    var all := log + more;
    forall i, j | 0 <= i < j < |all| && Of(all[i]).Some? && Of(all[i]) == Of(all[j])
      ensures j == i + 1 && all[i].Pasted? && all[j].Submit?
    {
      if j < |log| {
        assert all[i] == log[i] && all[j] == log[j];
      }
    }
  }

  lemma AttemptLog(requests: seq<Request>, after: seq<Request>, r: RequestId, a: Name, log: seq<Mark>, more: seq<Mark>)
    requires Restaged(requests, after, r) && requests[r].stage.Handed? && requests[r].attach == a
    requires more != [] ==> Wrote(after[r].stage)
    requires LogValid(requests, a, log) && Attempt(more, r)
    ensures LogValid(after, a, log + more)
    ensures forall i | 0 <= i < |log| :: Of(log[i]) != Some(r)
  {
    AttemptMarks(log, more, r);
    var all := log + more;
    forall i | 0 <= i < |all| && Of(all[i]).Some?
      ensures Of(all[i]).value < |after| && after[Of(all[i]).value].attach == a
      ensures Wrote(after[Of(all[i]).value].stage)
    {
      if i < |log| {
        assert all[i] == log[i];
      }
    }
  }

  /** The first command is out; its request is not queued again. */
  lemma PoppedQueue(requests: seq<Request>, after: seq<Request>, r: RequestId, a: Name, queue: seq<Command>)
    requires Restaged(requests, after, r) && queue != [] && queue[0] == Paste(r) && QueueValid(requests, a, queue)
    ensures QueueValid(after, a, queue[1..])
  {
    assert forall i | 0 <= i < |queue| - 1 :: queue[1..][i] == queue[i + 1];
  }

  lemma PerformPasteWriters(w: World, a: Name, outcome: Write)
    requires MachineValid(w) && HeadIsPaste(w, a)
    ensures var n := DoPerform(w, a, outcome);
      forall b | b in n.writers :: WriterValid(n.requests, b, n.writers[b])
  {
    var n := DoPerform(w, a, outcome);
    var writer := w.writers[a];
    var r := writer.queue[0].request;
    assert WriterValid(w.requests, a, writer);
    assert Restaged(w.requests, n.requests, r);
    forall b | b in n.writers ensures WriterValid(n.requests, b, n.writers[b]) {
      if b != a {
        OtherWriter(w.requests, n.requests, r, b, w.writers[b]);
      } else {
        AttemptLog(w.requests, n.requests, r, a, writer.log, Written(r, outcome));
        PoppedQueue(w.requests, n.requests, r, a, writer.queue);
      }
    }
  }

  lemma PerformPasteWhole(w: World, a: Name, outcome: Write)
    requires MachineValid(w) && HeadIsPaste(w, a)
    ensures var n := DoPerform(w, a, outcome); WholeValid(n.requests, n.writers)
  {
    var n := DoPerform(w, a, outcome);
    var writer := w.writers[a];
    var r := writer.queue[0].request;
    assert WriterValid(w.requests, a, writer);
    assert Restaged(w.requests, n.requests, r);
    forall q | 0 <= q < |n.requests| && Wrote(n.requests[q].stage)
      ensures n.requests[q].attach in n.writers && Shown(n.writers[n.requests[q].attach].log, q, n.requests[q].stage)
    {
      if q == r {
        AttemptShown(writer.log, r, outcome);
      } else if w.requests[q].attach == a {
        ShownPush(writer.log, Written(r, outcome), q, w.requests[q].stage);
      }
    }
  }

  /** A writer that gets a foreign mark and loses part of its queue stays valid. */
  lemma PerformInputMachine(w: World, a: Name, outcome: Write)
    requires MachineValid(w) && a in w.writers && w.writers[a].queue != [] && w.writers[a].queue[0].Input?
    ensures MachineValid(DoPerform(w, a, outcome))
  {
    var n := DoPerform(w, a, outcome);
    var writer := w.writers[a];
    var more := n.writers[a].log[|writer.log|..];
    assert n.writers[a].log == writer.log + more;
    assert forall m | m in more :: Of(m) == None;
    assert forall i | 0 <= i < |writer.queue| - 1 :: writer.queue[1..][i] == writer.queue[i + 1];
    assert WriterValid(w.requests, a, writer);
    TypedLog(w.requests, a, writer.log, more);
    forall r | 0 <= r < |n.requests| && Wrote(n.requests[r].stage)
      ensures n.requests[r].attach in n.writers && Shown(n.writers[n.requests[r].attach].log, r, n.requests[r].stage)
    {
      if n.requests[r].attach == a {
        ShownPush(writer.log, more, r, n.requests[r].stage);
      }
    }
  }

  lemma TypedLog(requests: seq<Request>, a: Name, log: seq<Mark>, more: seq<Mark>)
    requires LogValid(requests, a, log) && forall m | m in more :: Of(m) == None
    ensures LogValid(requests, a, log + more)
  {
    var all := log + more;
    assert forall i | 0 <= i < |all| && Of(all[i]).Some? :: i < |log| && all[i] == log[i];
    forall i, j | 0 <= i < j < |all| && Of(all[i]).Some? && Of(all[i]) == Of(all[j])
      ensures j == i + 1 && all[i].Pasted? && all[j].Submit?
    {
      assert all[i] == log[i] && all[j] == log[j];
    }
  }

  lemma PerformMachine(w: World, a: Name, outcome: Write)
    requires MachineValid(w) && a in w.writers && w.writers[a].queue != []
    ensures MachineValid(DoPerform(w, a, outcome))
  {
    if w.writers[a].queue[0].Paste? {
      assert WriterValid(w.requests, a, w.writers[a]);
      PerformPasteWriters(w, a, outcome);
      PerformPasteWhole(w, a, outcome);
    } else {
      PerformInputMachine(w, a, outcome);
    }
  }

  /** A new request has nothing to do with any writer yet. */
  lemma DispatchMachine(w: World, t: TaskId, supports: bool, connected: bool)
    requires MachineValid(w) && t in w.tasks && w.tasks[t].phase.Reserved?
    ensures MachineValid(DoDecide(w, t, supports, connected))
  {
    var n := DoDecide(w, t, supports, connected);
    assert w.requests <= n.requests;
    forall a | a in n.writers ensures WriterValid(n.requests, a, n.writers[a]) {
      assert WriterValid(w.requests, a, w.writers[a]);
    }
  }

  lemma AnswerMachine(w: World, s: Step)
    requires MachineValid(w) && Enabled(w, s) && s.Answer?
    ensures MachineValid(Next(w, s))
  {
    var n := Next(w, s);
    assert Restaged(w.requests, n.requests, s.request) && n.requests[s.request].stage == w.requests[s.request].stage;
    forall a | a in n.writers ensures WriterValid(n.requests, a, n.writers[a]) {
      assert WriterValid(w.requests, a, w.writers[a]);
    }
  }

  lemma WriterStepMachine(w: World, s: Step)
    requires MachineValid(w) && Enabled(w, s) && (s.Open? || s.Type? || s.Stop?)
    ensures MachineValid(Next(w, s))
  {
    var n := Next(w, s);
    assert n.requests == w.requests;
    forall a | a in n.writers ensures WriterValid(n.requests, a, n.writers[a]) {
      if a in w.writers {
        assert WriterValid(w.requests, a, w.writers[a]);
      }
    }
  }

  lemma NextMachine(w: World, s: Step)
    requires MachineValid(w) && Enabled(w, s)
    ensures MachineValid(Next(w, s))
  {
    match s
    case Decide(t, supports, connected) => DispatchMachine(w, t, supports, connected);
    case Prepare(r, prepared, found) => PrepareMachine(w, r, prepared, found);
    case Answer(r, status) => AnswerMachine(w, s);
    case Open(a) => WriterStepMachine(w, s);
    case Type(a, data) => WriterStepMachine(w, s);
    case Perform(a, outcome) => PerformMachine(w, a, outcome);
    case Stop(a) => WriterStepMachine(w, s);
    case _ => HubOnly(w, s);
  }

  lemma HubOnly(w: World, s: Step)
    requires Enabled(w, s) && (s.Send? || s.Hear? || s.GiveUp? || s.Finish? || s.HubDies?)
    ensures Next(w, s).requests == w.requests && Next(w, s).writers == w.writers
  {
  }

  // ----- every run -----

  lemma StageHub(w: World, n: World, r: RequestId)
    requires HubValid(w) && r < |w.requests| && !w.requests[r].stage.Whole? && !w.requests[r].stage.Refused?
    requires |n.requests| == |w.requests|
    requires n.requests == SetStage(w, r, n.requests[r].stage).requests && n.rows == w.rows && n.tasks == w.tasks
    ensures HubValid(n)
  {
    AdvanceValid(w, n);
  }

  lemma MachineStepHub(w: World, s: Step)
    requires HubValid(w) && MachineValid(w) && Enabled(w, s)
    requires s.Prepare? || s.Perform? || s.Open? || s.Type? || s.Stop?
    ensures HubValid(Next(w, s))
  {
    var n := Next(w, s);
    if s.Prepare? {
      StageHub(w, n, s.request);
    } else if s.Perform? && w.writers[s.attach].queue[0].Paste? {
      assert WriterValid(w.requests, s.attach, w.writers[s.attach]);
      StageHub(w, n, w.writers[s.attach].queue[0].request);
    }
  }

  lemma NextHub(w: World, s: Step)
    requires HubValid(w) && MachineValid(w) && Enabled(w, s)
    ensures HubValid(Next(w, s))
  {
    match s
    case Send(t, key, content, attach, canControl, _) => SendValid(w, t, key, content, attach, canControl);
    case Decide(t, supports, connected) => DecideValid(w, t, supports, connected);
    case Hear(_) => HearValid(w, s);
    case GiveUp(_) => GiveUpValid(w, s);
    case Finish(_, _) => FinishValid(w, s);
    case Answer(_, _) => AnswerValid(w, s);
    case HubDies =>
    case _ => MachineStepHub(w, s);
  }

  lemma {:induction false} RunValid(w: World, steps: seq<Step>)
    requires HubValid(w) && MachineValid(w) && Possible(w, steps)
    ensures HubValid(Run(w, steps)) && MachineValid(Run(w, steps))
    decreases |steps|
  {
    if steps != [] {
      NextHub(w, steps[0]);
      NextMachine(w, steps[0]);
      RunValid(Next(w, steps[0]), steps[1..]);
    }
  }

  /** Position i of an attach's pty is a mark of request r. */
  predicate Writes(w: World, a: Name, i: nat, r: RequestId)
  {
    a in w.writers && i < |w.writers[a].log| && Of(w.writers[a].log[i]) == Some(r)
  }

  /** The marks a key's requests left anywhere. */
  predicate Touched(w: World, a: Name, i: nat, key: Key)
  {
    && a in w.writers && i < |w.writers[a].log| && Of(w.writers[a].log[i]).Some?
    && Of(w.writers[a].log[i]).value < |w.requests| && w.requests[Of(w.writers[a].log[i]).value].key == key
  }

  /** Main result: over all retries, concurrent sends, timeouts, crashes and
      failing writes a message is dispatched at most once and with the content
      its id was first used for, and reaches a pty at most once, and no pty but that
      of the attach it was sent through; a receipt that
      says delivered means that it was pasted and submitted, with nothing in
      between, on the attach it was sent through; one that says failed that no
      byte of it was ever written. */
  lemma AtMostOnceDelivery(w: World, start: World, steps: seq<Step>)
    requires start == Start() && Possible(start, steps) && w == Run(start, steps)
    ensures forall q, r | 0 <= q < r < |w.requests| :: w.requests[q].key != w.requests[r].key
    ensures forall r | 0 <= r < |w.requests| ::
              w.requests[r].key in w.rows && w.rows[w.requests[r].key].content == w.requests[r].content
    ensures forall a | a in w.writers :: AtMostOnce(w.writers[a].log)
    ensures forall a: Name, i: nat, r: RequestId | Writes(w, a, i, r) :: r < |w.requests| && w.requests[r].attach == a
    ensures forall a: Name, i: nat, key: Key | Touched(w, a, i, key) :: key in w.rows && !w.rows[key].status.Failed?
    ensures forall key | key in w.rows && w.rows[key].status.Delivered? ::
              exists r :: 0 <= r < |w.requests| && w.requests[r].key == key && w.requests[r].attach in w.writers
                          && Once(w.writers[w.requests[r].attach].log, r)
  {
    RunValid(start, steps);
    forall a | a in w.writers ensures AtMostOnce(w.writers[a].log) {
      assert WriterValid(w.requests, a, w.writers[a]);
    }
    forall a: Name, i: nat, r: RequestId | Writes(w, a, i, r)
      ensures r < |w.requests| && w.requests[r].attach == a
    {
      assert WriterValid(w.requests, a, w.writers[a]);
    }
    forall a: Name, i: nat, key: Key | Touched(w, a, i, key) ensures key in w.rows && !w.rows[key].status.Failed? {
      var r := Of(w.writers[a].log[i]).value;
      assert WriterValid(w.requests, a, w.writers[a]);
      assert Upheld(w.requests, key, w.rows[key].status);
    }
    forall key | key in w.rows && w.rows[key].status.Delivered?
      ensures exists r :: 0 <= r < |w.requests| && w.requests[r].key == key && w.requests[r].attach in w.writers
                          && Once(w.writers[w.requests[r].attach].log, r)
    {
      assert Upheld(w.requests, key, w.rows[key].status);
      var r :| 0 <= r < |w.requests| && w.requests[r].key == key && w.requests[r].stage.Whole?;
      assert Once(w.writers[w.requests[r].attach].log, r);
    }
  }

  // ----- receipts are final -----

  predicate Keeps(rows: map<Key, Row>, later: map<Key, Row>, key: Key)
    requires key in rows
  {
    && key in later && later[key].content == rows[key].content
    && (!rows[key].status.Unknown? ==> later[key] == rows[key])
  }

  lemma FinishKeepsReceipts(w: World, s: Step, key: Key)
    requires HubValid(w) && Enabled(w, s) && s.Finish? && key in w.rows
    ensures Keeps(w.rows, Next(w, s).rows, key)
  {
    assert TaskValid(w.rows, w.requests, w.tasks[s.task]);
  }

  lemma NextKeepsReceipts(w: World, s: Step, key: Key)
    requires HubValid(w) && Enabled(w, s) && key in w.rows
    ensures Keeps(w.rows, Next(w, s).rows, key)
  {
    if s.Finish? {
      FinishKeepsReceipts(w, s, key);
    } else if s.Send? {
      assert Keeps(w.rows, Reserve(w.rows, s.key, s.content).0, key);
    } else {
      assert Next(w, s).rows == w.rows;
    }
  }

  /** A receipt that says anything but unknown never changes. */
  lemma {:induction false} ReceiptsAreFinal(w: World, steps: seq<Step>, key: Key)
    requires HubValid(w) && MachineValid(w) && Possible(w, steps) && key in w.rows
    ensures key in Run(w, steps).rows && Run(w, steps).rows[key].content == w.rows[key].content
    ensures !w.rows[key].status.Unknown? ==> Run(w, steps).rows[key] == w.rows[key]
    decreases |steps|
  {
    if steps != [] {
      NextHub(w, steps[0]);
      NextMachine(w, steps[0]);
      NextKeepsReceipts(w, steps[0], key);
      ReceiptsAreFinal(Next(w, steps[0]), steps[1..], key);
    }
  }

  /** A send of a known id dispatches nothing, whatever its content. */
  lemma KnownIdsAreNotResent(w: World, s: Step)
    requires Enabled(w, s) && s.Send?
    ensures s.key in w.rows ==> Next(w, s) == w
    ensures Next(w, s).tasks != w.tasks <==> s.key !in w.rows && s.database && Valid(s.content)
  {
  }
}
