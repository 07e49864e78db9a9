/** The hub's bookkeeping from its callers' side: what was sent under an id, what was
    heard of it, and what the receipts therefore say. */
module ComposerSends {
  import opened Basics
  import opened ComposerPaste
  import opened Composer

  /** The first accepted send of an id. */
  datatype Sent = Sent(content: Message, attach: Name, canControl: bool)

  /** What the callers know: the sends by id, the submissions under way and what each
      has learnt, and the receipts that were stored. */
  datatype Book = Book(
    sends: map<Key, Sent>,
    under: map<TaskId, Key>,
    learnt: map<TaskId, Status>,
    stored: map<Key, Status>)

  /** The book after a step, read from the step. */
  function Noted(b: Book, w: World, s: Step): Book
    requires Enabled(w, s)
  {
    match s
    case Send(t, key, content, attach, canControl, database) =>
      if Valid(content) && database then Taken(b, t, key, content, attach, canControl) else b
    case Decide(t, supports, connected) =>
      if t in b.under && b.under[t] in b.sends && b.sends[b.under[t]].canControl && supports && connected then b
      else b.(learnt := b.learnt[t := Failed])
    case Hear(t) => b.(learnt := b.learnt[t := w.requests[w.tasks[t].phase.request].reply.value])
    case GiveUp(t) => b.(learnt := b.learnt[t := Unknown])
    case Finish(t, database) =>
      b.(under := b.under - {t}, learnt := b.learnt - {t},
         stored := if database && t in b.under && t in b.learnt
                   then b.stored[b.under[t] := b.learnt[t]] else b.stored)
    case HubDies => b.(under := map[], learnt := map[])
    case _ => b
  }

  /** Only the first send of an id counts. */
  function Taken(b: Book, t: TaskId, key: Key, content: Message, attach: Name, canControl: bool): Book
  {
    if key in b.sends then b
    else b.(sends := b.sends[key := Sent(content, attach, canControl)], under := b.under[t := key])
  }

  function NotedAll(b: Book, w: World, steps: seq<Step>): Book
    requires Possible(w, steps)
    decreases |steps|
  {
    if steps == [] then b else NotedAll(Noted(b, w, steps[0]), Next(w, steps[0]), steps[1..])
  }

  // ----- the hub keeps the book -----

  predicate RowsAgree(rows: map<Key, Row>, b: Book)
  {
    && rows.Keys == b.sends.Keys && b.stored.Keys <= rows.Keys
    && forall key | key in rows ::
         && rows[key].content == b.sends[key].content
         && rows[key].status == if key in b.stored then b.stored[key] else Unknown
  }

  predicate TaskAgrees(task: Task, t: TaskId, b: Book)
  {
    && t in b.under && b.under[t] == task.key && task.key in b.sends
    && task.content == b.sends[task.key].content
    && (task.phase.Reserved? ==> task.phase.attach == b.sends[task.key].attach
                                 && task.phase.canControl == b.sends[task.key].canControl)
    && (t in b.learnt <==> task.phase.Finished?)
    && (task.phase.Finished? ==> task.phase.status == b.learnt[t])
  }

  predicate TasksAgree(tasks: map<TaskId, Task>, b: Book)
  {
    && tasks.Keys == b.under.Keys && b.learnt.Keys <= tasks.Keys
    && forall t | t in tasks :: TaskAgrees(tasks[t], t, b)
  }

  /** Every dispatched message is what was sent under its id, through the same attach,
      by somebody in control. */
  predicate RequestsAgree(requests: seq<Request>, b: Book)
  {
    forall r | 0 <= r < |requests| :: RequestAgrees(requests[r], b)
  }

  predicate RequestAgrees(x: Request, b: Book)
  {
    && x.key in b.sends && x.content == b.sends[x.key].content && x.attach == b.sends[x.key].attach
    && b.sends[x.key].canControl
  }

  predicate Agrees(w: World, b: Book)
  {
    RowsAgree(w.rows, b) && TasksAgree(w.tasks, b) && RequestsAgree(w.requests, b)
  }

  /** The book knows at least what it knew of the sends. */
  predicate Knows(b: Book, c: Book)
  {
    forall key | key in b.sends :: key in c.sends && c.sends[key] == b.sends[key]
  }

  lemma RequestsStay(requests: seq<Request>, after: seq<Request>, b: Book, c: Book)
    requires RequestsAgree(requests, b) && Knows(b, c) && |after| == |requests|
    requires forall r | 0 <= r < |requests| :: SameMessage(requests[r], after[r])
    ensures RequestsAgree(after, c)
  {
    forall r | 0 <= r < |after| ensures RequestAgrees(after[r], c) {
      assert RequestAgrees(requests[r], b);
    }
  }

  predicate SameMessage(x: Request, y: Request)
  {
    y.key == x.key && y.content == x.content && y.attach == x.attach
  }

  lemma TaskStays(task: Task, t: TaskId, b: Book, c: Book)
    requires TaskAgrees(task, t, b) && Knows(b, c) && t in c.under && c.under[t] == b.under[t]
    requires (t in c.learnt <==> t in b.learnt) && (t in b.learnt ==> c.learnt[t] == b.learnt[t])
    ensures TaskAgrees(task, t, c)
  {
  }

  lemma SendAgrees(w: World, b: Book, t: TaskId, key: Key, content: Message, a: Name, control: bool)
    requires Agrees(w, b) && t !in w.tasks
    ensures Agrees(DoSend(w, t, key, content, a, control), Taken(b, t, key, content, a, control))
  {
    if key !in b.sends {
      var c := Taken(b, t, key, content, a, control);
      SendTasks(w, b, c, t, key, content, a, control);
      RequestsStay(w.requests, w.requests, b, c);
      SendRows(w.rows, b, c, key, content);
    }
  }

  lemma SendRows(rows: map<Key, Row>, b: Book, c: Book, key: Key, content: Message)
    requires RowsAgree(rows, b) && key !in b.sends && key in c.sends && c.sends[key].content == content
    requires c.sends.Keys == b.sends.Keys + {key} && Knows(b, c) && c.stored == b.stored
    ensures RowsAgree(rows[key := Row(content, Unknown)], c)
  {
  }

  lemma SendTasks(w: World, b: Book, c: Book, t: TaskId, key: Key, content: Message, a: Name, control: bool)
    requires TasksAgree(w.tasks, b) && t !in w.tasks && key !in b.sends && c == Taken(b, t, key, content, a, control)
    ensures TasksAgree(w.tasks[t := Task(key, content, Reserved(a, control))], c)
  {
    var n := w.tasks[t := Task(key, content, Reserved(a, control))];
    forall u | u in n ensures TaskAgrees(n[u], u, c) {
      if u != t {
        TaskStays(w.tasks[u], u, b, c);
      }
    }
  }

  /** One submission has moved on. */
  lemma TasksMove(tasks: map<TaskId, Task>, t: TaskId, phase: Phase, b: Book, c: Book)
    requires TasksAgree(tasks, b) && t in tasks && c == b.(learnt := c.learnt)
    requires c.learnt == if phase.Finished? then b.learnt[t := phase.status] else b.learnt
    requires !phase.Reserved? && (phase.Waiting? ==> !tasks[t].phase.Finished?)
    ensures TasksAgree(tasks[t := tasks[t].(phase := phase)], c)
  {
    var n := tasks[t := tasks[t].(phase := phase)];
    assert TaskAgrees(tasks[t], t, b);
    forall u | u in n ensures TaskAgrees(n[u], u, c) {
      if u != t {
        TaskStays(tasks[u], u, b, c);
      }
    }
  }

  lemma DecideAgrees(w: World, b: Book, t: TaskId, supports: bool, connected: bool)
    requires Agrees(w, b) && t in w.tasks && w.tasks[t].phase.Reserved?
    ensures Agrees(Next(w, Decide(t, supports, connected)), Noted(b, w, Decide(t, supports, connected)))
  {
    assert TaskAgrees(w.tasks[t], t, b);
    if w.tasks[t].phase.canControl && supports && connected {
      DispatchAgrees(w, b, t);
    } else {
      RefuseAgrees(w, b, t);
    }
  }

  lemma DispatchAgrees(w: World, b: Book, t: TaskId)
    requires Agrees(w, b) && t in w.tasks && w.tasks[t].phase.Reserved? && w.tasks[t].phase.canControl
    ensures Agrees(DoDecide(w, t, true, true), b)
  {
    assert TaskAgrees(w.tasks[t], t, b);
    TasksMove(w.tasks, t, Waiting(|w.requests|), b, b);
    RequestSent(w.requests, Request(w.tasks[t].key, w.tasks[t].content, w.tasks[t].phase.attach, Transit, None), b);
  }

  lemma RefuseAgrees(w: World, b: Book, t: TaskId)
    requires Agrees(w, b) && t in w.tasks && w.tasks[t].phase.Reserved?
    ensures Agrees(SetPhase(w, t, Finished(Failed)), b.(learnt := b.learnt[t := Failed]))
  {
    var c := b.(learnt := b.learnt[t := Failed]);
    TasksMove(w.tasks, t, Finished(Failed), b, c);
    RequestsStay(w.requests, w.requests, b, c);
  }

  lemma RequestSent(requests: seq<Request>, x: Request, b: Book)
    requires RequestsAgree(requests, b) && RequestAgrees(x, b)
    ensures RequestsAgree(requests + [x], b)
  {
  }

  lemma LearnAgrees(w: World, b: Book, t: TaskId, status: Status)
    requires Agrees(w, b) && t in w.tasks && w.tasks[t].phase.Waiting?
    ensures Agrees(SetPhase(w, t, Finished(status)), b.(learnt := b.learnt[t := status]))
  {
    var c := b.(learnt := b.learnt[t := status]);
    TasksMove(w.tasks, t, Finished(status), b, c);
    RequestsStay(w.requests, w.requests, b, c);
  }

  lemma FinishAgrees(w: World, b: Book, t: TaskId, database: bool)
    requires Agrees(w, b) && t in w.tasks && w.tasks[t].phase.Finished?
    ensures Agrees(Next(w, Finish(t, database)), Noted(b, w, Finish(t, database)))
  {
    var c := Noted(b, w, Finish(t, database));
    assert TaskAgrees(w.tasks[t], t, b);
    TasksLess(w.tasks, t, b, c);
    RequestsStay(w.requests, w.requests, b, c);
  }

  lemma TasksLess(tasks: map<TaskId, Task>, t: TaskId, b: Book, c: Book)
    requires TasksAgree(tasks, b) && t in tasks
    requires c == b.(under := b.under - {t}, learnt := b.learnt - {t}, stored := c.stored)
    ensures TasksAgree(tasks - {t}, c)
  {
    forall u | u in tasks - {t} ensures TaskAgrees(tasks[u], u, c) {
      TaskStays(tasks[u], u, b, c);
    }
  }

  /** What happens on the machine changes no message, only how far it has come. */
  lemma MachineOnly(w: World, s: Step)
    requires Enabled(w, s)
    requires s.Prepare? || s.Answer? || s.Open? || s.Type? || s.Perform? || s.Stop?
    ensures var n := Next(w, s);
      && n.rows == w.rows && n.tasks == w.tasks && |n.requests| == |w.requests|
      && forall r | 0 <= r < |w.requests| :: SameMessage(w.requests[r], n.requests[r])
  {
  }

  lemma MachineAgrees(w: World, b: Book, n: World)
    requires Agrees(w, b) && n.rows == w.rows && n.tasks == w.tasks && |n.requests| == |w.requests|
    requires forall r | 0 <= r < |w.requests| :: SameMessage(w.requests[r], n.requests[r])
    ensures Agrees(n, b)
  {
    RequestsStay(w.requests, n.requests, b, b);
  }

  lemma NextAgrees(w: World, b: Book, s: Step)
    requires Agrees(w, b) && Enabled(w, s)
    ensures Agrees(Next(w, s), Noted(b, w, s))
  {
    if s.Prepare? || s.Answer? || s.Open? || s.Type? || s.Perform? || s.Stop? {
      OnMachine(w, b, s);
    } else if s.Send? || s.Decide? || s.HubDies? {
      AtHub(w, b, s);
    } else {
      LaterAgrees(w, b, s);
    }
  }

  lemma AtHub(w: World, b: Book, s: Step)
    requires Agrees(w, b) && Enabled(w, s) && (s.Send? || s.Decide? || s.HubDies?)
    ensures Agrees(Next(w, s), Noted(b, w, s))
  {
    match s
    case Send(t, key, content, a, control, _) => SendAgrees(w, b, t, key, content, a, control);
    case Decide(t, supports, connected) => DecideAgrees(w, b, t, supports, connected);
    case HubDies => DiesAgrees(w, b);
  }

  lemma LaterAgrees(w: World, b: Book, s: Step)
    requires Agrees(w, b) && Enabled(w, s) && (s.Hear? || s.GiveUp? || s.Finish?)
    ensures Agrees(Next(w, s), Noted(b, w, s))
  {
    if s.Finish? {
      FinishAgrees(w, b, s.task, s.database);
    } else {
      LearnAgrees(w, b, s.task, if s.Hear? then w.requests[w.tasks[s.task].phase.request].reply.value else Unknown);
    }
  }

  lemma OnMachine(w: World, b: Book, s: Step)
    requires Agrees(w, b) && Enabled(w, s)
    requires s.Prepare? || s.Answer? || s.Open? || s.Type? || s.Perform? || s.Stop?
    ensures Agrees(Next(w, s), Noted(b, w, s))
  {
    MachineOnly(w, s);
    NothingNoted(b, w, s);
    MachineAgrees(w, b, Next(w, s));
  }

  lemma NothingNoted(b: Book, w: World, s: Step)
    requires Enabled(w, s)
    requires s.Prepare? || s.Answer? || s.Open? || s.Type? || s.Perform? || s.Stop?
    ensures Noted(b, w, s) == b
  {
  }

  lemma DiesAgrees(w: World, b: Book)
    requires Agrees(w, b)
    ensures Agrees(Next(w, HubDies), Noted(b, w, HubDies))
  {
    RequestsStay(w.requests, w.requests, b, Noted(b, w, HubDies));
  }

  lemma {:induction false} RunAgrees(w: World, b: Book, steps: seq<Step>)
    requires Agrees(w, b) && Possible(w, steps)
    ensures Agrees(Run(w, steps), NotedAll(b, w, steps))
    decreases |steps|
  {
    if steps != [] {
      NextAgrees(w, b, steps[0]);
      RunAgrees(Next(w, steps[0]), Noted(b, w, steps[0]), steps[1..]);
    }
  }

  /** Main result: in every run, the ids with a receipt are those of an accepted send;
      every receipt is exactly what its submission had learnt when it was stored, and
      unknown if nothing was; and every message dispatched has the content and the
      attach of the first accepted send of its id, made by somebody in control. */
  lemma ReceiptsSayWhatWasHeard(start: World, steps: seq<Step>, empty: Book)
    requires start == Start() && empty == Book(map[], map[], map[], map[]) && Possible(start, steps)
    ensures Agrees(Run(start, steps), NotedAll(empty, start, steps))
  {
    RunAgrees(start, empty, steps);
  }

  /** A message is dispatched by exactly those decisions that find the sender in
      control, the feature supported and the machine connected. */
  lemma DispatchedExactly(w: World, s: Step)
    requires Enabled(w, s)
    ensures |Next(w, s).requests| > |w.requests| <==>
            s.Decide? && w.tasks[s.task].phase.canControl && s.supports && s.connected
    ensures |Next(w, s).requests| > |w.requests| ==>
              |Next(w, s).requests| == |w.requests| + 1 && w.requests <= Next(w, s).requests
              && Next(w, s).requests[|w.requests|].stage.Transit? && Next(w, s).requests[|w.requests|].reply.None?
  {
  }
}
