/** Sending a composer message at most once: the hub's durable receipts
    (crates/hub/src/composer.rs), its wait for the machine
    (crates/hub/src/machine_manager.rs, `submit_composer`), the machine's task
    (crates/machine/src/hub_conn.rs, `AttachComposer`) and the attach's writer
    (crates/machine/src/attach.rs). */
module Composer {
  import opened Basics
  import opened ComposerPaste

  type Name = string
  type TaskId = nat

  /** A request to the machine, by its place in the order of dispatch. */
  type RequestId = nat

  /** A send id belongs to one user's view of one terminal. */
  datatype Key = Key(user: Name, machine: Name, terminal: Name, id: string)

  datatype Status = Delivered | Failed | Unknown

  /** A durable receipt. The content stands for its digest, taken as injective. */
  datatype Row = Row(content: Message, status: Status)

  /** Where a submission that reserved its id stands. */
  datatype Phase =
    | Reserved(attach: Name, canControl: bool)
    | Waiting(request: RequestId)
    | Finished(status: Status)

  datatype Task = Task(key: Key, content: Message, phase: Phase)

  /** Where a dispatched message stands on the machine. */
  datatype Stage =
    | Transit       // on its way, or lost
    | Refused       // it never reached a writer
    | Handed        // in a writer's queue, or lost with it
    | Whole         // paste and submit key were written
    | Broken        // a write failed after some of it was written
    | Unwritten     // a write failed before any of it was

  datatype Request = Request(key: Key, content: Message, attach: Name, stage: Stage, reply: Option<Status>)

  datatype Command = Paste(request: RequestId) | Input(data: string)

  /** What a pty has been given. */
  datatype Mark = Pasted(request: RequestId) | Part(request: RequestId) | Submit(request: RequestId) | Typed(data: string)

  /** An attach's writer thread. */
  datatype Writer = Writer(alive: bool, queue: seq<Command>, log: seq<Mark>)

  datatype World = World(
    rows: map<Key, Row>,              // durable
    tasks: map<TaskId, Task>,         // in the hub's memory
    requests: seq<Request>,           // every message ever dispatched
    writers: map<Name, Writer>)       // every attach ever opened

  function Start(): World
  {
    World(map[], map[], [], map[])
  }

  // ----- the hub -----

  datatype Reservation = Fresh | Existing(status: Status) | Refusal

  /** INSERT OR IGNORE, then a look at what is there. */
  function Reserve(rows: map<Key, Row>, key: Key, content: Message): (map<Key, Row>, Reservation)
  {
    if key !in rows then (rows[key := Row(content, Unknown)], Fresh)
    else if rows[key].content == content then (rows, Existing(rows[key].status))
    else (rows, Refusal)
  }

  function Store(rows: map<Key, Row>, key: Key, status: Status): map<Key, Row>
  {
    if key in rows then rows[key := rows[key].(status := status)] else rows
  }

  /** How a write to the pty goes; a submit key can fail on its
      own, even after it was written. */
  datatype Write = Fails(partly: bool) | SubmitFails(partly: bool) | Succeeds

  datatype Step =
    | Send(task: TaskId, key: Key, content: Message, attach: Name, canControl: bool, database: bool)
    | Decide(task: TaskId, supports: bool, connected: bool)
    | Hear(task: TaskId)
    | GiveUp(task: TaskId)
    | Finish(task: TaskId, database: bool)
    | HubDies
    | Prepare(request: RequestId, prepared: bool, found: bool)
    | Answer(request: RequestId, status: Status)
    | Open(attach: Name)
    | Type(attach: Name, data: string)
    | Perform(attach: Name, outcome: Write)
    | Stop(attach: Name)

  predicate HeadIsPaste(w: World, attach: Name)
  {
    attach in w.writers && w.writers[attach].queue != [] && w.writers[attach].queue[0].Paste?
  }

  predicate Enabled(w: World, s: Step)
  {
    match s
    case Send(t, key, content, _, _, _) => t !in w.tasks && key.id == content.id
    case Decide(t, _, _) => t in w.tasks && w.tasks[t].phase.Reserved?
    case Hear(t) =>
      && t in w.tasks && w.tasks[t].phase.Waiting? && w.tasks[t].phase.request < |w.requests|
      && w.requests[w.tasks[t].phase.request].reply.Some?
    case GiveUp(t) => t in w.tasks && w.tasks[t].phase.Waiting?
    case Finish(t, _) => t in w.tasks && w.tasks[t].phase.Finished?
    case HubDies => true
    case Prepare(r, _, _) => r < |w.requests| && w.requests[r].stage.Transit?
    case Answer(r, status) =>
      && r < |w.requests| && w.requests[r].reply.None? && Justified(w.requests[r].stage, status)
    case Open(a) => a !in w.writers
    case Type(a, _) => a in w.writers && w.writers[a].alive
    case Perform(a, _) => a in w.writers && w.writers[a].alive && w.writers[a].queue != []
    case Stop(a) => a in w.writers
  }

  /** What the machine's task may answer: delivered on the writer's word, failed
      when nothing was handed to it, and unknown once it was (the acknowledgement
      was negative, dropped, or late). */
  predicate Justified(stage: Stage, status: Status)
  {
    match status
    case Delivered => stage.Whole?
    case Failed => stage.Refused?
    case Unknown => stage.Handed? || stage.Whole? || stage.Broken? || stage.Unwritten?
  }

  function DoSend(w: World, t: TaskId, key: Key, content: Message, attach: Name, canControl: bool): World
  {
    var (rows, reservation) := Reserve(w.rows, key, content);
    if reservation.Fresh? then
      w.(rows := rows, tasks := w.tasks[t := Task(key, content, Reserved(attach, canControl))])
    else w
  }

  function SetPhase(w: World, t: TaskId, phase: Phase): World
    requires t in w.tasks
  {
    w.(tasks := w.tasks[t := w.tasks[t].(phase := phase)])
  }

  function DoDecide(w: World, t: TaskId, supports: bool, connected: bool): World
    requires t in w.tasks && w.tasks[t].phase.Reserved?
  {
    var task := w.tasks[t];
    if !task.phase.canControl || !supports || !connected then SetPhase(w, t, Finished(Failed))
    else
      SetPhase(w, t, Waiting(|w.requests|)).(
        requests := w.requests + [Request(task.key, task.content, task.phase.attach, Transit, None)])
  }

  // ----- the machine -----

  function SetStage(w: World, r: RequestId, stage: Stage): World
    requires r < |w.requests|
  {
    w.(requests := w.requests[r := w.requests[r].(stage := stage)])
  }

  function DoPrepare(w: World, r: RequestId, prepared: bool, found: bool): World
    requires r < |w.requests|
  {
    var a := w.requests[r].attach;
    if prepared && found && a in w.writers && w.writers[a].alive then
      SetStage(w, r, Handed).(writers := w.writers[a := Queued(w.writers[a], Paste(r))])
    else SetStage(w, r, Refused)
  }

  function Queued(writer: Writer, c: Command): Writer
  {
    writer.(queue := writer.queue + [c])
  }

  /** The writer takes its next command. After a failed write it stops for good. */
  function Performed(writer: Writer, outcome: Write): Writer
    requires writer.queue != []
  {
    var rest := writer.(queue := writer.queue[1..]);
    match writer.queue[0]
    case Input(data) =>
      if outcome.Succeeds? then rest.(log := writer.log + [Typed(data)])
      else Writer(false, [], writer.log + if outcome == Fails(true) then [Typed(data)] else [])
    case Paste(r) =>
      if outcome.Succeeds? then rest.(log := writer.log + Written(r, outcome))
      else Writer(false, [], writer.log + Written(r, outcome))
  }

  /** What a message leaves in the pty. */
  function Written(r: RequestId, outcome: Write): seq<Mark>
  {
    match outcome
    case Succeeds => [Pasted(r), Submit(r)]
    case SubmitFails(partly) => [Pasted(r)] + if partly then [Submit(r)] else []
    case Fails(partly) => if partly then [Part(r)] else []
  }

  function StageAfter(r: RequestId, outcome: Write): Stage
  {
    if outcome.Succeeds? then Whole else if Written(r, outcome) == [] then Unwritten else Broken
  }

  function DoPerform(w: World, a: Name, outcome: Write): World
    requires a in w.writers && w.writers[a].queue != []
  {
    var n := w.(writers := w.writers[a := Performed(w.writers[a], outcome)]);
    match w.writers[a].queue[0]
    case Input(_) => n
    case Paste(r) =>
      if r < |w.requests| then SetStage(n, r, StageAfter(r, outcome)) else n
  }

  function Next(w: World, s: Step): World
    requires Enabled(w, s)
  {
    match s
    case Send(t, key, content, attach, canControl, database) =>
      if Valid(content) && database then DoSend(w, t, key, content, attach, canControl) else w
    case Decide(t, supports, connected) => DoDecide(w, t, supports, connected)
    case Hear(t) => SetPhase(w, t, Finished(w.requests[w.tasks[t].phase.request].reply.value))
    case GiveUp(t) => SetPhase(w, t, Finished(Unknown))
    case Finish(t, database) =>
      w.(rows := if database then Store(w.rows, w.tasks[t].key, w.tasks[t].phase.status) else w.rows,
         tasks := w.tasks - {t})
    case HubDies => w.(tasks := map[])
    case Prepare(r, prepared, found) => DoPrepare(w, r, prepared, found)
    case Answer(r, status) => w.(requests := w.requests[r := w.requests[r].(reply := Some(status))])
    case Open(a) => w.(writers := w.writers[a := Writer(true, [], [])])
    case Type(a, data) => w.(writers := w.writers[a := Queued(w.writers[a], Input(data))])
    case Perform(a, outcome) => DoPerform(w, a, outcome)
    case Stop(a) => w.(writers := w.writers[a := w.writers[a].(alive := false, queue := [])])
  }

  predicate Possible(w: World, steps: seq<Step>)
    decreases |steps|
  {
    steps == [] || (Enabled(w, steps[0]) && Possible(Next(w, steps[0]), steps[1..]))
  }

  function Run(w: World, steps: seq<Step>): World
    requires Possible(w, steps)
    decreases |steps|
  {
    if steps == [] then w else Run(Next(w, steps[0]), steps[1..])
  }
}
