/** The task store (task id to Task) and the event-queue registry (task id to
    the queue of status-update events its consumer reads), as values, with the
    state changes the task manager makes to them. The create-or-fetch,
    consumer set-up and enqueue operations belong to the protocol library's
    in-memory task manager, whose code is not part of this model; they are
    given here as plain stand-ins. */
module Store {
  import opened Wrappers
  import opened A2ATypes
  import opened Responses

  type Tasks = map<string, Task>
  type Queues = map<string, seq<TaskStatusUpdateEvent>>

  /** Every stored task is filed under its own id. */
  ghost predicate TasksWellKeyed(tasks: Tasks) {
    forall k :: k in tasks ==> tasks[k].id == k
  }

  /** Every queued event belongs to the task whose queue holds it. */
  ghost predicate QueuesWellKeyed(queues: Queues) {
    forall k, e :: k in queues && e in queues[k] ==> e.id == k
  }

  /** Stand-in for the library's create-or-fetch: a new `Submitted` task whose
      history is the request's message when the id is unknown, otherwise the
      store as it was. */
  function Upserted(tasks: Tasks, p: TaskSendParams): (r: Tasks)
    ensures p.id in r && r.Keys == tasks.Keys + {p.id}
    ensures forall k :: k in tasks ==> r[k] == tasks[k]
    ensures p.id in tasks ==> r == tasks
    ensures p.id !in tasks ==>
      r[p.id] == Task(p.id, TaskStatus(Submitted, None), [], [p.message])
    ensures TasksWellKeyed(tasks) ==> TasksWellKeyed(r)
  {
    if p.id in tasks then tasks
    else tasks[p.id := Task(p.id, TaskStatus(Submitted, None), [], [p.message])]
  }

  /** Stand-in for the library's consumer set-up: a fresh, empty queue for `id`. */
  function WithFreshQueue(queues: Queues, id: string): (r: Queues)
    ensures r.Keys == queues.Keys + {id} && r[id] == []
    ensures forall k :: k in queues && k != id ==> r[k] == queues[k]
    ensures QueuesWellKeyed(queues) ==> QueuesWellKeyed(r)
  {
    queues[id := []]
  }

  /** Stand-in for the library's enqueue: `e` is appended to the queue of `id`
      when a consumer is registered for it, and dropped otherwise. */
  function Enqueued(queues: Queues, id: string, e: TaskStatusUpdateEvent): (r: Queues)
    ensures r.Keys == queues.Keys
    ensures id in queues ==> r[id] == queues[id] + [e]
    ensures forall k :: k in queues && k != id ==> r[k] == queues[k]
    ensures e.id == id && QueuesWellKeyed(queues) ==> QueuesWellKeyed(r)
  {
    if id in queues then queues[id := queues[id] + [e]] else queues
  }

  /** The terminal write `_update_task` makes to one task: the status becomes
      `state` with an agent message of one text part, and the artifacts become
      one artifact holding that same part. */
  function WithTerminal(t: Task, state: TaskState, text: string): (r: Task)
    ensures FinishedWith(r, state, text)
    ensures r.id == t.id && r.history == t.history
  {
    t.(status := TaskStatus(state, Some(AgentMessage(text))), artifacts := [Artifact(TextParts(text))])
  }

  /** The task is finished with `state`, its agent message reads `text`, and its
      only artifact carries exactly the message's parts. */
  ghost predicate FinishedWith(t: Task, state: TaskState, text: string) {
    && t.status.state == state
    && t.status.message.Some?
    && AgentText(t.status.message.value) == Some(text)
    && |t.artifacts| == 1
    && t.artifacts[0].parts == t.status.message.value.parts
  }

  /** `_update_task` on the store: only the entry for `id` changes, and in it only
      the status and the artifacts. */
  function UpdatedStore(tasks: Tasks, id: string, state: TaskState, text: string): (r: Tasks)
    requires id in tasks
    ensures r.Keys == tasks.Keys
    ensures FinishedWith(r[id], state, text)
    ensures r[id].id == tasks[id].id && r[id].history == tasks[id].history
    ensures forall k :: k in tasks && k != id ==> r[k] == tasks[k]
    ensures TasksWellKeyed(tasks) ==> TasksWellKeyed(r)
  {
    tasks[id := WithTerminal(tasks[id], state, text)]
  }

  /** A second terminal write is not refused: it replaces the first one. */
  lemma UpdateOverwrites(tasks: Tasks, id: string, s1: TaskState, t1: string, s2: TaskState, t2: string)
    requires id in tasks
    ensures UpdatedStore(UpdatedStore(tasks, id, s1, t1), id, s2, t2) == UpdatedStore(tasks, id, s2, t2)
  {
  }

  /** What the detached streaming worker does to the registry for request `p`:
      it enqueues the one event built from the backend's answer to the first
      text part, or nothing when that part cannot be read. */
  function StreamStep(queues: Queues, p: TaskSendParams, query: string -> Option<string>): (r: Queues)
    ensures r.Keys == queues.Keys
    ensures forall k :: k in queues && k != p.id ==> r[k] == queues[k]
    ensures QueuesWellKeyed(queues) ==> QueuesWellKeyed(r)
  {
    var text := FirstText(p.message);
    if text.Some? then Enqueued(queues, p.id, StreamingEvent(p.id, query(text.value))) else queues
  }

  /** The workers of several streaming requests finishing in the given order. */
  function RunWorkers(queues: Queues, ps: seq<TaskSendParams>, query: string -> Option<string>): (r: Queues)
    ensures r.Keys == queues.Keys
    decreases |ps|
  {
    if ps == [] then queues else RunWorkers(StreamStep(queues, ps[0], query), ps[1..], query)
  }

  /** The event, if any, the worker of request `p` produces for task `k`. */
  function EventFor(k: string, p: TaskSendParams, query: string -> Option<string>): seq<TaskStatusUpdateEvent> {
    var text := FirstText(p.message);
    if p.id == k && text.Some? then [StreamingEvent(k, query(text.value))] else []
  }

  lemma StreamStepAt(queues: Queues, p: TaskSendParams, query: string -> Option<string>, k: string)
    requires k in queues
    ensures StreamStep(queues, p, query)[k] == queues[k] + EventFor(k, p, query)
  {
  }

  /** The events the workers of `ps` produce for task `k`, in order. */
  function EventsFor(k: string, ps: seq<TaskSendParams>, query: string -> Option<string>): (r: seq<TaskStatusUpdateEvent>)
    ensures forall e :: e in r ==> e.id == k && e.final
    decreases |ps|
  {
    if ps == [] then [] else EventFor(k, ps[0], query) + EventsFor(k, ps[1..], query)
  }

  /** No cross-task leakage: after any number of workers finish, the consumer of
      task `k` has received exactly the events of the requests for `k`, in the
      order the workers finished, after what it already had. */
  lemma {:induction false} RunWorkersIsolation(queues: Queues, ps: seq<TaskSendParams>, query: string -> Option<string>, k: string)
    requires k in queues
    ensures RunWorkers(queues, ps, query)[k] == queues[k] + EventsFor(k, ps, query)
    decreases |ps|
  {
    if ps != [] {
      var next := StreamStep(queues, ps[0], query);
      StreamStepAt(queues, ps[0], query, k);
      RunWorkersIsolation(next, ps[1..], query, k);
      assert RunWorkers(queues, ps, query) == RunWorkers(next, ps[1..], query);
      assert EventsFor(k, ps, query) == EventFor(k, ps[0], query) + EventsFor(k, ps[1..], query);
      assert queues[k] + EventFor(k, ps[0], query) + EventsFor(k, ps[1..], query)
          == queues[k] + (EventFor(k, ps[0], query) + EventsFor(k, ps[1..], query));
    }
  }

  /** The registry stays well keyed however many workers finish. */
  lemma {:induction false} RunWorkersWellKeyed(queues: Queues, ps: seq<TaskSendParams>, query: string -> Option<string>)
    requires QueuesWellKeyed(queues)
    ensures QueuesWellKeyed(RunWorkers(queues, ps, query))
    decreases |ps|
  {
    if ps != [] {
      RunWorkersWellKeyed(StreamStep(queues, ps[0], query), ps[1..], query);
    }
  }
}
