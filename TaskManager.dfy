/** The agent's task manager: a store of tasks and a registry of per-task event
    queues, with the synchronous send operation, the streaming worker and the
    terminal update both of them rely on. The backend query is a function the
    manager is built with. */
module TaskManager {
  import opened Wrappers
  import opened A2ATypes
  import opened Responses
  import opened Store

  class MyAgentTaskManager {
    var tasks: Tasks
    var queues: Queues
    /** The language-model backend: the answer for a prompt, or `None` on failure. */
    const query: string -> Option<string>

    ghost predicate Valid()
      reads this
    {
      TasksWellKeyed(tasks) && QueuesWellKeyed(queues)
    }

    constructor (query: string -> Option<string>)
      ensures Valid()
      ensures tasks == map[] && queues == map[] && this.query == query
    {
      this.query := query;
      tasks := map[];
      queues := map[];
    }

    /** Library stand-in: create the task for `p.id` if it is not stored yet. */
    method UpsertTask(p: TaskSendParams) returns (t: Task)
      requires Valid()
      modifies this
      ensures Valid()
      ensures tasks == Upserted(old(tasks), p) && queues == old(queues)
      ensures t == tasks[p.id]
    {
      tasks := Upserted(tasks, p);
      t := tasks[p.id];
    }

    /** Library stand-in: register a consumer for `taskId` with a fresh, empty queue. */
    method SetupSseConsumer(taskId: string)
      requires Valid()
      modifies this
      ensures Valid()
      ensures queues == WithFreshQueue(old(queues), taskId) && tasks == old(tasks)
    {
      queues := WithFreshQueue(queues, taskId);
    }

    /** Library stand-in: hand `e` to the consumer of `taskId`, if there is one.
        `HandleStreaming`, the only caller, passes an event it has just built for `taskId`. */
    method EnqueueEventsForSse(taskId: string, e: TaskStatusUpdateEvent)
      requires Valid() && e.id == taskId
      modifies this
      ensures Valid()
      ensures queues == Enqueued(old(queues), taskId, e) && tasks == old(tasks)
    {
      queues := Enqueued(queues, taskId, e);
    }

    /** Finish the stored task `taskId` with `state`, answering `text`: the status
        and the artifacts are replaced, whatever they were before. */
    method UpdateTask(taskId: string, state: TaskState, text: string) returns (t: Task)
      requires Valid() && taskId in tasks
      modifies this
      ensures Valid()
      ensures tasks == UpdatedStore(old(tasks), taskId, state, text) && queues == old(queues)
      ensures t == tasks[taskId] && FinishedWith(t, state, text)
      ensures t.id == old(tasks[taskId].id) && t.history == old(tasks[taskId].history)
    {
      var task := tasks[taskId];
      var parts := TextParts(text);
      task := task.(status := TaskStatus(state, Some(Message(Agent, parts))));
      task := task.(artifacts := [Artifact(parts)]);
      tasks := tasks[taskId := task];
      t := task;
    }

    /** The synchronous path: create or fetch the task, ask the backend once with
        the first text part, and finish the task as `Completed` with the answer
        or with the failure text. A message whose first part cannot be read
        fails after the task was created. */
    method OnSendTask(request: SendTaskRequest) returns (res: Result<SendTaskResponse, Failure>)
      requires Valid()
      modifies this
      ensures Valid() && queues == old(queues)
      ensures FirstText(request.params.message).None? ==>
        res == Err(MalformedMessage) && tasks == Upserted(old(tasks), request.params)
      ensures FirstText(request.params.message).Some? ==>
        var text := ResponseText(query(FirstText(request.params.message).value));
        && tasks == UpdatedStore(Upserted(old(tasks), request.params), request.params.id, Completed, text)
        && res == Ok(SendTaskResponse(request.id, tasks[request.params.id]))
      ensures res.Ok? ==>
        && res.value.id == request.id
        && res.value.result.id == request.params.id
        && res.value.result.status.state == Completed
    {
      var _ := UpsertTask(request.params);
      var taskId := request.params.id;
      var userQuery := FirstText(request.params.message);
      if userQuery.None? {
        return Err(MalformedMessage);
      }
      var llmResponse := query(userQuery.value);
      var responseText: string;
      if llmResponse.Some? && llmResponse.value != "" {
        responseText := SaysPrefix + llmResponse.value;
      } else {
        responseText := SendFailureText;
      }
      var task := UpdateTask(taskId, Completed, responseText);
      return Ok(SendTaskResponse(request.id, task));
    }

    /** The streaming worker: ask the backend once with the first text part and
        enqueue exactly one final event for the task, `Completed` with the answer
        or `Error` with the failure text. The task store is not touched. A message
        whose first part cannot be read stops the worker before it enqueues. */
    method HandleStreaming(request: SendTaskStreamingRequest)
      requires Valid()
      modifies this
      ensures Valid() && tasks == old(tasks)
      ensures queues == StreamStep(old(queues), request.params, query)
      ensures FirstText(request.params.message).Some? && request.params.id in old(queues) ==>
        queues[request.params.id] == old(queues[request.params.id])
          + [StreamingEvent(request.params.id, query(FirstText(request.params.message).value))]
    {
      var taskId := request.params.id;
      var userQuery := FirstText(request.params.message);
      if userQuery.None? {
        return;
      }
      var llmResponse := query(userQuery.value);
      if llmResponse.Some? && llmResponse.value != "" {
        var message := AgentMessage(StreamingPrefix + llmResponse.value);
        var taskStatus := TaskStatus(Completed, Some(message));
        var taskUpdateEvent := TaskStatusUpdateEvent(taskId, taskStatus, true);
        EnqueueEventsForSse(taskId, taskUpdateEvent);
      } else {
        var errorMessage := AgentMessage(StreamingFailureText);
        var taskStatus := TaskStatus(Error, Some(errorMessage));
        var taskUpdateEvent := TaskStatusUpdateEvent(taskId, taskStatus, true);
        EnqueueEventsForSse(taskId, taskUpdateEvent);
      }
    }

    /** The subscribing path: create or fetch the task, give its consumer a fresh
        queue, and run the streaming worker (here to completion, before anything
        else happens). The consumer's queue then holds exactly one event, which
        is final, or none when the message cannot be read. */
    method OnSendTaskSubscribe(request: SendTaskStreamingRequest)
      requires Valid()
      modifies this
      ensures Valid()
      ensures tasks == Upserted(old(tasks), request.params)
      ensures queues == StreamStep(WithFreshQueue(old(queues), request.params.id), request.params, query)
      ensures FirstText(request.params.message).None? ==> queues[request.params.id] == []
      ensures FirstText(request.params.message).Some? ==>
        queues[request.params.id] == [StreamingEvent(request.params.id, query(FirstText(request.params.message).value))]
    {
      var taskId := request.params.id;
      var _ := UpsertTask(request.params);
      SetupSseConsumer(taskId);
      HandleStreaming(request);
    }
  }
}
