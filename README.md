# Ollama agent task manager, in Dafny

This project models the task manager of a small agent-to-agent (A2A) server that
answers user queries with a local Ollama language model. The manager keeps an
in-memory store of tasks keyed by task id and, for streaming clients, one queue
of status-update events per task. It serves two kinds of request:

- **send** (`on_send_task`): create or fetch the task, ask the backend once with
  the first text part of the user's message, and finish the task as `Completed`.
  The reply text is `"Ollama says: " + answer`, or `"Failed to get response from
  Ollama."` when the backend gave `None` or the empty string.
- **send and subscribe** (`on_send_task_subscribe` with its worker
  `_handle_streaming`): create or fetch the task, give the subscriber a fresh
  queue, and let a worker ask the backend once and enqueue exactly one final
  event: `Completed` with `"Ollama streaming: " + answer`, or `Error` with
  `"Ollama streaming failed."`. The worker does not write the task store.

Both paths finish through `_update_task` (send) or one enqueued event (stream).
`_update_task` overwrites the stored task's status with an agent message of one
text part, and its artifacts with one artifact that holds that same part.

Files:

- `Wrappers.dfy`: `Option` and `Result`.
- `A2ATypes.dfy`: the protocol records (task, status, message, part, artifact,
  status-update event, requests, response) as datatypes.
- `Responses.dfy`: the pure part. It reads the query out of a message, applies
  Python truthiness to the answer, and builds the reply text and the streaming
  event. Inverse parsers read the answer back, and round-trip lemmas connect the two.
- `Store.dfy`: the task store and queue registry as maps. It holds stand-ins for
  the library's create-or-fetch, consumer set-up and enqueue. It also holds the
  terminal update and the worker's step as functions on those maps, plus lemmas
  about any sequence of finished workers.
- `TaskManager.dfy`: the class `MyAgentTaskManager`. Its `map` fields are updated
  by methods that mirror the source, and each method is specified by the
  functions in `Store.dfy`.

Behaviours a reader might expect that the code does not have:

- A second terminal write is not refused. `_update_task` simply replaces status
  and artifacts (`Store.UpdateOverwrites`).
- A backend failure finishes the send path as `Completed` (carrying the failure
  text) but the streaming path as `Error`.
- The streaming path never records a terminal state in the task store. The task
  stays as create-or-fetch left it.
- A message without a readable first text part makes the code raise. The send
  path raises after the task was created. The streaming worker dies before it
  enqueues, so the subscriber gets no final event.

## Model

| member | source | states |
|---|---|---|
| Responses.Answered | src/my_project/task_manager.py:29 | the truthiness test of lines 29 and 58: the backend answered exactly when it returned a string that is not empty; a definition without a contract of its own, used by the contracts below |
| Responses.ResponseText | src/my_project/task_manager.py:29-32 | the send reply template, `"Ollama says: "` followed by the answer, or the fixed failure text; a definition without a contract of its own, whose contract is `Responses.ResponseTextRoundTrip` and `Responses.ParseResponseSound` |
| Responses.StreamingText | src/my_project/task_manager.py:58-67 | the streaming text template of lines 59 and 67, `"Ollama streaming: "` followed by the answer, or the fixed failure text; a definition without a contract of its own, whose contract is `Responses.StreamingEventRoundTrip` |
| Responses.FirstText | src/my_project/task_manager.py:27 | the query is present exactly when the message has a first part and it is a text part, and then it is that part's text |
| Responses.ResponseTextRoundTrip | src/my_project/task_manager.py:29-32 | the answer can be read back from the send reply text exactly when the backend returned a non-empty string; `None` and `""` both give the failure text, from which nothing is read back |
| Responses.ParseResponseSound | src/my_project/task_manager.py:29-32 | every text from which an answer is read back is the send reply text of that answer (the converse direction) |
| Responses.StreamingEvent | src/my_project/task_manager.py:58-71 | the streaming event is final, carries the task's id, is `Completed` exactly when the backend answered (else `Error`), and its message is an agent message of one text part |
| Responses.StreamingEventRoundTrip | src/my_project/task_manager.py:58-68 | the answer can be read back from the streaming event exactly when the backend returned a non-empty string, and then it is that string |
| Responses.SendAndStreamAgree | src/my_project/task_manager.py:28-68 | both paths carry the same answer; the streaming event is `Error` exactly when the send reply is the failure text |
| Store.Upserted | src/my_project/task_manager.py:25 | create-or-fetch stand-in: the id is stored afterwards and every task stored before is left as it is; a new task has the requested id, is `Submitted` with no status message, has no artifacts, and its history is the request's message; tasks stay filed under their own ids |
| Store.WithFreshQueue | src/my_project/task_manager.py:46 | consumer set-up stand-in: the task gets an empty queue and every other queue is unchanged |
| Store.Enqueued | src/my_project/task_manager.py:65 | enqueue stand-in: the event is appended to the task's queue when one is registered; no other queue changes and no queue is added |
| Store.WithTerminal | src/my_project/task_manager.py:81-85 | the written task has the given state, an agent message of one text part equal to the text, and one artifact holding exactly that part; its id and history are kept |
| Store.UpdatedStore | src/my_project/task_manager.py:80-86 | after the terminal update the task has the given state and an agent message of one text part equal to the text; its only artifact holds exactly that part; its id and history and all other tasks are unchanged |
| Store.UpdateOverwrites | src/my_project/task_manager.py:82-85 | a second terminal update of the same task is not refused: the result is as if only the second had happened |
| Store.StreamStep | src/my_project/task_manager.py:54-72 | the worker changes at most the queue of its own task, adds no queue, and keeps every queued event in the queue of the task it names |
| Store.RunWorkers | src/my_project/task_manager.py:47 | the detached workers of several streaming requests finishing one after another; the registry's set of task ids never changes |
| Store.RunWorkersIsolation | src/my_project/task_manager.py:62-72 | after any sequence of workers finishes, each task's queue holds exactly its earlier events followed by the events of the requests for that task, in order |
| Store.RunWorkersWellKeyed | src/my_project/task_manager.py:62-72 | after any sequence of workers, no queue holds an event of another task |
| TaskManager.MyAgentTaskManager.constructor | src/my_project/task_manager.py:20-22 | the manager starts with no tasks and no queues and keeps the given backend function |
| TaskManager.MyAgentTaskManager.UpsertTask | src/my_project/task_manager.py:25 | the store becomes the create-or-fetch of the request and the returned task is the stored one |
| TaskManager.MyAgentTaskManager.SetupSseConsumer | src/my_project/task_manager.py:46 | the registry gains a fresh empty queue for the task; the store is unchanged |
| TaskManager.MyAgentTaskManager.EnqueueEventsForSse | src/my_project/task_manager.py:65 | the registry becomes the enqueue of the event; the store is unchanged |
| TaskManager.MyAgentTaskManager.UpdateTask | src/my_project/task_manager.py:74-86 | for a stored id, the store becomes the terminal update; the returned task is the stored entry, finished with the state and text; its id and history are kept |
| TaskManager.MyAgentTaskManager.OnSendTask | src/my_project/task_manager.py:24-38 | the task is created or fetched, then finished `Completed` with the reply text for the backend's answer to the first text part; the response has the request's id and the stored task; an unreadable message fails with the task created; queues are unchanged |
| TaskManager.MyAgentTaskManager.HandleStreaming | src/my_project/task_manager.py:54-72 | the store is unchanged; exactly the streaming event for the backend's answer is appended to the task's queue and no other queue changes; an unreadable message enqueues nothing |
| TaskManager.MyAgentTaskManager.OnSendTaskSubscribe | src/my_project/task_manager.py:40-52 | the task is created or fetched and its queue then holds exactly one event, the final streaming event, or none for an unreadable message |

## Left out

- `src/my_project/__init__.py` is not part of this model. Its `query_ollama` (an HTTP POST with JSON decoding) is the backend function the manager is built with. Here that function is the total function `query: string -> Option<string>`. Its `main` is command-line options, agent metadata and server start-up.
- The library's in-memory task manager (create-or-fetch, consumer set-up, enqueue, dequeue) is not visible. It is replaced by the stand-ins in `Store.dfy`, and nothing is proved about it beyond what those stand-ins define. The create-or-fetch stand-in only inserts when the id is absent, so it is idempotent on the store. The library is understood to append the message to an existing task's history, and that append is not modelled.
- Only one consumer queue per task is modelled. A second subscription to the same task replaces the queue in the model.
- The detached worker (`asyncio.create_task`): in `OnSendTaskSubscribe` the worker runs to completion straight after consumer set-up. Interleavings with other requests are not modelled. `Store.RunWorkers` only covers workers finishing one after another, in some order.
- Server-sent-event delivery (`dequeue_events_for_sse`, lines 48-52) is transport. The subscriber's stream is the content of its queue.
- "The backend is called exactly once" is not stated. The backend is a pure function here, so the number of calls cannot be seen.
- Task objects are values. The aliasing between the returned task and the stored one (the same Python object) is shown only as equality at return.
- The raised exceptions (`IndexError` or `AttributeError` on `parts[0].text`) become `Err(MalformedMessage)` in the send path. In the streaming path they stop the worker silently. How the server turns an exception into a JSON-RPC error is not modelled.
- The protocol records keep only the fields this code reads or writes. The library's types are not among the files of this model. If they follow the usual A2A type definitions, `TaskStatus` also carries a timestamp taken from the clock, renewed by each write at lines 82-84, and `Task` and `Artifact` carry session ids, names, indices and metadata; none of these is modelled.
- Request and response wrapping beyond `id`, `params` and `result`, serialisation, logging and session ids are not modelled.
- TaskState lists only the states this manager uses: `Submitted` for a new task, and `Completed` and `Error`, which it writes.
- The library's `TaskState` enumeration is not among the files of this model. That it has an `ERROR` member (task_manager.py:68) is an assumption. Protocol type definitions that name the failure state `FAILED` instead would make line 68 raise `AttributeError`, and the failure branch would then enqueue nothing. The model assumes line 68 succeeds.
- `query` is one fixed function. Equal prompts therefore get equal answers, across calls and across both paths. A real language-model backend does not promise that. The event contents stated by `Store.RunWorkersIsolation` and the agreement in `Responses.SendAndStreamAgree` rest on it.
