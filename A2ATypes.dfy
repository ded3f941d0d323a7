/** The records of the agent-to-agent protocol that the task manager reads and
    builds (tasks, statuses, messages, parts, artifacts, status-update events,
    requests and responses), as plain values. */
module A2ATypes {
  import opened Wrappers

  /** The lifecycle states the task manager uses: the one a new task starts in
      and the two it finishes with. */
  datatype TaskState = Submitted | Completed | Error

  datatype Role = User | Agent

  /** A unit of message content. Only the text variant carries data here; the
      file and data variants have no `text`. */
  datatype Part = TextPart(text: string) | FilePart | DataPart

  datatype Message = Message(role: Role, parts: seq<Part>)

  datatype Artifact = Artifact(parts: seq<Part>)

  datatype TaskStatus = TaskStatus(state: TaskState, message: Option<Message>)

  datatype Task = Task(id: string, status: TaskStatus, artifacts: seq<Artifact>, history: seq<Message>)

  datatype TaskStatusUpdateEvent = TaskStatusUpdateEvent(id: string, status: TaskStatus, final: bool)

  /** The `params` of a send request: the task id and the user's message. */
  datatype TaskSendParams = TaskSendParams(id: string, message: Message)

  /** A JSON-RPC request id: a number, a string or null. */
  datatype RequestId = IntId(n: int) | StrId(s: string) | NullId

  datatype SendTaskRequest = SendTaskRequest(id: RequestId, params: TaskSendParams)

  datatype SendTaskStreamingRequest = SendTaskStreamingRequest(id: RequestId, params: TaskSendParams)

  datatype SendTaskResponse = SendTaskResponse(id: RequestId, result: Task)

  /** Why a request could not be served: reading `parts[0].text` of the user
      message fails when the message has no parts or its first part is not text. */
  datatype Failure = MalformedMessage
}
