/** The protocol records the task manager reads and writes (tasks, messages, events, errors). */
module A2A {
  import opened Wrappers

  type TaskId = string

  datatype TaskState = Submitted | Working | InputRequired | Completed | Canceled | Failed

  datatype Role = UserRole | AgentRole

  /** A content part; only text parts are interpreted, file and data parts are kept opaque. */
  datatype Part = TextPart(text: string) | FilePart | DataPart

  datatype Message = Message(role: Role, parts: seq<Part>)

  datatype TaskStatus = TaskStatus(state: TaskState, message: Option<Message>)

  datatype Artifact = Artifact(parts: seq<Part>, index: int, append: Option<bool>)

  datatype Task = Task(id: TaskId, sessionId: string, status: TaskStatus, artifacts: seq<Artifact>, history: seq<Message>)

  /** A push-notification configuration; an empty `url` is a missing one. */
  datatype PushConfig = PushConfig(url: string, token: Option<string>)

  /** The parameters of a (streaming or unary) send request. */
  datatype SendParams = SendParams(
    id: TaskId,
    sessionId: string,
    message: Message,
    acceptedOutputModes: seq<string>,
    pushNotification: Option<PushConfig>,
    historyLength: Option<int>)

  datatype RpcError = InvalidParams(message: string) | IncompatibleTypes | InternalError(message: string)

  /** An exception that leaves the handler uncaught. */
  datatype Exception = ValueError(message: string) | IndexError

  /** What is put on a task's server-sent-event queue. */
  datatype SseEvent =
    | StatusUpdate(id: TaskId, status: TaskStatus, final: bool)
    | ArtifactUpdate(id: TaskId, artifact: Artifact)
    | StreamError(error: RpcError)

  /** One call to `enqueue_events_for_sse`: the task id and the event. */
  datatype Enqueued = Enqueued(taskId: TaskId, event: SseEvent)

  /** One call to `send_push_notification`: the URL and the task snapshot sent to it. */
  datatype Delivery = Delivery(url: string, task: Task)

  /** The reply to a unary send: a task, an error response, or an exception that escapes the handler. */
  datatype SendResponse = TaskResult(task: Task) | ErrorResponse(error: RpcError) | Uncaught(exception: Exception)

  /** The reply to a streaming send or a resubscription. `from` is the queue position the subscriber starts at. */
  datatype StreamResponse = EventStream(taskId: TaskId, from: nat) | StreamRefused(error: RpcError)
}
