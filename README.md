# Currency agent task manager: a Dafny model

This project models the task-lifecycle core of a Semantic Kernel currency agent that is served over the A2A protocol. A client sends a task: a task id, a session id, a message and the output modes it accepts. The agent answers the task either in one reply or as a stream of status and artifact events. The client may also register a webhook, which is notified of each task change once its URL has passed an ownership challenge.

The model covers two classes.

- **`AgentTaskManager`** (`sk/task_manager.py`) is a Dafny class. Its state is:
  - the task store (`tasks`);
  - the verified push configurations (`pushConfigs`);
  - the set of task ids that have a server-sent-event channel (`channels`);
  - the log of every enqueued event (`events`);
  - the log of every push notification sent (`sent`).

  Its handlers are methods. Each handler's contract gives the complete new state as a case analysis over its inputs.
- **`CurrencyAgent`** (`sk/agent.py`) is a Dafny class holding the per-session chat memory `conversations`. Its `invoke` and `stream` are methods.

The pure decisions are functions, and lemmas prove the task lifecycle's properties about them:
- request validation;
- query extraction;
- the mapping from an agent result to a store write;
- the mapping from a streamed item to a status, a message, an artifact and a `final` flag;
- the events and notifications of a whole streaming run;
- the phrase check that decides whether an answer needs more input.

External collaborators are parameters:
- the language model is `llm: seq<ChatMessage> -> LlmReply`, which maps the history it is shown to an answer or a failure text;
- the URL ownership challenge is `verify: string -> bool`;
- the output-mode compatibility check is `compatible: (seq<string>, seq<string>) -> bool`.

Files, one module each:
- `wrappers.dfy`: `Option` and `Result`.
- `text.dfy`: ASCII lower-casing. It also holds a substring scan, proved equal to a reference definition.
- `agent.dfy`: the `Agent` module.
- `a2a_types.dfy`: the protocol records.
- `task_store.dfy`: the store operations inherited from the in-memory base class.
- `task_logic.dfy`: the pure parts of the task manager.
- `task_manager.dfy`: the `AgentTaskManager` class.

The base class `InMemoryTaskManager` (`common/server/task_manager.py`) is not part of this model. Its operations are modelled from the behaviour the core relies on:

| operation | modelled behaviour |
|---|---|
| `upsert_task` | Creates a task that is SUBMITTED, has no artifacts, and has the sent message as its history. A task that already exists is left unchanged. |
| `update_store` | Replaces the status. Appends the status message, if any, to the history. Appends the given artifacts. |
| `append_task_history` | Keeps the last `historyLength` entries when that length is positive. Otherwise keeps the whole history. |
| `setup_sse_consumer` | A resubscription fails unless the task id already has a channel. |
| `enqueue_events_for_sse` | Appends to one ordered log. A subscriber's stream starts at the log position recorded when it subscribed. |
| `set_push_notification_info` (the base-class call at `sk/task_manager.py:346`) | Stores the configuration under the task id, replacing any earlier one. This works for any id, including one not yet in the store; that matters because the unary path registers before it upserts. |
| `has_push_notification_info` / `get_push_notification_info` | Report whether a configuration is stored for the id, and return the stored one. |
| resubscription error text | `setup_sse_consumer` with `resubscribe=True` and no channel raises `ValueError("Task not found for resubscription")`. |

Where the code departs from the intended task lifecycle, the model follows the code:
- **Unary send order.** `on_send_task` registers the push configuration before it upserts the task, so a refused registration leaves the store untouched. The streaming handler upserts first.
- **Unsupported first content part.** It raises `ValueError` ("Only text parts are supported"), and a message with no parts raises `IndexError`. In the unary path the exception leaves `on_send_task` (`Uncaught`), after the task has already been set to WORKING.
- **Streaming query extraction.** It happens before the `try` of `_run_streaming_agent` (line 171). A non-text first part therefore ends the background run with no event at all, not with an error event. `RunStreamingAgent` states this.
- **Failed resubscription.** It is reported as an `InternalError` ("An error occurred while reconnecting to stream: ..."), not as not-found.
- **Resend on a finished task.** A new send on any existing task, a COMPLETED one included, sets it back to WORKING. The code does not restrict state changes to INPUT_REQUIRED → WORKING.
- **History of a COMPLETED answer.** The answer is stored as an artifact, not in the history. Only an INPUT_REQUIRED answer adds the agent's message to the history.

## Model

| member | source | states |
|---|---|---|
| `Text.ContainsIff` | sk/agent.py:152-160 | The left-to-right scan behind Python's `phrase in s` succeeds exactly when the phrase occurs at some position of the string. |
| `Text.ContainsAnyIff` | sk/agent.py:152-160 | `any(...)` over the phrase list holds exactly when some listed phrase occurs somewhere in the string. |
| `Text.LowerIdempotent` | sk/agent.py:153 | Lower-casing an already lower-cased string changes nothing. |
| `Agent.RequireUserInputIff` | sk/agent.py:152-171 | `require_user_input` is true iff "which currency", "what currency", "specify" or "need more information" occurs in the lower-cased answer. `is_task_complete` is its negation, and `content` is the answer. |
| `Agent.ClassifyIgnoresCase` | sk/agent.py:152-160 | Both flags are the same for an answer and for its lower-cased form. |
| `Agent.AskingForCurrencyNeedsInput` | sk/agent.py:152-165 | Every answer that starts with "Which currency" is classified as needing user input. |
| `Agent.SessionCreatedOrReused` | sk/agent.py:128-131 | After `invoke`, the session exists. An unseen session gets a fresh history that starts with the system instruction. A known session keeps its old history as a prefix. |
| `Agent.AnsweredTurn` | sk/agent.py:147-149 | An answered turn extends that session's history by exactly the user query and then the assistant answer. Every other session is unchanged. |
| `Agent.InvokeKeepsConversationsWellFormed` | sk/agent.py:128-149 | `invoke` keeps every history well formed: the system instruction first, then alternating user and assistant messages. |
| `Agent.PromptAsWrittenOmitsQuery` | sk/agent.py:141-149 | As written, the last message of the history shown to the model is never a user message, so the model does not see the query it answers. |
| `Agent.FirstQueryIsNotShown` | sk/agent.py:128-145 | As written, for any session not yet in the table, the model is shown the system instruction alone and never the query. |
| `Agent.PromptEndsWithQuery` | sk/agent.py:141-149 | In the corrected form, the model is shown the session history followed by the query. The stored turn is that prompt plus the answer. |
| `Agent.StreamShape` | sk/agent.py:186-203 | A successful stream yields exactly three items: two fixed progress items with both flags false, then `invoke`'s result. If `invoke` raises, the stream yields the first item and then raises. |
| `Agent.CurrencyAgent.constructor` | sk/agent.py:114-115 | The conversation memory starts empty, so every session history is well formed: the system instruction first, then alternating user and assistant messages. |
| `Agent.CurrencyAgent.Invoke` | sk/agent.py:117-171 | The new conversation table is the one-turn update of the old one, and the result is the classification of the model's answer. A failure raises with the model's error text, and the session stays created. Well-formed session histories stay well formed. The model is shown the corrected prompt (see "## Findings"). |
| `Agent.CurrencyAgent.Stream` | sk/agent.py:173-203 | `stream` calls `invoke` exactly once: the conversation table changes by exactly one turn. It yields the fixed item sequence around that call. Well-formed session histories stay well formed. |
| `TaskStore.Upsert` | sk/task_manager.py:101 | For a new id it creates a task with that id and session, status SUBMITTED without a message, no artifacts, and the sent message as its only history entry. It returns the store unchanged for a known id. Every other id is untouched. |
| `TaskStore.UpsertIdempotent` | sk/task_manager.py:140 | A second upsert on the same id changes nothing, so there is one record per id. |
| `TaskStore.UpdatedExtends` | sk/task_manager.py:195-199 | A store update keeps the task's id and session and sets the given status. It keeps the old artifacts and history as prefixes, appends exactly the given artifacts, and appends exactly the status message when there is one. |
| `TaskStore.AppendTaskHistory` | sk/task_manager.py:258 | The returned task differs only in its history. With a positive length, the history is the last min(n, history length) entries in their original order. Otherwise the history is complete. |
| `TaskStore.AppendTaskHistoryIdempotent` | sk/task_manager.py:258 | Truncating twice to the same length equals truncating once. |
| `TaskStore.LastTwoOfFive` | sk/task_manager.py:258 | With a limit of 2, five history entries come back as exactly the last two, in order. |
| `TaskLogic.ValidateRequest` | sk/task_manager.py:54-80 | Returns no error iff the output modes are compatible and no push configuration has an empty URL. Incompatible modes give the incompatible-types error first. Otherwise a missing URL gives InvalidParams "Push notification URL is missing". |
| `TaskLogic.GetUserQuery` | sk/task_manager.py:266-281 | Succeeds iff the first part exists and is a text part, and then returns its text. No part raises `IndexError`. A non-text first part raises `ValueError("Only text parts are supported")`. |
| `TaskLogic.UnaryOutcome` | sk/task_manager.py:239-257 | A result needing input gives INPUT_REQUIRED with the agent message (added to the history) and no artifact. Otherwise it gives COMPLETED with no message and exactly one new artifact holding the content. |
| `TaskLogic.UnaryStateByPhrase` | sk/task_manager.py:246-253 | For the currency agent, a unary answer ends INPUT_REQUIRED exactly when it contains one of the four phrases, and COMPLETED otherwise. |
| `TaskLogic.StepOf` | sk/task_manager.py:175-194 | `require_user_input` takes precedence. Neither flag gives WORKING, an agent message and final=false. Needing input gives INPUT_REQUIRED, a message and final=true. Otherwise the step is COMPLETED with one artifact (index 0, append false), no message and final=true. |
| `TaskLogic.Notifications` | sk/task_manager.py:283-302 | At most one delivery. There is one iff auth exists and a configuration is stored for the task, and it goes to the stored URL with the task. |
| `TaskLogic.StreamNotificationsPerItem` | sk/task_manager.py:194-203 | With auth and a stored configuration, a streaming run makes exactly one delivery per item, in order, to the stored URL, carrying the task as stored after that item. Without auth or a configuration it makes none. |
| `TaskLogic.StreamStatuses` | sk/task_manager.py:213-218 | Proved by induction over the items: the statuses of a run's status events, in order, are exactly its items' step statuses. |
| `TaskLogic.OneStatusEventPerItem` | sk/task_manager.py:213-218 | A streaming run enqueues exactly one status event per item, carrying that item's status. |
| `TaskLogic.StatusEventsFollowStore` | sk/task_manager.py:194-218 | The k-th status event carries the status held in the store after the k-th item. |
| `TaskLogic.ArtifactPrecedesCompletion` | sk/task_manager.py:205-218 | Every artifact event is immediately followed by its step's COMPLETED, final status event. |
| `TaskLogic.EventsCarryTaskId` | sk/task_manager.py:205-218 | Every event of a run is enqueued for, and tagged with, the run's task id. |
| `TaskLogic.LastEventMatchesStore` | sk/task_manager.py:194-218 | The last event of a non-empty run is the status event with the status last written to the store. |
| `TaskLogic.ItemsEnqueueNoError` | sk/task_manager.py:174-218 | Processing the streamed items never enqueues an error event. |
| `TaskLogic.RaisedRunEndsWithOneError` | sk/task_manager.py:220-225 | A stream that raises enqueues exactly one InternalError event, as its last event. |
| `TaskLogic.NoEarlyTerminal` | sk/task_manager.py:182-184 | Items with neither flag set enqueue no event that ends a subscriber's stream. |
| `TaskLogic.CurrencyStreamEndsOnce` | sk/task_manager.py:174-225 | With the currency agent's stream, the last event of the run ends the stream, either as a final status or as an error, and no earlier event does. |
| `TaskLogic.AfterStepsStatus` | sk/task_manager.py:195-199 | After a run, the stored task has the last item's status and the same id, and its earlier artifacts are kept as a prefix. |
| `TaskManager.AgentTaskManager.constructor` | sk/task_manager.py:43-52 | A new manager holds the given agent and auth flag. Its store, configurations, channels and logs are empty. |
| `TaskManager.AgentTaskManager.UpsertTask` | sk/task_manager.py:101 | The store becomes the upsert of the old store. |
| `TaskManager.AgentTaskManager.UpdateStore` | sk/task_manager.py:102-104 | Replaces exactly the one task with its updated record and returns that record. |
| `TaskManager.AgentTaskManager.EnqueueEventsForSse` | sk/task_manager.py:209-218 | Appends exactly one event for the task to the queue. |
| `TaskManager.AgentTaskManager.SetupSseConsumer` | sk/task_manager.py:147 | A first subscription creates the task's channel and starts at the current queue position. A resubscription without a channel fails and changes nothing. |
| `TaskManager.AgentTaskManager.SetPushNotificationInfo` | sk/task_manager.py:328-347 | Returns true iff auth exists and the URL passes verification. The configuration is stored for the task exactly then, and otherwise the table is unchanged. |
| `TaskManager.AgentTaskManager.SendTaskNotification` | sk/task_manager.py:283-302 | No-op unless auth exists and a configuration is stored. Then it makes exactly one send, to the stored URL. |
| `TaskManager.AgentTaskManager.ProcessAgentResponse` | sk/task_manager.py:227-264 | Writes the mapped result for the task and notifies with the full stored task. Returns that task with its history truncated to `historyLength`. |
| `TaskManager.AgentTaskManager.OnSendTask` | sk/task_manager.py:82-122 | A validation error or failed push registration returns an error and changes no state. Otherwise the task is upserted and set to WORKING, with a notification. A query that cannot be extracted then raises (`Uncaught`), with the task left WORKING. An agent failure returns InternalError "Error invoking agent: ..." with the task left WORKING. An answer writes INPUT_REQUIRED or COMPLETED, notifies, and returns the truncated task. |
| `TaskManager.AgentTaskManager.SendAccepted` | sk/task_manager.py:101-122 | The part of `on_send_task` after validation and push registration. The task is upserted and set to WORKING, with a notification. A query that cannot be extracted raises with the task left WORKING. An agent failure returns InternalError "Error invoking agent: ...". An answer writes INPUT_REQUIRED or COMPLETED, notifies, and returns the truncated task. The agent's memory changes by exactly one turn. |
| `TaskManager.AgentTaskManager.RunStreamingAgent` | sk/task_manager.py:164-225 | A query that cannot be extracted changes nothing. Otherwise the agent streams once. Each item is written, notified and enqueued in order, and a raising stream adds one InternalError event. |
| `TaskManager.AgentTaskManager.ProcessStream` | sk/task_manager.py:174-225 | After the loop, the store, queue and notification log are the fold of the item steps over the old state, plus the error event if the stream raised. |
| `TaskManager.AgentTaskManager.ProcessStreamItem` | sk/task_manager.py:175-218 | One item: one store write, then its notification, then its artifact event (if any), then its status event. |
| `TaskManager.AgentTaskManager.OnSendTaskSubscribe` | sk/task_manager.py:124-162 | A validation error changes nothing. The task is upserted before push registration, so a refused registration leaves it stored. Otherwise the channel is set up at the current queue position before the run, so every event of the run comes after the stream's start. |
| `TaskManager.AgentTaskManager.OnResubscribeToTask` | sk/task_manager.py:304-326 | Returns a stream from the current queue position when the task has a channel. Otherwise it returns InternalError "An error occurred while reconnecting to stream: ...". The channel set is unchanged either way. |

## Findings

| source | as written | input that shows it | evidently intended | confidence | as-written member | corrected member |
|---|---|---|---|---|---|---|
| sk/agent.py:141-149 | The session history is passed to the model before the user query is added to it. | Any query on a new session: the model is shown only the system instruction. | The model answers a history that ends with the current query. | high, not executed | `Agent.PromptAsWrittenOmitsQuery` | `Agent.PromptEndsWithQuery` |

The as-written prompt is `Agent.PromptAsWritten`. `Agent.FirstQueryIsNotShown` also exhibits the problem, on a new session. The corrected prompt is `Agent.Prompt`, which `Agent.CurrencyAgent.Invoke` and so the whole model use. The correction keeps the stored memory exactly as the source leaves it: the query and the answer are appended after a successful call, and nothing is appended after a failed one.

## Left out

- Lower-casing covers ASCII letters only (`Text.Lower`). Python's Unicode case mapping is not modelled.
- The text of the system instruction is not modelled. A fresh history holds the opaque entry `SystemInstruction`.
- The Semantic Kernel chat-completion call and its execution settings are not modelled. The `llm` oracle replaces them, and the answer's `str` conversion is taken to be the oracle's text.
- `ExchangeRatePlugin.get_exchange_rate` is not modelled. It is an HTTP call with floating-point rates and formatting.
- Asynchronous scheduling is not modelled. The background streaming run is executed sequentially at the point where it is scheduled, and the agent's lazy generator is taken as its finite list of items plus an optional exception. Concurrency, interleaving with other requests, cancellation and client disconnects are out.
- `Agent.CurrencyAgent.Invoke`: the model oracle is shown the session history followed by the current query (the corrected prompt), not the history alone as at sk/agent.py:141-145. So the as-written fact that the reply cannot depend on the current query is not part of the class's behaviour; it is stated only about `Agent.PromptAsWritten`, by `Agent.PromptAsWrittenOmitsQuery` and `Agent.FirstQueryIsNotShown`. `Agent.CurrencyAgent.Stream` and the task manager's handlers call `Invoke`, so they carry the same choice.
- `TaskManager.AgentTaskManager.OnSendTaskSubscribe`: its outer `except` is not modelled. The base-class operations it wraps cannot fail in this model.
- Per-subscriber queues and the dequeue framing are not modelled. Events go to one ordered log, and a stream is identified by its task id and starting position.
- The push-notification sender's internals are not modelled: key generation, signing, the HTTP challenge, the POST and the JWKS endpoint. Verification is the `verify` oracle, sending appends the task snapshot to `sent`, and delivery failures are not visible.
- `are_modalities_compatible` is the `compatible` parameter. The message of `new_incompatible_types_error` is not modelled, and the error is the constant `IncompatibleTypes`.
- Timestamps on statuses, message and artifact metadata, artifact names, JSON-RPC request ids and the `model_dump` serialisation are not modelled.
- Logging and traceback printing are not modelled.
- `TaskManager.AgentTaskManager.RunStreamingAgent` and `TaskManager.AgentTaskManager.ProcessAgentResponse` require the task to be in the store. Their only callers upsert it first, so `update_store`'s not-found error is never reached.
- Process bootstrap and command-line options in `sk_main.py`, and the re-exports in `sk/__init__.py`, are not modelled.
