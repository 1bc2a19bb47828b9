/**
 * The `AgentTaskManager` of sk/task_manager.py: its handlers for unary sends,
 * streaming sends, resubscription and push-notification registration, over the
 * task store, the push-configuration table, the event queue and the outbound
 * notification log.  The agent's background streaming run is executed as a
 * sequential loop at the point where the source schedules it.
 */
module TaskManager {
  import opened Wrappers
  import opened A2A
  import opened TaskStore
  import opened Agent
  import opened TaskLogic

  const ResubscribeNotFound := "Task not found for resubscription"

  /** A push configuration is registered only when one is requested and notification auth exists. */
  predicate AttemptsRegistration(hasAuth: bool, p: SendParams) {
    p.pushNotification.Some? && hasAuth
  }

  /** The push-configuration table after the registration step of a send that was not refused. */
  function RegisteredConfigs(hasAuth: bool, configs: map<TaskId, PushConfig>, p: SendParams): map<TaskId, PushConfig> {
    if AttemptsRegistration(hasAuth, p) then configs[p.id := p.pushNotification.value] else configs
  }

  class AgentTaskManager {
    const agent: CurrencyAgent
    /** Whether a `notification_sender_auth` was supplied. */
    const hasNotificationAuth: bool

    /** The task store: one record per task id. */
    var tasks: map<TaskId, Task>
    /** The verified push-notification configuration of each task. */
    var pushConfigs: map<TaskId, PushConfig>
    /** The task ids that have a server-sent-event channel. */
    var channels: set<TaskId>
    /** Every event enqueued for server-sent-event subscribers, in order. */
    var events: seq<Enqueued>
    /** Every push notification sent, in order. */
    var sent: seq<Delivery>

    constructor (agent: CurrencyAgent, hasNotificationAuth: bool)
      ensures this.agent == agent && this.hasNotificationAuth == hasNotificationAuth
      ensures tasks == map[] && pushConfigs == map[] && channels == {} && events == [] && sent == []
    {
      this.agent := agent;
      this.hasNotificationAuth := hasNotificationAuth;
      tasks := map[];
      pushConfigs := map[];
      channels := {};
      events := [];
      sent := [];
    }

    /** The deliveries `send_task_notification(t)` makes in the current state. */
    function NotificationsFor(t: Task): seq<Delivery>
      reads this
    {
      Notifications(hasNotificationAuth, pushConfigs, t)
    }

    // -------------------------------------------------------------------------
    // Inherited store, queue and push-configuration operations
    // -------------------------------------------------------------------------

    method UpsertTask(p: SendParams)
      modifies this`tasks
      ensures tasks == Upsert(old(tasks), p)
    {
      if p.id !in tasks {
        tasks := tasks[p.id := NewTask(p)];
      }
    }

    method UpdateStore(id: TaskId, status: TaskStatus, artifacts: Option<seq<Artifact>>) returns (t: Task)
      requires id in tasks
      modifies this`tasks
      ensures t == Updated(old(tasks)[id], status, artifacts)
      ensures tasks == old(tasks)[id := t]
    {
      t := Updated(tasks[id], status, artifacts);
      tasks := tasks[id := t];
    }

    method EnqueueEventsForSse(id: TaskId, e: SseEvent)
      modifies this`events
      ensures events == old(events) + [Enqueued(id, e)]
    {
      events := events + [Enqueued(id, e)];
    }

    /** `setup_sse_consumer`: a resubscription needs an existing channel; the new queue starts at the current position. */
    method SetupSseConsumer(id: TaskId, isResubscribe: bool) returns (r: Result<nat, Exception>)
      modifies this`channels
      ensures isResubscribe && id !in old(channels) ==>
                r == Failure(ValueError(ResubscribeNotFound)) && channels == old(channels)
      ensures !(isResubscribe && id !in old(channels)) ==>
                r == Success(|events|) && channels == old(channels) + {id}
    {
      if id !in channels {
        if isResubscribe {
          return Failure(ValueError(ResubscribeNotFound));
        }
        channels := channels + {id};
      }
      r := Success(|events|);
    }

    // -------------------------------------------------------------------------
    // Push notifications
    // -------------------------------------------------------------------------

    /**
     * `set_push_notification_info`: without auth, or when the URL fails the
     * ownership challenge `verify`, nothing is stored and false is returned.
     */
    method SetPushNotificationInfo(id: TaskId, config: PushConfig, verify: string -> bool) returns (ok: bool)
      modifies this`pushConfigs
      ensures ok == (hasNotificationAuth && verify(config.url))
      ensures pushConfigs == if ok then old(pushConfigs)[id := config] else old(pushConfigs)
    {
      if !hasNotificationAuth {
        return false;
      }
      var verified := verify(config.url);
      if !verified {
        return false;
      }
      pushConfigs := pushConfigs[id := config];
      ok := true;
    }

    /** `send_task_notification`: exactly one delivery, to the stored URL, when auth and a config exist. */
    method SendTaskNotification(t: Task)
      modifies this`sent
      ensures sent == old(sent) + NotificationsFor(t)
      ensures |sent| <= |old(sent)| + 1
      ensures |sent| == |old(sent)| + 1 <==> hasNotificationAuth && t.id in pushConfigs
    {
      if !hasNotificationAuth {
        return;
      }
      if t.id !in pushConfigs {
        return;
      }
      var config := pushConfigs[t.id];
      sent := sent + [Delivery(config.url, t)];
    }

    // -------------------------------------------------------------------------
    // Unary send
    // -------------------------------------------------------------------------

    /** `_process_agent_response`: write the result, notify, return the task with truncated history. */
    method ProcessAgentResponse(p: SendParams, result: AgentResult) returns (r: SendResponse)
      requires p.id in tasks
      modifies this`tasks, this`sent
      ensures tasks == old(tasks)[p.id := ApplyResult(old(tasks)[p.id], result)]
      ensures sent == old(sent) + NotificationsFor(tasks[p.id])
      ensures r == TaskResult(AppendTaskHistory(tasks[p.id], p.historyLength))
    {
      var write := UnaryWrite(result);
      var t := UpdateStore(p.id, write.status, write.artifacts);
      var taskResult := AppendTaskHistory(t, p.historyLength);
      if hasNotificationAuth {
        SendTaskNotification(t);
      }
      r := TaskResult(taskResult);
    }

    /**
     * `on_send_task`.  A validation error or a refused push registration returns an
     * error and changes nothing.  Otherwise the task is upserted and set to WORKING,
     * then the query is extracted (which may raise) and the agent invoked once; a
     * failing agent leaves the task WORKING, an answer ends it INPUT_REQUIRED or COMPLETED.
     */
    method OnSendTask(p: SendParams, compatible: Compatible, verify: string -> bool, llm: Llm) returns (r: SendResponse)
      modifies this, agent
      ensures channels == old(channels) && events == old(events)
      ensures ValidateRequest(p, compatible).Some? ==>
                r == ErrorResponse(ValidateRequest(p, compatible).value) && unchanged(this) && unchanged(agent)
      ensures ValidateRequest(p, compatible).None? && AttemptsRegistration(hasNotificationAuth, p)
              && !verify(p.pushNotification.value.url) ==>
                r == ErrorResponse(InvalidParams(PushUrlInvalid)) && unchanged(this) && unchanged(agent)
      ensures ValidateRequest(p, compatible).None?
              && (AttemptsRegistration(hasNotificationAuth, p) ==> verify(p.pushNotification.value.url)) ==>
                var working := Updated(Upsert(old(tasks), p)[p.id], TaskStatus(Working, None), None);
                var query := GetUserQuery(p);
                && pushConfigs == RegisteredConfigs(hasNotificationAuth, old(pushConfigs), p)
                && (query.Failure? ==>
                      && r == Uncaught(query.error)
                      && tasks == Upsert(old(tasks), p)[p.id := working]
                      && sent == old(sent) + NotificationsFor(working)
                      && unchanged(agent))
                && (query.Success? ==>
                      var reply := llm(Prompt(old(agent.conversations), p.sessionId, query.value));
                      && agent.conversations == ConversationsAfter(old(agent.conversations), p.sessionId, query.value, reply)
                      && (reply.Failed? ==>
                            && r == ErrorResponse(InternalError(InvokeErrorPrefix + reply.error))
                            && tasks == Upsert(old(tasks), p)[p.id := working]
                            && sent == old(sent) + NotificationsFor(working))
                      && (reply.Answer? ==>
                            var done := ApplyResult(working, Classify(reply.text));
                            && tasks == Upsert(old(tasks), p)[p.id := done]
                            && sent == old(sent) + NotificationsFor(working) + NotificationsFor(done)
                            && r == TaskResult(AppendTaskHistory(done, p.historyLength))))
    {
      var validationError := ValidateRequest(p, compatible);
      if validationError.Some? {
        return ErrorResponse(validationError.value);
      }
      if p.pushNotification.Some? && hasNotificationAuth {
        var ok := SetPushNotificationInfo(p.id, p.pushNotification.value, verify);
        if !ok {
          return ErrorResponse(InvalidParams(PushUrlInvalid));
        }
      }
      r := SendAccepted(p, llm);
    }

    /**
     * The part of `on_send_task` after validation and push registration: upsert,
     * WORKING, query extraction, one `invoke`, and the mapped result.
     */
    method SendAccepted(p: SendParams, llm: Llm) returns (r: SendResponse)
      modifies this`tasks, this`sent, agent
      ensures var working := Updated(Upsert(old(tasks), p)[p.id], TaskStatus(Working, None), None);
        var query := GetUserQuery(p);
        && (query.Failure? ==>
              && r == Uncaught(query.error)
              && tasks == Upsert(old(tasks), p)[p.id := working]
              && sent == old(sent) + NotificationsFor(working)
              && unchanged(agent))
        && (query.Success? ==>
              var reply := llm(Prompt(old(agent.conversations), p.sessionId, query.value));
              && agent.conversations == ConversationsAfter(old(agent.conversations), p.sessionId, query.value, reply)
              && (reply.Failed? ==>
                    && r == ErrorResponse(InternalError(InvokeErrorPrefix + reply.error))
                    && tasks == Upsert(old(tasks), p)[p.id := working]
                    && sent == old(sent) + NotificationsFor(working))
              && (reply.Answer? ==>
                    var done := ApplyResult(working, Classify(reply.text));
                    && tasks == Upsert(old(tasks), p)[p.id := done]
                    && sent == old(sent) + NotificationsFor(working) + NotificationsFor(done)
                    && r == TaskResult(AppendTaskHistory(done, p.historyLength))))
    {
      UpsertTask(p);
      var task := UpdateStore(p.id, TaskStatus(Working, None), None);
      if hasNotificationAuth {
        SendTaskNotification(task);
      }
      var query := GetUserQuery(p);
      if query.Failure? {
        return Uncaught(query.error);
      }
      var outcome := agent.Invoke(query.value, p.sessionId, llm);
      match outcome {
        case Raised(e) =>
          r := ErrorResponse(InternalError(InvokeErrorPrefix + e));
        case Replied(agentResponse) =>
          r := ProcessAgentResponse(p, agentResponse);
      }
    }

    // -------------------------------------------------------------------------
    // Streaming send
    // -------------------------------------------------------------------------

    /**
     * `_run_streaming_agent`.  A query that cannot be extracted raises before the
     * `try`, so nothing is written or enqueued.  Otherwise every streamed item is
     * written to the store, notified, and enqueued (artifact event first, then one
     * status event); a stream that raises ends with one InternalError event.
     */
    method RunStreamingAgent(p: SendParams, llm: Llm)
      requires p.id in tasks
      modifies this`tasks, this`events, this`sent, agent
      ensures GetUserQuery(p).Failure? ==> unchanged(this) && unchanged(agent)
      ensures GetUserQuery(p).Success? ==>
                var query := GetUserQuery(p).value;
                var reply := llm(Prompt(old(agent.conversations), p.sessionId, query));
                var run := StreamRunOf(reply);
                var start := old(tasks)[p.id];
                && agent.conversations == ConversationsAfter(old(agent.conversations), p.sessionId, query, reply)
                && tasks == old(tasks)[p.id := AfterSteps(start, run.items)]
                && events == old(events) + RunEvents(p.id, run)
                && sent == old(sent) + StreamNotifications(hasNotificationAuth, pushConfigs, start, run.items)
    {
      var query := GetUserQuery(p);
      if query.Failure? {
        return;
      }
      var run := agent.Stream(query.value, p.sessionId, llm);
      ProcessStream(p.id, run);
    }

    /** The `async for` loop over a stream run, and the error event if the stream raised. */
    method ProcessStream(id: TaskId, run: StreamRun)
      requires id in tasks
      modifies this`tasks, this`events, this`sent
      ensures tasks == old(tasks)[id := AfterSteps(old(tasks)[id], run.items)]
      ensures events == old(events) + RunEvents(id, run)
      ensures sent == old(sent) + StreamNotifications(hasNotificationAuth, pushConfigs, old(tasks)[id], run.items)
    {
      ghost var start := tasks[id];
      var items := run.items;
      var i := 0;
      while i < |items|
        invariant 0 <= i <= |items|
        invariant id in tasks
        invariant tasks == old(tasks)[id := AfterSteps(start, items[..i])]
        invariant events == old(events) + StreamEvents(id, items[..i])
        invariant sent == old(sent) + StreamNotifications(hasNotificationAuth, pushConfigs, start, items[..i])
      {
        ghost var prefix := items[..i + 1];
        assert prefix[..i] == items[..i] && prefix[i] == items[i];
        ProcessStreamItem(id, items[i]);
        i := i + 1;
      }
      assert items[..i] == items;
      if run.raised.Some? {
        EnqueueEventsForSse(id, StreamError(InternalError(StreamErrorPrefix + run.raised.value)));
      }
    }

    /** The body of the streaming loop for one item: store write, notification, then the item's events. */
    method ProcessStreamItem(id: TaskId, item: AgentResult)
      requires id in tasks
      modifies this`tasks, this`events, this`sent
      ensures var step := StepOf(item);
        && tasks == old(tasks)[id := Updated(old(tasks)[id], step.status, StepArtifacts(step))]
        && events == old(events) + StepEvents(id, item)
        && sent == old(sent) + NotificationsFor(tasks[id])
    {
      var step := StepOf(item);
      var latest := UpdateStore(id, step.status, StepArtifacts(step));
      if hasNotificationAuth {
        SendTaskNotification(latest);
      }
      if step.artifact.Some? {
        EnqueueEventsForSse(id, ArtifactUpdate(id, step.artifact.value));
      }
      EnqueueEventsForSse(id, StatusUpdate(id, step.status, step.final));
    }

    /**
     * `on_send_task_subscribe`.  A validation error changes nothing.  The task is
     * upserted before the push registration, so a refused registration leaves it
     * stored.  Otherwise the channel is set up before the agent runs, so the
     * returned stream starts before every event of the run.
     */
    method OnSendTaskSubscribe(p: SendParams, compatible: Compatible, verify: string -> bool, llm: Llm)
      returns (r: StreamResponse)
      modifies this, agent
      ensures ValidateRequest(p, compatible).Some? ==>
                r == StreamRefused(ValidateRequest(p, compatible).value) && unchanged(this) && unchanged(agent)
      ensures ValidateRequest(p, compatible).None? && AttemptsRegistration(hasNotificationAuth, p)
              && !verify(p.pushNotification.value.url) ==>
                && r == StreamRefused(InvalidParams(PushUrlInvalid))
                && tasks == Upsert(old(tasks), p)
                && pushConfigs == old(pushConfigs) && channels == old(channels)
                && events == old(events) && sent == old(sent) && unchanged(agent)
      ensures ValidateRequest(p, compatible).None?
              && (AttemptsRegistration(hasNotificationAuth, p) ==> verify(p.pushNotification.value.url)) ==>
                var start := Upsert(old(tasks), p)[p.id];
                var query := GetUserQuery(p);
                && r == EventStream(p.id, |old(events)|)
                && channels == old(channels) + {p.id}
                && pushConfigs == RegisteredConfigs(hasNotificationAuth, old(pushConfigs), p)
                && (query.Failure? ==>
                      && tasks == Upsert(old(tasks), p) && events == old(events) && sent == old(sent)
                      && unchanged(agent))
                && (query.Success? ==>
                      var reply := llm(Prompt(old(agent.conversations), p.sessionId, query.value));
                      var run := StreamRunOf(reply);
                      && agent.conversations == ConversationsAfter(old(agent.conversations), p.sessionId, query.value, reply)
                      && tasks == Upsert(old(tasks), p)[p.id := AfterSteps(start, run.items)]
                      && events == old(events) + RunEvents(p.id, run)
                      && sent == old(sent) + StreamNotifications(hasNotificationAuth, pushConfigs, start, run.items))
    {
      var validationError := ValidateRequest(p, compatible);
      if validationError.Some? {
        return StreamRefused(validationError.value);
      }
      UpsertTask(p);
      if p.pushNotification.Some? && hasNotificationAuth {
        var ok := SetPushNotificationInfo(p.id, p.pushNotification.value, verify);
        if !ok {
          return StreamRefused(InvalidParams(PushUrlInvalid));
        }
      }
      var queue := SetupSseConsumer(p.id, false);
      RunStreamingAgent(p, llm);
      r := EventStream(p.id, queue.value);
    }

    /** `on_resubscribe_to_task`: a fresh stream from the current position, or an InternalError without a channel. */
    method OnResubscribeToTask(id: TaskId) returns (r: StreamResponse)
      modifies this`channels
      ensures channels == old(channels)
      ensures r == if id in channels then EventStream(id, |events|)
                   else StreamRefused(InternalError(ResubscribeErrorPrefix + ResubscribeNotFound))
    {
      var queue := SetupSseConsumer(id, true);
      match queue {
        case Success(from) =>
          r := EventStream(id, from);
        case Failure(ValueError(message)) =>
          r := StreamRefused(InternalError(ResubscribeErrorPrefix + message));
      }
    }
  }
}
