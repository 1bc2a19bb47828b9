/**
 * The pure decisions of sk/task_manager.py: request validation, query extraction,
 * the mapping of an agent result to a store write (unary) or to a streaming step,
 * and the sequences of events and notifications a streaming run produces.
 */
module TaskLogic {
  import opened Wrappers
  import opened Text
  import opened A2A
  import opened TaskStore
  import opened Agent

  type Compatible = (seq<string>, seq<string>) -> bool

  const PushUrlMissing := "Push notification URL is missing"
  const PushUrlInvalid := "Push notification URL is invalid"
  const OnlyTextParts := "Only text parts are supported"
  const InvokeErrorPrefix := "Error invoking agent: "
  const StreamErrorPrefix := "An error occurred while streaming the response: "
  const ResubscribeErrorPrefix := "An error occurred while reconnecting to stream: "

  /** `_validate_request`: the output-mode check first, then the push-notification URL check. */
  function ValidateRequest(p: SendParams, compatible: Compatible): (r: Option<RpcError>)
    ensures r == None <==> compatible(p.acceptedOutputModes, SupportedContentTypes)
                           && !(p.pushNotification.Some? && p.pushNotification.value.url == "")
    ensures !compatible(p.acceptedOutputModes, SupportedContentTypes) ==> r == Some(IncompatibleTypes)
    ensures compatible(p.acceptedOutputModes, SupportedContentTypes) && r.Some? ==>
              r == Some(InvalidParams(PushUrlMissing))
  {
    if !compatible(p.acceptedOutputModes, SupportedContentTypes) then Some(IncompatibleTypes)
    else if p.pushNotification.Some? && p.pushNotification.value.url == "" then Some(InvalidParams(PushUrlMissing))
    else None
  }

  /** `_get_user_query`: the text of the first part; no part, or a non-text first part, raises. */
  function GetUserQuery(p: SendParams): (r: Result<string, Exception>)
    ensures r.Success? <==> |p.message.parts| > 0 && p.message.parts[0].TextPart?
    ensures r.Success? ==> r.value == p.message.parts[0].text
    ensures |p.message.parts| == 0 ==> r == Failure(IndexError)
    ensures |p.message.parts| > 0 && !p.message.parts[0].TextPart? ==> r == Failure(ValueError(OnlyTextParts))
  {
    if |p.message.parts| == 0 then Failure(IndexError)
    else match p.message.parts[0]
      case TextPart(text) => Success(text)
      case _ => Failure(ValueError(OnlyTextParts))
  }

  function TextParts(content: string): seq<Part> {
    [TextPart(content)]
  }

  // ---------------------------------------------------------------------------
  // Unary path: `_process_agent_response`
  // ---------------------------------------------------------------------------

  /** The status and artifacts `_process_agent_response` writes for one agent result. */
  datatype StoreWrite = StoreWrite(status: TaskStatus, artifacts: Option<seq<Artifact>>)

  function UnaryWrite(result: AgentResult): StoreWrite {
    if result.requireUserInput then
      StoreWrite(TaskStatus(InputRequired, Some(Message(AgentRole, TextParts(result.content)))), None)
    else
      StoreWrite(TaskStatus(Completed, None), Some([Artifact(TextParts(result.content), 0, None)]))
  }

  /** The stored task after the agent's result is written. */
  function ApplyResult(t: Task, result: AgentResult): Task {
    Updated(t, UnaryWrite(result).status, UnaryWrite(result).artifacts)
  }

  /**
   * The two unary outcomes: needing input gives INPUT_REQUIRED with the agent's message
   * and no new artifact; otherwise COMPLETED, no message, and one artifact holding the content.
   */
  lemma UnaryOutcome(t: Task, result: AgentResult)
    ensures var u := ApplyResult(t, result);
      && u.id == t.id
      && (result.requireUserInput ==>
            && u.status == TaskStatus(InputRequired, Some(Message(AgentRole, [TextPart(result.content)])))
            && u.artifacts == t.artifacts
            && u.history == t.history + [Message(AgentRole, [TextPart(result.content)])])
      && (!result.requireUserInput ==>
            && u.status == TaskStatus(Completed, None)
            && u.artifacts == t.artifacts + [Artifact([TextPart(result.content)], 0, None)]
            && u.history == t.history)
  {
  }

  /** For the currency agent, the unary answer ends the task INPUT_REQUIRED exactly when it holds one of the phrases. */
  lemma UnaryStateByPhrase(t: Task, answer: string)
    ensures ApplyResult(t, Classify(answer)).status.state ==
              if exists k, i :: 0 <= k < |InputPhrases| && OccursAt(InputPhrases[k], Lower(answer), i)
              then InputRequired else Completed
  {
    RequireUserInputIff(answer);
  }

  // ---------------------------------------------------------------------------
  // Streaming path: one step of `_run_streaming_agent`
  // ---------------------------------------------------------------------------

  /** What one streamed item becomes: the status written, the artifact (if any), and whether the stream ends. */
  datatype Step = Step(status: TaskStatus, artifact: Option<Artifact>, final: bool)

  /** The step for one item; `require_user_input` takes precedence over `is_task_complete`. */
  function StepOf(item: AgentResult): (r: Step)
    ensures r.final <==> item.requireUserInput || item.isTaskComplete
    ensures r.status.state == Working <==> !item.requireUserInput && !item.isTaskComplete
    ensures r.status.state == InputRequired <==> item.requireUserInput
    ensures r.status.state == Completed <==> !item.requireUserInput && item.isTaskComplete
    ensures r.artifact.Some? <==> r.status.state == Completed
    ensures r.artifact.Some? ==> r.artifact.value == Artifact([TextPart(item.content)], 0, Some(false))
                                 && r.status.message == None
    ensures r.artifact.None? ==> r.status.message == Some(Message(AgentRole, [TextPart(item.content)]))
  {
    var parts := TextParts(item.content);
    if !item.isTaskComplete && !item.requireUserInput then
      Step(TaskStatus(Working, Some(Message(AgentRole, parts))), None, false)
    else if item.requireUserInput then
      Step(TaskStatus(InputRequired, Some(Message(AgentRole, parts))), None, true)
    else
      Step(TaskStatus(Completed, None), Some(Artifact(parts, 0, Some(false))), true)
  }

  function StepArtifacts(s: Step): Option<seq<Artifact>> {
    if s.artifact.Some? then Some([s.artifact.value]) else None
  }

  /** The events one step enqueues: the artifact event (if any), then the status event. */
  function StepEvents(id: TaskId, item: AgentResult): seq<Enqueued> {
    var s := StepOf(item);
    (if s.artifact.Some? then [Enqueued(id, ArtifactUpdate(id, s.artifact.value))] else [])
    + [Enqueued(id, StatusUpdate(id, s.status, s.final))]
  }

  /** The events of all items, in order. */
  function StreamEvents(id: TaskId, items: seq<AgentResult>): seq<Enqueued>
    decreases |items|
  {
    if items == [] then [] else StreamEvents(id, items[..|items| - 1]) + StepEvents(id, items[|items| - 1])
  }

  /** The stored task after the store writes of all items. */
  function AfterSteps(t: Task, items: seq<AgentResult>): Task
    decreases |items|
  {
    if items == [] then t
    else
      var s := StepOf(items[|items| - 1]);
      Updated(AfterSteps(t, items[..|items| - 1]), s.status, StepArtifacts(s))
  }

  /** The events of a whole run: each item's, then one InternalError event if the stream raised. */
  function RunEvents(id: TaskId, run: StreamRun): seq<Enqueued> {
    StreamEvents(id, run.items)
    + (if run.raised.Some? then [Enqueued(id, StreamError(InternalError(StreamErrorPrefix + run.raised.value)))] else [])
  }

  /** `send_task_notification`: one delivery to the stored URL when auth and a config exist, else none. */
  function Notifications(hasAuth: bool, configs: map<TaskId, PushConfig>, t: Task): (r: seq<Delivery>)
    ensures |r| <= 1
    ensures |r| == 1 <==> hasAuth && t.id in configs
    ensures |r| == 1 ==> r[0] == Delivery(configs[t.id].url, t)
  {
    if hasAuth && t.id in configs then [Delivery(configs[t.id].url, t)] else []
  }

  /** The notifications of a streaming run: one per item, for the task as stored after that item. */
  function StreamNotifications(hasAuth: bool, configs: map<TaskId, PushConfig>, t: Task, items: seq<AgentResult>): seq<Delivery>
    decreases |items|
  {
    if items == [] then []
    else StreamNotifications(hasAuth, configs, t, items[..|items| - 1]) + Notifications(hasAuth, configs, AfterSteps(t, items))
  }

  // ---------------------------------------------------------------------------
  // Properties of streaming runs
  // ---------------------------------------------------------------------------

  /** The event that ends a subscriber's stream: a final status event or an error event. */
  predicate Terminal(e: Enqueued) {
    (e.event.StatusUpdate? && e.event.final) || e.event.StreamError?
  }

  /** The statuses carried by the status events of `es`, in order. */
  function Statuses(es: seq<Enqueued>): seq<TaskStatus>
    decreases |es|
  {
    if es == [] then []
    else Statuses(es[..|es| - 1]) + (if es[|es| - 1].event.StatusUpdate? then [es[|es| - 1].event.status] else [])
  }

  lemma {:induction false} StatusesAppend(a: seq<Enqueued>, b: seq<Enqueued>)
    ensures Statuses(a + b) == Statuses(a) + Statuses(b)
    decreases |b|
  {
    if b == [] {
      assert a + b == a;
    } else {
      assert (a + b)[..|a + b| - 1] == a + b[..|b| - 1];
      assert (a + b)[|a + b| - 1] == b[|b| - 1];
      StatusesAppend(a, b[..|b| - 1]);
    }
  }

  /** One step enqueues exactly one status event, carrying the step's status. */
  lemma StepStatuses(id: TaskId, item: AgentResult)
    ensures Statuses(StepEvents(id, item)) == [StepOf(item).status]
  {
    var se := StepEvents(id, item);
    if StepOf(item).artifact.Some? {
      assert se[..1][..0] == [];
      assert Statuses(se[..1]) == [];
      assert se[..|se| - 1] == se[..1];
    } else {
      assert se[..|se| - 1] == [];
    }
  }

  /** The statuses of a run are those of all but its last item, then the last item's status. */
  lemma StreamStatusesSnoc(id: TaskId, items: seq<AgentResult>)
    requires items != []
    ensures Statuses(StreamEvents(id, items))
            == Statuses(StreamEvents(id, items[..|items| - 1])) + [StepOf(items[|items| - 1]).status]
  {
    var n := |items| - 1;
    StatusesAppend(StreamEvents(id, items[..n]), StepEvents(id, items[n]));
    StepStatuses(id, items[n]);
  }

  /** The status of each item's step, in item order. */
  function ItemStatuses(items: seq<AgentResult>): seq<TaskStatus> {
    seq(|items|, k requires 0 <= k < |items| => StepOf(items[k]).status)
  }

  lemma ItemStatusesSnoc(items: seq<AgentResult>)
    requires items != []
    ensures ItemStatuses(items) == ItemStatuses(items[..|items| - 1]) + [StepOf(items[|items| - 1]).status]
  {
    var n := |items| - 1;
    assert forall k :: 0 <= k < n ==> items[..n][k] == items[k];
  }

  /** The statuses enqueued by a run are exactly its items' step statuses. */
  lemma {:induction false} StreamStatuses(id: TaskId, items: seq<AgentResult>)
    ensures Statuses(StreamEvents(id, items)) == ItemStatuses(items)
    decreases |items|
  {
    if items != [] {
      StreamStatuses(id, items[..|items| - 1]);
      StreamStatusesSnoc(id, items);
      ItemStatusesSnoc(items);
    }
  }

  /** Exactly one status event is enqueued per streamed item, carrying that item's status. */
  lemma OneStatusEventPerItem(id: TaskId, items: seq<AgentResult>)
    ensures |Statuses(StreamEvents(id, items))| == |items|
    ensures forall k :: 0 <= k < |items| ==> Statuses(StreamEvents(id, items))[k] == StepOf(items[k]).status
  {
    StreamStatuses(id, items);
  }

  /** The k-th status event carries the status the store holds after the k-th item. */
  lemma StatusEventsFollowStore(t: Task, id: TaskId, items: seq<AgentResult>)
    ensures |Statuses(StreamEvents(id, items))| == |items|
    ensures forall k :: 0 <= k < |items| ==> Statuses(StreamEvents(id, items))[k] == AfterSteps(t, items[..k + 1]).status
  {
    OneStatusEventPerItem(id, items);
    forall k | 0 <= k < |items|
      ensures Statuses(StreamEvents(id, items))[k] == AfterSteps(t, items[..k + 1]).status
    {
      AfterStepsStatus(t, items[..k + 1]);
      assert items[..k + 1][k] == items[k];
    }
  }

  /** The items of a stream enqueue no error event. */
  lemma {:induction false} ItemsEnqueueNoError(id: TaskId, items: seq<AgentResult>)
    ensures forall k :: 0 <= k < |StreamEvents(id, items)| ==> !StreamEvents(id, items)[k].event.StreamError?
    decreases |items|
  {
    if items != [] {
      var n := |items| - 1;
      ItemsEnqueueNoError(id, items[..n]);
      var pre := StreamEvents(id, items[..n]);
      var se := StepEvents(id, items[n]);
      assert StreamEvents(id, items) == pre + se;
    }
  }

  /** A stream that raises enqueues exactly one InternalError event, as its last event. */
  lemma RaisedRunEndsWithOneError(id: TaskId, run: StreamRun)
    requires run.raised.Some?
    ensures var es := RunEvents(id, run);
      && es[|es| - 1] == Enqueued(id, StreamError(InternalError(StreamErrorPrefix + run.raised.value)))
      && forall k :: 0 <= k < |es| - 1 ==> !es[k].event.StreamError?
  {
    ItemsEnqueueNoError(id, run.items);
  }

  /** Every event of a run is tagged with the run's task id. */
  lemma {:induction false} EventsCarryTaskId(id: TaskId, items: seq<AgentResult>)
    ensures forall k :: 0 <= k < |StreamEvents(id, items)| ==>
              StreamEvents(id, items)[k].taskId == id
              && (StreamEvents(id, items)[k].event.StatusUpdate? ==> StreamEvents(id, items)[k].event.id == id)
              && (StreamEvents(id, items)[k].event.ArtifactUpdate? ==> StreamEvents(id, items)[k].event.id == id)
    decreases |items|
  {
    if items != [] {
      EventsCarryTaskId(id, items[..|items| - 1]);
    }
  }

  /** Each artifact event is immediately followed by a COMPLETED, final status event. */
  predicate ArtifactsThenCompletion(es: seq<Enqueued>) {
    forall k :: 0 <= k < |es| && es[k].event.ArtifactUpdate? ==>
      && k + 1 < |es|
      && es[k + 1].event.StatusUpdate?
      && es[k + 1].event.status.state == Completed
      && es[k + 1].event.final
  }

  /**
   * Artifacts are only enqueued on the completing step, and before that step's
   * status event.
   */
  lemma {:induction false} ArtifactPrecedesCompletion(id: TaskId, items: seq<AgentResult>)
    ensures ArtifactsThenCompletion(StreamEvents(id, items))
    decreases |items|
  {
    if items != [] {
      var n := |items| - 1;
      ArtifactPrecedesCompletion(id, items[..n]);
      var pre := StreamEvents(id, items[..n]);
      var se := StepEvents(id, items[n]);
      var es := StreamEvents(id, items);
      assert es == pre + se;
      forall k | 0 <= k < |es| && es[k].event.ArtifactUpdate?
        ensures k + 1 < |es| && es[k + 1].event.StatusUpdate? && es[k + 1].event.status.state == Completed
                && es[k + 1].event.final
      {
        if k < |pre| {
          assert pre[k] == es[k];
          assert pre[k + 1] == es[k + 1];
        } else {
          var st := StepOf(items[n]);
          assert se[k - |pre|] == es[k];
          assert k - |pre| == 0 && |se| == 2;
          assert se[1] == es[k + 1];
        }
      }
    }
  }

  /** The last event of a non-empty run of items is the status event carrying the status last written to the store. */
  lemma LastEventMatchesStore(t: Task, id: TaskId, items: seq<AgentResult>)
    requires items != []
    ensures var es := StreamEvents(id, items);
      && |es| > 0
      && es[|es| - 1] == Enqueued(id, StatusUpdate(id, AfterSteps(t, items).status, StepOf(items[|items| - 1]).final))
  {
  }

  /** If no item sets a flag, no event of the run ends a subscriber's stream. */
  lemma {:induction false} NoEarlyTerminal(id: TaskId, items: seq<AgentResult>)
    requires forall k :: 0 <= k < |items| ==> !items[k].isTaskComplete && !items[k].requireUserInput
    ensures forall k :: 0 <= k < |StreamEvents(id, items)| ==> !Terminal(StreamEvents(id, items)[k])
    decreases |items|
  {
    if items != [] {
      var n := |items| - 1;
      NoEarlyTerminal(id, items[..n]);
      var pre := StreamEvents(id, items[..n]);
      assert StreamEvents(id, items) == pre + StepEvents(id, items[n]);
    }
  }

  /**
   * The currency agent's stream makes a subscriber's stream end exactly once: the last
   * event of the run ends it and no earlier one does.
   */
  lemma CurrencyStreamEndsOnce(id: TaskId, reply: LlmReply)
    ensures var es := RunEvents(id, StreamRunOf(reply));
      && |es| > 0
      && Terminal(es[|es| - 1])
      && forall k :: 0 <= k < |es| - 1 ==> !Terminal(es[k])
  {
    var run := StreamRunOf(reply);
    StreamShape(reply);
    var es := RunEvents(id, run);
    if reply.Answer? {
      var items := run.items;
      var result := Classify(reply.text);
      RequireUserInputIff(reply.text);
      assert items[..2] == [LookingUp, ProcessingRates];
      NoEarlyTerminal(id, items[..2]);
      var pre := StreamEvents(id, items[..2]);
      var se := StepEvents(id, result);
      assert es == pre + se;
      forall k | 0 <= k < |es| - 1
        ensures !Terminal(es[k])
      {
        if k < |pre| {
          assert es[k] == pre[k];
        } else {
          assert es[k] == se[k - |pre|];
        }
      }
    } else {
      assert run.items == [LookingUp];
      assert run.items[..0] == [];
      NoEarlyTerminal(id, run.items);
    }
  }

  /**
   * With auth and a stored configuration, a streaming run makes one delivery per
   * item, to the stored URL, carrying the task as stored after that item; otherwise none.
   */
  lemma {:induction false} StreamNotificationsPerItem(hasAuth: bool, configs: map<TaskId, PushConfig>, t: Task,
                                                      items: seq<AgentResult>)
    ensures hasAuth && t.id in configs ==>
              && |StreamNotifications(hasAuth, configs, t, items)| == |items|
              && forall k :: 0 <= k < |items| ==>
                   StreamNotifications(hasAuth, configs, t, items)[k] == Delivery(configs[t.id].url, AfterSteps(t, items[..k + 1]))
    ensures !(hasAuth && t.id in configs) ==> StreamNotifications(hasAuth, configs, t, items) == []
    decreases |items|
  {
    if items != [] {
      var n := |items| - 1;
      var prefix := items[..n];
      StreamNotificationsPerItem(hasAuth, configs, t, prefix);
      AfterStepsStatus(t, items);
      var sn := StreamNotifications(hasAuth, configs, t, items);
      var sp := StreamNotifications(hasAuth, configs, t, prefix);
      if hasAuth && t.id in configs {
        assert sn == sp + [Delivery(configs[t.id].url, AfterSteps(t, items))];
        forall k | 0 <= k < |items|
          ensures sn[k] == Delivery(configs[t.id].url, AfterSteps(t, items[..k + 1]))
        {
          if k < n {
            assert prefix[..k + 1] == items[..k + 1];
          } else {
            assert items[..k + 1] == items;
          }
        }
      }
    }
  }

  /** The streaming run's final task: the last step's status, just as the status event announced. */
  lemma {:induction false} AfterStepsStatus(t: Task, items: seq<AgentResult>)
    ensures items == [] ==> AfterSteps(t, items) == t
    ensures items != [] ==> AfterSteps(t, items).status == StepOf(items[|items| - 1]).status
    ensures AfterSteps(t, items).id == t.id
    ensures |t.artifacts| <= |AfterSteps(t, items).artifacts|
    ensures AfterSteps(t, items).artifacts[..|t.artifacts|] == t.artifacts
    decreases |items|
  {
    if items != [] {
      var n := |items| - 1;
      AfterStepsStatus(t, items[..n]);
      var s := StepOf(items[n]);
      UpdatedExtends(AfterSteps(t, items[..n]), s.status, StepArtifacts(s));
    }
  }
}
