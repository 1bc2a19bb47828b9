/**
 * The task store operations inherited from the in-memory task manager base class:
 * upsert, status update and history truncation, as functions on task values.
 */
module TaskStore {
  import opened Wrappers
  import opened A2A

  /** The record a first send creates: SUBMITTED, no artifacts, the sent message as history. */
  function NewTask(p: SendParams): Task {
    Task(p.id, p.sessionId, TaskStatus(Submitted, None), [], [p.message])
  }

  /** `upsert_task`: create the task if its id is new, otherwise keep the stored record. */
  function Upsert(tasks: map<TaskId, Task>, p: SendParams): (r: map<TaskId, Task>)
    ensures r.Keys == tasks.Keys + {p.id}
    ensures p.id in tasks ==> r == tasks
    ensures p.id !in tasks ==>
              && r[p.id].id == p.id && r[p.id].sessionId == p.sessionId
              && r[p.id].status == TaskStatus(Submitted, None)
              && r[p.id].artifacts == [] && r[p.id].history == [p.message]
    ensures forall id :: id in tasks && id != p.id ==> r[id] == tasks[id]
  {
    if p.id in tasks then tasks else tasks[p.id := NewTask(p)]
  }

  /** A second upsert on the same id changes nothing: there is one record per id. */
  lemma UpsertIdempotent(tasks: map<TaskId, Task>, p: SendParams, q: SendParams)
    requires q.id == p.id
    ensures Upsert(Upsert(tasks, p), q) == Upsert(tasks, p)
  {
  }

  /** `update_store` on one task: replace the status, append its message to the history, append the artifacts. */
  function Updated(t: Task, status: TaskStatus, artifacts: Option<seq<Artifact>>): Task {
    t.(status := status,
       history := t.history + (if status.message.Some? then [status.message.value] else []),
       artifacts := t.artifacts + artifacts.GetOr([]))
  }

  /**
   * An update keeps the task's identity, replaces its status, and extends its
   * artifacts by exactly the given ones and its history by exactly the status message.
   */
  lemma UpdatedExtends(t: Task, status: TaskStatus, artifacts: Option<seq<Artifact>>)
    ensures var u := Updated(t, status, artifacts);
      && u.id == t.id && u.sessionId == t.sessionId && u.status == status
      && |t.artifacts| <= |u.artifacts| && u.artifacts[..|t.artifacts|] == t.artifacts
      && |t.history| <= |u.history| && u.history[..|t.history|] == t.history
      && u.artifacts[|t.artifacts|..] == artifacts.GetOr([])
      && u.history[|t.history|..] == (if status.message.Some? then [status.message.value] else [])
  {
  }

  /**
   * `append_task_history`: the returned copy keeps only the last `historyLength`
   * history entries when that length is positive, and all of them otherwise.
   */
  function AppendTaskHistory(t: Task, historyLength: Option<int>): (r: Task)
    ensures r.(history := t.history) == t
    ensures historyLength.Some? && historyLength.value > 0 ==>
              |r.history| == if historyLength.value < |t.history| then historyLength.value else |t.history|
    ensures historyLength.None? || historyLength.value <= 0 ==> r.history == t.history
    ensures |r.history| <= |t.history|
    ensures forall i :: 0 <= i < |r.history| ==> r.history[i] == t.history[|t.history| - |r.history| + i]
  {
    match historyLength
    case Some(n) =>
      if 0 < n < |t.history| then t.(history := t.history[|t.history| - n..]) else t
    case None => t
  }

  /** Truncating twice to the same length is truncating once. */
  lemma AppendTaskHistoryIdempotent(t: Task, historyLength: Option<int>)
    ensures AppendTaskHistory(AppendTaskHistory(t, historyLength), historyLength) == AppendTaskHistory(t, historyLength)
  {
  }

  /** With a limit of 2, a task with 5 history entries comes back with exactly the last 2, in order. */
  lemma LastTwoOfFive(t: Task)
    requires |t.history| == 5
    ensures AppendTaskHistory(t, Some(2)).history == [t.history[3], t.history[4]]
  {
  }
}
