/** Queue executors (pkg/engine/executor_queue.go), the retry loop around them, and the handlers pull workers
    call (pkg/server/server.go). */
module Queue {
  import opened Json
  import opened Types
  import opened Store
  import opened Core
  import Executor

  // ---- the run history --------------------------------------------------------------

  predicate Concerns(r: NodeRun, taskId: string, key: string) {
    r.taskId == taskId && r.nodeKey == key
  }

  /** ListNodeRuns: the runs of a task, oldest first. */
  function RunsOf(runs: seq<NodeRun>, taskId: string): seq<NodeRun> {
    if runs == [] then []
    else
      var n := |runs| - 1;
      RunsOf(runs[..n], taskId) + if runs[n].taskId == taskId then [runs[n]] else []
  }

  function LastOf(list: seq<NodeRun>, key: string): Option<NodeRun> {
    if list == [] then None
    else
      var n := |list| - 1;
      if list[n].nodeKey == key then Some(list[n]) else LastOf(list[..n], key)
  }

  /** Run i is the latest one of the task and the node. */
  ghost predicate Latest(runs: seq<NodeRun>, taskId: string, key: string, i: nat) {
    && i < |runs| && Concerns(runs[i], taskId, key)
    && forall k | i < k < |runs| :: !Concerns(runs[k], taskId, key)
  }

  /** The backward scan finds the latest run of the task and the node, and nothing only if there is none. */
  lemma {:induction false} ScanFindsLatest(runs: seq<NodeRun>, taskId: string, key: string, i: nat)
    requires Latest(runs, taskId, key, i)
    ensures LastOf(RunsOf(runs, taskId), key) == Some(runs[i])
  {
    var n := |runs| - 1;
    var rest := RunsOf(runs[..n], taskId);
    if runs[n].taskId == taskId {
      assert (rest + [runs[n]])[..|rest|] == rest;
    } else {
      assert rest + [] == rest;
    }
    if i < n {
      assert !Concerns(runs[n], taskId, key);
      ScanFindsLatest(runs[..n], taskId, key, i);
    }
  }

  lemma {:induction false} ScanFindsNothing(runs: seq<NodeRun>, taskId: string, key: string)
    requires forall k | 0 <= k < |runs| :: !Concerns(runs[k], taskId, key)
    ensures LastOf(RunsOf(runs, taskId), key) == None
  {
    if runs != [] {
      var n := |runs| - 1;
      var rest := RunsOf(runs[..n], taskId);
      ScanFindsNothing(runs[..n], taskId, key);
      if runs[n].taskId == taskId {
        assert (rest + [runs[n]])[..|rest|] == rest;
      } else {
        assert rest + [] == rest;
      }
    }
  }

  // ---- resume or enqueue ------------------------------------------------------------

  /** What the history answers: a result, an error, not yet, or (None) that the node must be enqueued. */
  function Reading(run: Option<NodeRun>): Option<Outcome> {
    match run
    case None => None
    case Some(r) =>
      if r.status == "ok" then Some(Ok(r.output))
      else if r.status == "error" then Some(Err(r.errorText, false))
      else if r.status == "queued" || r.status == "running" then Some(Pending)
      else None
  }

  function Answer(runs: seq<NodeRun>, j: NodeInput): Option<Outcome> {
    Reading(LastOf(RunsOf(runs, j.task.id), j.key))
  }

  function NewRun(j: NodeInput): NodeRun {
    NodeRun(j.task.id, j.key, 1, "queued", Null, "", "queue")
  }

  function NewEntry(j: NodeInput, runId: nat, now: int): QueueTask {
    QueueTask(j.task.id, j.key, j.node.use.service, j.input, j.params, runId, "pending", "", now)
  }

  method ExecQueue(db: Tables, j: NodeInput, now: int) returns (out: Outcome)
    modifies db`runs, db`queue
    ensures var a := Answer(old(db.runs), j);
      && out == (if a.Some? then a.value else Pending)
      && db.runs == (if a.Some? then old(db.runs) else old(db.runs) + [NewRun(j)])
      && db.queue == (if a.Some? then old(db.queue) else old(db.queue) + [NewEntry(j, |old(db.runs)|, now)])
    ensures Answer(old(db.runs), j).None? ==>
      var e := db.queue[|old(db.queue)|];
      && e.taskId == j.task.id && e.nodeKey == j.key && e.service == j.node.use.service
      && e.input == j.input && e.params == j.params && e.runId == |old(db.runs)|
      && e.status == "pending" && e.workerId == "" && e.createdAt == now
  {
    var list := ListNodeRuns(db, j.task.id);
    var i := |list|;
    assert list[..i] == list;
    var last: Option<NodeRun> := None;
    while i > 0 && last.None?
      invariant 0 <= i <= |list|
      invariant LastOf(list, j.key) == if last.Some? then last else LastOf(list[..i], j.key)
      decreases i
    {
      i := i - 1;
      assert list[..i + 1][..i] == list[..i];
      if list[i].nodeKey == j.key {
        last := Some(list[i]);
      }
    }
    if last.Some? {
      var r := last.value;
      if r.status == "ok" {
        return Ok(r.output);
      }
      if r.status == "error" {
        return Err(r.errorText, false);
      }
      if r.status == "queued" || r.status == "running" {
        return Pending;
      }
    }
    var runId := db.CreateNodeRun(NodeRun(j.task.id, j.key, 1, "queued", Null, "", "queue"));
    var _ := db.EnqueueTask(
      QueueTask(j.task.id, j.key, j.node.use.service, j.input, j.params, runId, "pending", "", now));
    out := Pending;
  }

  method ListNodeRuns(db: Tables, taskId: string) returns (list: seq<NodeRun>)
    ensures list == RunsOf(db.runs, taskId)
  {
    var runs := db.runs;
    list := [];
    for i := 0 to |runs|
      invariant list == RunsOf(runs[..i], taskId)
    {
      assert runs[..i + 1][..i] == runs[..i];
      if runs[i].taskId == taskId {
        list := list + [runs[i]];
      }
    }
    assert runs[..|runs|] == runs;
  }

  // ---- one step of a queue node -----------------------------------------------------

  function WriteFor(runs: seq<NodeRun>, j: NodeInput): Write {
    var a := Answer(runs, j);
    Executor.EndOf(j, if a.Some? then a.value else Pending)
  }

  /** A stored error is read again on every retry: maxRetries + 1 times in all, and nothing is enqueued. */
  method RunQueueNode(e: Engine, j: NodeInput, now: int) returns (rereads: nat)
    modifies e.db`tasks, e.db`runs, e.db`queue
    ensures var a := Answer(old(e.db.runs), j);
      && e.db.tasks == LandIn(old(e.db.tasks), j.task.id, e.owner, WriteFor(old(e.db.runs), j), now)
      && e.db.runs == (if a.Some? then old(e.db.runs) else old(e.db.runs) + [NewRun(j)])
      && e.db.queue == (if a.Some? then old(e.db.queue) else old(e.db.queue) + [NewEntry(j, |old(e.db.runs)|, now)])
      && rereads == (if a.Some? && a.value.Err? && j.node.maxRetries > 0 then j.node.maxRetries + 1 else 1)
  {
    rereads := 0;
    var out: Outcome := Pending;
    ghost var a := Answer(e.db.runs, j);
    while true
      invariant e.db.tasks == old(e.db.tasks) && e.db.runs == old(e.db.runs) && e.db.queue == old(e.db.queue)
      invariant rereads > 0 ==> a.Some? && a.value.Err? && rereads <= j.node.maxRetries
      decreases j.node.maxRetries - rereads
    {
      rereads := rereads + 1;
      out := ExecQueue(e.db, j, now);
      if out == Pending {
        e.Commit(j.task.id, Suspend(j, j.shared), now);
        return;
      }
      if out.Ok? || out.fatal || rereads > j.node.maxRetries {
        break;
      }
    }
    Executor.Conclude(e, j, out, now);
  }

  /** The queue is an executor like any other: one that gives every attempt of a step the same answer. */
  lemma {:induction false} QueueIsAnExecutor(runs: seq<NodeRun>, j: NodeInput, exec: Oracle, attempt: nat)
    requires var a := Answer(runs, j);
      forall k: nat :: exec(k, Executor.CallOf(j)) == if a.Some? then a.value else Pending
    ensures Executor.EndOf(j, Executor.RetryLoop(exec, Executor.CallOf(j), j.node.maxRetries, attempt).out)
         == WriteFor(runs, j)
    decreases j.node.maxRetries - attempt
  {
    if Executor.Retries(exec(attempt, Executor.CallOf(j)), attempt, j.node.maxRetries) {
      QueueIsAnExecutor(runs, j, exec, attempt + 1);
    }
  }

  // ---- the handlers -----------------------------------------------------------------

  function OutputOf(result: Json): Json {
    if result == Null then Obj(map[]) else result
  }

  function StatusOf(error: string): string {
    if error == "" then "ok" else "error"
  }

  /** A run with a posted result. */
  function Resulted(r: NodeRun, result: Json, error: string): NodeRun {
    RunUpdated(r, StatusOf(error), Some((OutputOf(result), error)))
  }

  /** What the engine rereads back from a posted result. */
  function Delivered(result: Json, error: string): Outcome {
    if error == "" then Ok(OutputOf(result)) else Err(error, false)
  }

  method HandleQueuePoll(db: Tables, worker: string, services: seq<string>) returns (r: Option<nat>)
    modifies db`queue
    ensures r.None? ==> db.queue == old(db.queue) && forall i | 0 <= i < |db.queue| :: !Claimable(db.queue[i], services)
    ensures r.Some? ==> ClaimTarget(old(db.queue), services, r.value)
    ensures r.Some? ==> db.queue == old(db.queue)[r.value := Claimed(old(db.queue)[r.value], worker)]
  {
    r := db.PollQueue(worker, services);
  }

  /** Three store steps in this order: the entry is completed, the result is stored in the run, the task becomes
      pending. Without a run id the result goes to a new run of the node under the cursor. */
  method HandleQueueComplete(db: Tables, q: nat, runId: Option<nat>, result: Json, error: string, now: int)
    returns (code: nat)
    modifies db`queue, db`runs, db`tasks
    ensures q >= |old(db.queue)| ==> code == 500 && db.queue == old(db.queue)
    ensures q < |old(db.queue)| ==> db.queue == old(db.queue)[q := old(db.queue)[q].(status := "completed")]
    ensures q < |old(db.queue)| && old(db.queue)[q].taskId !in old(db.tasks) ==> code == 404
    ensures code != 200 ==> db.runs == old(db.runs) && db.tasks == old(db.tasks)
    ensures q < |old(db.queue)| && old(db.queue)[q].taskId in old(db.tasks) ==>
      var id := old(db.queue)[q].taskId;
      var t := old(db.tasks)[id];
      && code == 200 && db.tasks == old(db.tasks)[id := WithStatus(t, "pending", now)]
      && match runId
         case Some(i) =>
           db.runs == if i < |old(db.runs)| then old(db.runs)[i := Resulted(old(db.runs)[i], result, error)]
                      else old(db.runs)
         case None =>
           db.runs == old(db.runs)
             + [NodeRun(t.id, t.cursor, 1, StatusOf(error), OutputOf(result), error, "queue-worker")]
  {
    var taskId := db.CompleteQueueTask(q);
    if taskId.None? {
      return 500;
    }
    if taskId.value !in db.tasks {
      return 404;
    }
    var t := db.tasks[taskId.value];
    var status := "ok";
    if error != "" {
      status := "error";
    }
    var output := Obj(map[]);
    if result != Null {
      output := result;
    }
    match runId {
      case Some(i) => db.UpdateNodeRun(i, status, Some((output, error)));
      case None => var _ := db.CreateNodeRun(NodeRun(t.id, t.cursor, 1, status, output, error, "queue-worker"));
    }
    db.UpdateTaskStatus(taskId.value, "pending", now);
    code := 200;
  }
}
