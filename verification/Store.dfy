/** The task, run and queue tables (pkg/store/sqlstore/sqlite.go); each method is one atomic statement
    or transaction, and `now` is the clock it reads. */
module Store {
  import opened Json
  import opened Types

  // ---- row operations ---------------------------------------------------------------

  function WithStatus(t: Task, status: string, now: int): Task {
    t.(status := status, updatedAt := now)
  }

  function WithProgress(t: Task, cursor: string, action: string, shared: Dict, steps: int, now: int): Task {
    t.(cursor := cursor, lastAction := action, shared := shared, steps := steps, updatedAt := now)
  }

  /** The fence of the owned updates: the lease is held and has not expired. */
  predicate Owns(t: Task, owner: string, now: int) {
    t.leaseOwner == owner && t.leaseExpiry > now
  }

  predicate LeaseFree(t: Task, now: int) {
    t.leaseExpiry == 0 || t.leaseExpiry < now
  }

  predicate Leasable(t: Task, now: int) {
    (t.status == "pending" || t.status == "running") && LeaseFree(t, now)
  }

  function Leased(t: Task, owner: string, ttl: int, now: int): Task {
    t.(leaseOwner := owner, leaseExpiry := now + ttl, status := "running")
  }

  function Extended(t: Task, owner: string, ttl: int, now: int): Task {
    if t.leaseOwner == owner then t.(leaseExpiry := now + ttl) else t
  }

  /** A new row: pending, at the start of its flow, with an empty state and no lease. */
  function NewTask(id: string, flowId: string, params: Dict, start: string, now: int): Task {
    Task(id, flowId, "pending", params, map[], start, "", 0, "", 0, now)
  }

  predicate Oldest(tasks: map<string, Task>, now: int, id: string) {
    && id in tasks && Leasable(tasks[id], now)
    && forall k | k in tasks && Leasable(tasks[k], now) :: tasks[id].updatedAt <= tasks[k].updatedAt
  }

  lemma {:induction false} OldestExists(tasks: map<string, Task>, now: int, ids: set<string>) returns (id: string)
    requires ids != {} && forall k | k in ids :: k in tasks
    ensures id in ids && forall k | k in ids :: tasks[id].updatedAt <= tasks[k].updatedAt
  {
    id :| id in ids;
    if ids != {id} {
      var rest := OldestExists(tasks, now, ids - {id});
      if tasks[rest].updatedAt < tasks[id].updatedAt {
        id := rest;
      }
    }
  }

  /** The queue entry a poll claims: the first of the oldest pending ones among the services. */
  predicate Claimable(e: QueueTask, services: seq<string>) {
    e.status == "pending" && e.service in services
  }

  predicate ClaimTarget(queue: seq<QueueTask>, services: seq<string>, q: nat) {
    && q < |queue| && Claimable(queue[q], services)
    && forall i | 0 <= i < |queue| && Claimable(queue[i], services) :: queue[q].createdAt <= queue[i].createdAt
  }

  lemma {:induction false} ClaimTargetExists(queue: seq<QueueTask>, services: seq<string>, n: nat)
    returns (q: nat)
    requires n <= |queue| && exists i | 0 <= i < n :: Claimable(queue[i], services)
    ensures ClaimTarget(queue[..n], services, q)
  {
    if exists i | 0 <= i < n - 1 :: Claimable(queue[i], services) {
      q := ClaimTargetExists(queue, services, n - 1);
      if Claimable(queue[n - 1], services) && queue[n - 1].createdAt < queue[q].createdAt {
        q := n - 1;
      }
    } else {
      q := n - 1;
    }
  }

  // ---- tables -----------------------------------------------------------------------

  class Tables {
    var tasks: map<string, Task>
    var flows: map<string, Flow>
    var runs: seq<NodeRun>
    var queue: seq<QueueTask>

    constructor ()
      ensures tasks == map[] && flows == map[] && runs == [] && queue == []
    {
      tasks, flows, runs, queue := map[], map[], [], [];
    }

    method CreateTask(id: string, flowId: string, params: Dict, start: string, now: int)
      requires id !in tasks
      modifies this`tasks
      ensures tasks == old(tasks)[id := NewTask(id, flowId, params, start, now)]
    {
      tasks := tasks[id := NewTask(id, flowId, params, start, now)];
    }

    /** A pending or running row whose expiry is zero or has passed is leased, one with the oldest update among them; if
        there is any, one is. */
    method LeaseNextTask(owner: string, ttl: int, now: int) returns (r: Option<string>)
      modifies this`tasks
      ensures forall k | k in old(tasks) ::
        && (old(tasks)[k].status == "pending" || old(tasks)[k].status == "running")
        && (old(tasks)[k].leaseExpiry == 0 || old(tasks)[k].leaseExpiry < now)
        ==> r.Some?
      ensures match r
        case None => tasks == old(tasks)
        case Some(id) =>
          && Oldest(old(tasks), now, id)
          && var t := old(tasks)[id];
             && (t.status == "pending" || t.status == "running") && (t.leaseExpiry == 0 || t.leaseExpiry < now)
             && tasks == old(tasks)[id := t.(leaseOwner := owner, leaseExpiry := now + ttl, status := "running")]
    {
      var live := set k | k in tasks && (tasks[k].status == "pending" || tasks[k].status == "running");
      var ids := set k | k in live && (tasks[k].leaseExpiry == 0 || tasks[k].leaseExpiry < now);
      assert forall k | k in tasks && Leasable(tasks[k], now) :: k in live && k in ids;
      if ids == {} {
        return None;
      }
      ghost var w := OldestExists(tasks, now, ids);
      assert Oldest(tasks, now, w);
      var id :| id in tasks && Oldest(tasks, now, id);
      tasks := tasks[id := tasks[id].(leaseOwner := owner, leaseExpiry := now + ttl, status := "running")];
      r := Some(id);
    }

    method ExtendLease(id: string, owner: string, ttl: int, now: int)
      modifies this`tasks
      ensures tasks == if id in old(tasks) then old(tasks)[id := Extended(old(tasks)[id], owner, ttl, now)]
                       else old(tasks)
    {
      if id in tasks && tasks[id].leaseOwner == owner {
        tasks := tasks[id := tasks[id].(leaseExpiry := now + ttl)];
      }
    }

    method UpdateTaskStatus(id: string, status: string, now: int)
      modifies this`tasks
      ensures tasks == if id in old(tasks) then old(tasks)[id := WithStatus(old(tasks)[id], status, now)]
                       else old(tasks)
    {
      if id in tasks {
        tasks := tasks[id := tasks[id].(status := status, updatedAt := now)];
      }
    }

    method UpdateTaskStatusOwned(id: string, owner: string, status: string, now: int)
      modifies this`tasks
      ensures tasks == if id in old(tasks) && Owns(old(tasks)[id], owner, now)
                       then old(tasks)[id := WithStatus(old(tasks)[id], status, now)] else old(tasks)
    {
      if id in tasks && tasks[id].leaseOwner == owner && tasks[id].leaseExpiry > now {
        tasks := tasks[id := tasks[id].(status := status, updatedAt := now)];
      }
    }

    method UpdateTaskProgress(id: string, cursor: string, action: string, shared: Dict, steps: int, now: int)
      modifies this`tasks
      ensures tasks == if id in old(tasks)
                       then old(tasks)[id := WithProgress(old(tasks)[id], cursor, action, shared, steps, now)]
                       else old(tasks)
    {
      if id in tasks {
        var t := tasks[id];
        t := t.(cursor := cursor, lastAction := action, shared := shared, steps := steps, updatedAt := now);
        tasks := tasks[id := t];
      }
    }

    method UpdateTaskProgressOwned(id: string, owner: string, cursor: string, action: string, shared: Dict,
        steps: int, now: int)
      modifies this`tasks
      ensures tasks == if id in old(tasks) && Owns(old(tasks)[id], owner, now)
                       then old(tasks)[id := WithProgress(old(tasks)[id], cursor, action, shared, steps, now)]
                       else old(tasks)
    {
      if id in tasks && tasks[id].leaseOwner == owner && tasks[id].leaseExpiry > now {
        var t := tasks[id];
        t := t.(cursor := cursor, lastAction := action, shared := shared, steps := steps, updatedAt := now);
        tasks := tasks[id := t];
      }
    }

    method CreateNodeRun(r: NodeRun) returns (id: nat)
      modifies this`runs
      ensures id == |old(runs)| && runs == old(runs) + [r]
    {
      id := |runs|;
      runs := runs + [r];
    }

    method UpdateNodeRun(id: nat, status: string, result: Option<(Json, string)>)
      modifies this`runs
      ensures runs == if id < |old(runs)| then old(runs)[id := RunUpdated(old(runs)[id], status, result)] else old(runs)
    {
      if id < |runs| {
        var r := runs[id].(status := status);
        if result.Some? {
          r := r.(output := result.value.0, errorText := result.value.1);
        }
        runs := runs[id := r];
      }
    }

    method EnqueueTask(e: QueueTask) returns (id: nat)
      modifies this`queue
      ensures id == |old(queue)| && queue == old(queue) + [e]
    {
      id := |queue|;
      queue := queue + [e];
    }

    /** A pending entry of one of the services is claimed, one with the oldest creation among them; if there is any, one
        is. */
    method PollQueue(worker: string, services: seq<string>) returns (r: Option<nat>)
      modifies this`queue
      ensures forall i | 0 <= i < |old(queue)| ::
        old(queue)[i].status == "pending" && old(queue)[i].service in services ==> r.Some?
      ensures match r
        case None => queue == old(queue)
        case Some(q) =>
          && ClaimTarget(old(queue), services, q)
          && var e := old(queue)[q];
             && e.status == "pending" && e.service in services
             && queue == old(queue)[q := e.(status := "claimed", workerId := worker)]
    {
      if !exists i | 0 <= i < |queue| :: queue[i].status == "pending" && queue[i].service in services {
        return None;
      }
      assert exists i | 0 <= i < |queue| :: Claimable(queue[i], services);
      ghost var w := ClaimTargetExists(queue, services, |queue|);
      assert queue[..|queue|] == queue;
      var q: nat :| q < |queue| && ClaimTarget(queue, services, q);
      queue := queue[q := queue[q].(status := "claimed", workerId := worker)];
      r := Some(q);
    }

    method CompleteQueueTask(q: nat) returns (taskId: Option<string>)
      modifies this`queue
      ensures q >= |old(queue)| ==> taskId == None && queue == old(queue)
      ensures q < |old(queue)| ==>
                && taskId == Some(old(queue)[q].taskId)
                && queue == old(queue)[q := old(queue)[q].(status := "completed")]
    {
      if q >= |queue| {
        return None;
      }
      taskId := Some(queue[q].taskId);
      queue := queue[q := queue[q].(status := "completed")];
    }
  }

  function Claimed(e: QueueTask, worker: string): QueueTask {
    e.(status := "claimed", workerId := worker)
  }

  function RunUpdated(r: NodeRun, status: string, result: Option<(Json, string)>): NodeRun {
    match result
    case None => r.(status := status)
    case Some((output, errorText)) => r.(status := status, output := output, errorText := errorText)
  }
}
