/** RunOnce: one step of one task (pkg/engine/core.go). */
module Step {
  import opened Json
  import opened Types
  import opened Core
  import Executor
  import Choice
  import Waiting
  import Foreach
  import Parallel
  import Subflow

  /** What the node under the cursor does; None is a panic, which writes nothing. */
  function NodeStep(j: NodeInput, env: Env): Option<Write> {
    var kind := j.node.kind;
    if kind == "choice" then Some(Choice.ChoiceStep(j, env))
    else if kind == "parallel" then Parallel.ParallelStep(j, env)
    else if kind == "subflow" && j.node.subflow.Some? then Subflow.SubflowStep(j, env)
    else if kind == "timer" then Some(Waiting.TimerStep(j, env))
    else if kind == "foreach" then Foreach.ForeachStep(j, env)
    else if kind == "wait_event" then Some(Waiting.WaitEventStep(j, env))
    else if kind == "approval" then Some(Waiting.ApprovalStep(j))
    else Some(Executor.ExecutorStep(j, env))
  }

  /** Every other kind is an executor node. */
  predicate PlainKind(kind: string) {
    kind !in ["choice", "parallel", "subflow", "timer", "foreach", "wait_event", "approval"]
  }

  function StepWrite(def: Flow, t: Task, env: Env): Option<Write> {
    if t.status == "canceling" then Some(CancelTask(t)) else NodeStep(InputOf(def, t), env)
  }

  /** The row after a step of an engine that may write it. */
  function Advance(def: Flow, t: Task, env: Env): Task {
    match StepWrite(def, t, env)
    case None => t
    case Some(w) => Land(t, w, env.Now())
  }

  datatype RunResult = Done | NoRow | LeaseMismatch | LeaseExpired | NoFlow | Panicked

  function RunCheck(tasks: map<string, Task>, flows: map<string, Flow>, id: string, owner: string, env: Env): RunResult
  {
    if id !in tasks then NoRow
    else if owner != "" && tasks[id].leaseOwner != owner then LeaseMismatch
    else if owner != "" && tasks[id].leaseExpiry <= env.Now() then LeaseExpired
    else if tasks[id].status == "canceling" then Done
    else if tasks[id].flowId !in flows then NoFlow
    else if StepWrite(flows[tasks[id].flowId], tasks[id], env).None? then Panicked
    else Done
  }

  function FlowOf(flows: map<string, Flow>, t: Task): Flow {
    if t.flowId in flows then flows[t.flowId] else Flow("", map[], [])
  }

  method RunNode(e: Engine, j: NodeInput, env: Env) returns (ok: bool)
    modifies e.db`tasks, e.db`runs
    ensures ok == NodeStep(j, env).Some?
    ensures e.db.tasks == if ok then LandIn(old(e.db.tasks), j.task.id, e.owner, NodeStep(j, env).value, env.Now())
                          else old(e.db.tasks)
  {
    var kind := j.node.kind;
    ok := true;
    if kind == "choice" {
      Choice.RunChoice(e, j, env);
    } else if kind == "parallel" {
      ok := Parallel.RunParallel(e, j, env);
    } else if kind == "subflow" && j.node.subflow.Some? {
      ok := Subflow.RunSubflow(e, j, env);
    } else if kind == "timer" {
      Waiting.RunTimer(e, j, env);
    } else if kind == "foreach" {
      ok := Foreach.RunForeach(e, j, env);
    } else if kind == "wait_event" {
      Waiting.RunWaitEvent(e, j, env);
    } else if kind == "approval" {
      Waiting.RunApproval(e, j, env);
    } else {
      Executor.RunExecutorNode(e, j, env);
    }
  }

  /** RunOnce changes the one row to its next state when the caller may write it, and nothing otherwise. */
  method RunOnce(e: Engine, id: string, env: Env) returns (r: RunResult)
    requires id in e.db.tasks ==> e.db.tasks[id].id == id
    modifies e.db`tasks, e.db`runs
    ensures r == RunCheck(old(e.db.tasks), e.db.flows, id, e.owner, env)
    ensures e.db.tasks == if r == Done
      then old(e.db.tasks)[id := Advance(FlowOf(e.db.flows, old(e.db.tasks)[id]), old(e.db.tasks)[id], env)]
      else old(e.db.tasks)
  {
    if id !in e.db.tasks {
      return NoRow;
    }
    var t := e.db.tasks[id];
    if e.owner != "" {
      if t.leaseOwner != e.owner {
        return LeaseMismatch;
      }
      if t.leaseExpiry <= env.Now() {
        return LeaseExpired;
      }
    }
    if t.status == "canceling" {
      e.Commit(id, CancelTask(t), env.Now());
      return Done;
    }
    if t.flowId !in e.db.flows {
      return NoFlow;
    }
    var ok := RunNode(e, InputOf(e.db.flows[t.flowId], t), env);
    r := if ok then Done else Panicked;
  }
}
