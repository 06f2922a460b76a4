/** Executor nodes and their retry loop (pkg/engine/executor.go). */
module Executor {
  import opened Json
  import opened Util
  import opened Types
  import opened Core

  datatype LoopEnd = LoopEnd(out: Outcome, attempts: nat)

  predicate Retries(out: Outcome, attempt: nat, maxRetries: int) {
    out.Err? && !out.fatal && attempt <= maxRetries
  }

  function RetryLoop(exec: Oracle, call: ExecIn, maxRetries: int, attempt: nat): LoopEnd
    decreases maxRetries - attempt
  {
    var r := exec(attempt, call);
    if Retries(r, attempt, maxRetries) then RetryLoop(exec, call, maxRetries, attempt + 1)
    else LoopEnd(r, attempt)
  }

  /** The loop stops at the first attempt that does not fail retryably, or after max(0, maxRetries) + 1 attempts;
      every attempt before the last failed. */
  lemma {:induction false} RetryLoopEnds(exec: Oracle, call: ExecIn, maxRetries: int, attempt: nat)
    ensures var e := RetryLoop(exec, call, maxRetries, attempt);
      && attempt <= e.attempts
      && e.out == exec(e.attempts, call)
      && (forall k: nat | attempt <= k < e.attempts :: exec(k, call).Err? && !exec(k, call).fatal)
      && (e.out.Err? && !e.out.fatal ==> e.attempts > maxRetries)
      && (e.attempts > attempt ==> e.attempts <= maxRetries + 1)
    decreases maxRetries - attempt
  {
    var r := exec(attempt, call);
    if Retries(r, attempt, maxRetries) {
      RetryLoopEnds(exec, call, maxRetries, attempt + 1);
    }
  }

  function CallOf(j: NodeInput): ExecIn {
    ExecIn(j.node.use, j.key, j.input, j.params)
  }

  /** Output mapping, then the output key. */
  function WithOutputs(post: Post, res: Json, shared: Dict): Dict {
    var mapped :=
      if post.outputMap.Some? && res.Obj? then
        shared + map k | k in post.outputMap.value :: Get(res.m, post.outputMap.value[k])
      else shared;
    SetOutput(mapped, post.outputKey, res)
  }

  function ActionOf(post: Post, res: Json): string {
    if post.actionStatic != "" then post.actionStatic
    else if post.actionKey != "" then PickAction(res, post.actionKey)
    else ""
  }

  function EndOf(j: NodeInput, out: Outcome): Write {
    match out
    case Pending => Suspend(j, j.shared)
    case Ok(v) => FinishNode(j, ActionOf(j.node.post, v), WithOutputs(j.node.post, v, j.shared), false)
    case Err(_, _) => FinishNode(j, "", j.shared, true)
  }

  function ExecutorStep(j: NodeInput, env: Env): Write {
    EndOf(j, RetryLoop(env.exec, CallOf(j), j.node.maxRetries, 1).out)
  }

  /** The row recorded for one finished attempt; results read back from the queue are not recorded again. */
  function AttemptRow(j: NodeInput, attempt: nat, out: Outcome): seq<NodeRun> {
    if out.Pending? || j.node.use.execType == "queue" then []
    else if out.Ok? then [NodeRun(j.task.id, j.key, attempt, "ok", out.value, "", "")]
    else [NodeRun(j.task.id, j.key, attempt, "error", Null, out.msg, "")]
  }

  function AttemptRows(j: NodeInput, exec: Oracle, n: nat): seq<NodeRun> {
    if n == 0 then [] else AttemptRows(j, exec, n - 1) + AttemptRow(j, n, exec(n, CallOf(j)))
  }

  /** Recorded attempts are numbered from one without gaps and all but possibly the last are errors. */
  lemma {:induction false} RecordedAttempts(j: NodeInput, exec: Oracle, n: nat, i: nat)
    requires j.node.use.execType != "queue"
    requires n > 0 && forall k: nat | 1 <= k < n :: exec(k, CallOf(j)).Err?
    ensures |AttemptRows(j, exec, n)| == if exec(n, CallOf(j)).Pending? then n - 1 else n
    ensures i < |AttemptRows(j, exec, n)| ==>
      var r := AttemptRows(j, exec, n)[i];
      && r.attempt == i + 1 && r.taskId == j.task.id && r.nodeKey == j.key
      && (i + 1 < n ==> r.status == "error")
      && (r.status == "ok" <==> exec(i + 1, CallOf(j)).Ok?)
  {
    if n > 1 {
      RecordedAttempts(j, exec, n - 1, i);
    } else {
      assert AttemptRows(j, exec, 0) == [];
    }
  }

  /** Output mapping, action and transition of an executor that has finished. */
  method Conclude(e: Engine, j: NodeInput, out: Outcome, now: int)
    requires !out.Pending?
    modifies e.db`tasks
    ensures e.db.tasks == LandIn(old(e.db.tasks), j.task.id, e.owner, EndOf(j, out), now)
  {
    var action, shared := "", j.shared;
    if out.Ok? {
      var post := j.node.post;
      if post.outputMap.Some? && out.value.Obj? {
        shared := shared + map k | k in post.outputMap.value :: Get(out.value.m, post.outputMap.value[k]);
      }
      if post.outputKey != "" {
        shared := shared[post.outputKey := out.value];
      }
      if post.actionStatic != "" {
        action := post.actionStatic;
      } else if post.actionKey != "" {
        action := PickAction(out.value, post.actionKey);
      }
    }
    e.Commit(j.task.id, FinishNode(j, action, shared, out.Err?), now);
  }

  /** The retry loop: every finished attempt is recorded. */
  method RunAttempts(e: Engine, j: NodeInput, exec: Oracle) returns (out: Outcome, attempts: nat)
    modifies e.db`runs
    ensures LoopEnd(out, attempts) == RetryLoop(exec, CallOf(j), j.node.maxRetries, 1)
    ensures e.db.runs == old(e.db.runs) + AttemptRows(j, exec, attempts)
  {
    attempts := 0;
    while true
      invariant RetryLoop(exec, CallOf(j), j.node.maxRetries, 1)
             == RetryLoop(exec, CallOf(j), j.node.maxRetries, attempts + 1)
      invariant e.db.runs == old(e.db.runs) + AttemptRows(j, exec, attempts)
      decreases j.node.maxRetries - attempts
    {
      attempts := attempts + 1;
      out := exec(attempts, CallOf(j));
      if out == Pending {
        return;
      }
      if j.node.use.execType != "queue" {
        var _ := e.db.CreateNodeRun(AttemptRow(j, attempts, out)[0]);
      }
      if out.Ok? || out.fatal || attempts > j.node.maxRetries {
        return;
      }
    }
  }

  method RunExecutorNode(e: Engine, j: NodeInput, env: Env)
    modifies e.db`tasks, e.db`runs
    ensures e.db.tasks == LandIn(old(e.db.tasks), j.task.id, e.owner, ExecutorStep(j, env), env.Now())
    ensures e.db.runs == old(e.db.runs)
      + AttemptRows(j, env.exec, RetryLoop(env.exec, CallOf(j), j.node.maxRetries, 1).attempts)
  {
    var out, attempts := RunAttempts(e, j, env.exec);
    if out == Pending {
      e.Commit(j.task.id, Suspend(j, j.shared), env.Now());
      return;
    }
    Conclude(e, j, out, env.Now());
  }
}
