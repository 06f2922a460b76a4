/** Nodes that wait for the clock or for a person: pkg/engine/timer.go, wait_event.go and approval.go.
    One clock reading stands for the readings of a step. */
module Waiting {
  import opened Json
  import opened Util
  import opened Expr
  import opened Types
  import opened Core

  function StartEntry(nowMs: int): Dict {
    map["start" := Num(nowMs as real)]
  }

  // ---- timer ------------------------------------------------------------------------

  predicate Due(j: NodeInput, entry: Dict, nowMs: int) {
    var delay := AsInt(Get(j.params, "delay_ms"));
    delay <= 0 || nowMs - AsInt(Get(entry, "start")) >= delay
  }

  function TimerStep(j: NodeInput, env: Env): Write {
    var key := "tm:" + j.key;
    var rt := RtOf(j.shared);
    var tm := Get(rt, key);
    if !tm.Obj? then KeepRunning(j, PutEntry(j.shared, key, StartEntry(env.nowMs)))
    else if Due(j, tm.m, env.nowMs) then
      FinishNode(j, j.node.post.actionStatic,
        DropEntry(SetOutput(j.shared, j.node.post.outputKey, j.input), rt, key), false)
    else KeepRunning(j, j.shared)
  }

  method RunTimer(e: Engine, j: NodeInput, env: Env)
    modifies e.db`tasks
    ensures e.db.tasks == LandIn(old(e.db.tasks), j.task.id, e.owner, TimerStep(j, env), env.Now())
  {
    var shared := j.shared;
    var rt := RtOf(shared);
    var key := "tm:" + j.key;
    var now := env.nowMs;
    if key !in rt || !rt[key].Obj? {
      rt := rt[key := Obj(map["start" := Num(now as real)])];
      shared := shared["_rt" := Obj(rt)];
      e.Commit(j.task.id, KeepRunning(j, shared), env.Now());
      return;
    }
    var tm := rt[key].m;
    var delay := AsInt(Get(j.params, "delay_ms"));
    var start := AsInt(Get(tm, "start"));
    if delay <= 0 || now - start >= delay {
      if j.node.post.outputKey != "" {
        shared := shared[j.node.post.outputKey := j.input];
      }
      rt := rt - {key};
      if rt == map[] {
        shared := shared - {"_rt"};
      } else {
        shared := shared["_rt" := Obj(rt)];
      }
      e.Commit(j.task.id, FinishNode(j, j.node.post.actionStatic, shared, false), env.Now());
      return;
    }
    e.Commit(j.task.id, KeepRunning(j, shared), env.Now());
  }

  // ---- wait_event -------------------------------------------------------------------

  predicate Signalled(sig: Json) {
    sig != Null && sig != Str("") && sig != Bool(false)
  }

  function Signal(j: NodeInput): Json {
    ResolveRef(AsStr(Get(j.params, "signal_key")), j.shared, j.params, j.input)
  }

  function SignalAction(j: NodeInput, sig: Json): string {
    if j.node.post.actionStatic == "" && j.node.post.actionKey != "" then
      PickAction(Obj(map["signal" := sig]), j.node.post.actionKey)
    else j.node.post.actionStatic
  }

  predicate TimedOut(j: NodeInput, we: Dict, nowMs: int) {
    var timeout := AsInt(Get(j.params, "timeout_ms"));
    timeout > 0 && nowMs - AsInt(Get(we, "start")) >= timeout
  }

  function WaitEventStep(j: NodeInput, env: Env): Write {
    var key := "we:" + j.key;
    var rt := RtOf(j.shared);
    var we := if Get(rt, key).Obj? then rt[key].m else StartEntry(env.nowMs);
    var sig := Signal(j);
    if Signalled(sig) then
      FinishNode(j, SignalAction(j, sig), DropEntry(SetOutput(j.shared, j.node.post.outputKey, sig), rt, key), false)
    else if !TimedOut(j, we, env.nowMs) then KeepRunning(j, PutEntry(j.shared, key, we))
    else if j.node.failureStrategy == "retry" then
      KeepRunning(j, PutEntry(j.shared, key, we["start" := Num(env.nowMs as real)]))
    else
      FinishNode(j, j.node.post.actionStatic, DropEntry(j.shared, rt, key), j.node.failureStrategy != "continue")
  }

  method RunWaitEvent(e: Engine, j: NodeInput, env: Env)
    modifies e.db`tasks
    ensures e.db.tasks == LandIn(old(e.db.tasks), j.task.id, e.owner, WaitEventStep(j, env), env.Now())
  {
    var shared := j.shared;
    var rt := RtOf(shared);
    var key := "we:" + j.key;
    var we := map["start" := Num(env.nowMs as real)];
    if key in rt && rt[key].Obj? {
      we := rt[key].m;
    }
    var sig := Signal(j);
    var timeout := AsInt(Get(j.params, "timeout_ms"));
    if sig != Null && sig != Str("") && sig != Bool(false) {
      if j.node.post.outputKey != "" {
        shared := shared[j.node.post.outputKey := sig];
      }
      e.Commit(j.task.id, FinishNode(j, SignalAction(j, sig), DropEntry(shared, rt, key), false), env.Now());
      return;
    }
    if timeout > 0 && env.nowMs - AsInt(Get(we, "start")) >= timeout {
      if j.node.failureStrategy == "retry" {
        we := we["start" := Num(env.nowMs as real)];
        rt := rt[key := Obj(we)];
        shared := shared["_rt" := Obj(rt)];
        e.Commit(j.task.id, KeepRunning(j, shared), env.Now());
        return;
      }
      shared := DropEntry(shared, rt, key);
      if j.node.failureStrategy == "continue" {
        e.Commit(j.task.id, FinishNode(j, j.node.post.actionStatic, shared, false), env.Now());
        return;
      }
      e.Commit(j.task.id, FinishNode(j, j.node.post.actionStatic, shared, true), env.Now());
      return;
    }
    rt := rt[key := Obj(we)];
    shared := shared["_rt" := Obj(rt)];
    e.Commit(j.task.id, KeepRunning(j, shared), env.Now());
  }

  // ---- approval ---------------------------------------------------------------------

  function ApprovalValue(j: NodeInput): Json {
    ResolveRef(AsStr(Get(j.params, "approval_key")), j.shared, j.params, j.input)
  }

  function ApprovalAction(j: NodeInput, val: Json): string {
    if j.node.post.actionKey != "" then PickAction(Obj(map["approval" := val]), j.node.post.actionKey)
    else if val.Bool? then if val.b then "approved" else "rejected"
    else if val.Str? && val.s != "" then val.s
    else j.node.post.actionStatic
  }

  function ApprovalStep(j: NodeInput): Write {
    var key := "ap:" + j.key;
    var rt := RtOf(j.shared);
    var val := ApprovalValue(j);
    if val != Null && val != Str("") then
      FinishNode(j, ApprovalAction(j, val), DropEntry(SetOutput(j.shared, j.node.post.outputKey, val), rt, key), false)
    else KeepRunning(j, PutEntry(j.shared, key, AsObj(Get(rt, key))))
  }

  method RunApproval(e: Engine, j: NodeInput, env: Env)
    modifies e.db`tasks
    ensures e.db.tasks == LandIn(old(e.db.tasks), j.task.id, e.owner, ApprovalStep(j), env.Now())
  {
    var shared := j.shared;
    var rt := RtOf(shared);
    var key := "ap:" + j.key;
    var ap: Dict := map[];
    if key in rt && rt[key].Obj? {
      ap := rt[key].m;
    }
    var val := ApprovalValue(j);
    var decided := false;
    var action := j.node.post.actionStatic;
    if val != Null && val != Str("") {
      decided := true;
      if j.node.post.actionKey != "" {
        action := PickAction(Obj(map["approval" := val]), j.node.post.actionKey);
      } else if val.Bool? {
        action := if val.b then "approved" else "rejected";
      } else if val.Str? && val.s != "" {
        action := val.s;
      }
    }
    if decided {
      if j.node.post.outputKey != "" {
        shared := shared[j.node.post.outputKey := val];
      }
      e.Commit(j.task.id, FinishNode(j, action, DropEntry(shared, rt, key), false), env.Now());
      return;
    }
    rt := rt[key := Obj(ap)];
    shared := shared["_rt" := Obj(rt)];
    e.Commit(j.task.id, KeepRunning(j, shared), env.Now());
  }
}
