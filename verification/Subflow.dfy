/** One step of a subflow node: one sub-node of the embedded flow (pkg/engine/subflow.go). */
module Subflow {
  import opened Json
  import opened Util
  import opened Types
  import opened Core
  import Executor
  import Fanout

  // ---- what a sub-node is called with -----------------------------------------------

  function SpecFor(specs: seq<ExecSpec>, sub: string): Option<ExecSpec> {
    if specs == [] then None
    else if specs[0].node == sub then Some(specs[0])
    else SpecFor(specs[1..], sub)
  }

  function SubUse(node: Node, sub: string, sn: Node): Use {
    var own := Use(sn.use.service,
      if sn.use.execType == "" then node.use.execType else sn.use.execType,
      if sn.use.fn == "" then node.use.fn else sn.use.fn,
      if sn.use.script.cmd == "" && node.use.script.cmd != "" then node.use.script else sn.use.script,
      0);
    match SpecFor(node.subflowExecs, sub)
    case None => own
    case Some(sp) => Use(
      if sp.service != "" then sp.service else own.service,
      if sp.execType != "" then sp.execType else own.execType,
      if sp.fn != "" then sp.fn else own.fn,
      if sp.script.cmd != "" then sp.script else own.script,
      0)
  }

  function SubParams(j: NodeInput, sub: string, sn: Node): Dict {
    var base := j.params + sn.params;
    match SpecFor(j.node.subflowExecs, sub)
    case None => base
    case Some(sp) => base + sp.params
  }

  function SubRef(path: string, params: Dict, subShared: Dict): Json {
    if HasPrefix(path, "$params.") then Get(params, path[8..]) else Get(subShared, path)
  }

  function SubInput(sn: Node, params: Dict, subShared: Dict): Json {
    match sn.prep.inputMap
    case Some(m) => Obj(map k | k in m :: SubRef(m[k], params, subShared))
    case None => if sn.prep.inputKey == "" then Null else SubRef(sn.prep.inputKey, params, subShared)
  }

  function SubCall(j: NodeInput, flow: Flow, sub: string, subShared: Dict): ExecIn {
    var sn := NodeAt(flow, sub);
    var params := SubParams(j, sub, sn);
    ExecIn(SubUse(j.node, sub, sn), j.key, SubInput(sn, params, subShared), params)
  }

  // ---- the persisted record ---------------------------------------------------------

  function FreshSub(flow: Flow): Dict {
    map["curr" := Str(flow.start), "shared" := Obj(map[]), "last" := Str("")]
  }

  predicate Waiting(node: Node, sf: Dict, nowMs: int) {
    node.failureStrategy == "retry" && AsInt(Get(sf, "next_try_at")) > 0 && nowMs < AsInt(Get(sf, "next_try_at"))
  }

  function CountRetry(node: Node, sf: Dict, nowMs: int): Dict {
    var counted := sf["retries" := Num((AsInt(Get(sf, "retries")) + 1) as real)];
    if node.waitMs > 0 then counted["next_try_at" := Num((nowMs + node.waitMs) as real)] else counted
  }

  predicate MayRetry(node: Node, counted: Dict) {
    node.failureStrategy == "retry"
    && !(node.maxRetries > 0 && AsInt(Get(counted, "retries")) >= node.maxRetries)
  }

  /** A nil map reads as empty but can not be written: None is the panic. */
  function SubOutputs(post: Post, res: Json, subShared: Json): Option<Json> {
    var writes := post.outputKey != "" || (post.outputMap.Some? && res.Obj? && post.outputMap.value != map[]);
    if subShared.Obj? then Some(Obj(Executor.WithOutputs(post, res, subShared.m)))
    else if writes then None
    else Some(Null)
  }

  function EndSubflow(j: NodeInput, subShared: Json, failed: bool): Write {
    var shared := SetOutput(j.shared, j.node.post.outputKey, subShared);
    FinishNode(j, Executor.ActionOf(j.node.post, subShared),
      DropEntry(shared, RtOf(j.shared), "sf:" + j.key), failed)
  }

  function MapOrNull(v: Json): Json {
    if v.Obj? then v else Null
  }

  function SubflowStep(j: NodeInput, env: Env): Option<Write>
    requires j.node.subflow.Some?
  {
    var flow := j.node.subflow.value;
    var key := "sf:" + j.key;
    var sf := Fanout.EntryOf(j.shared, key, FreshSub(flow));
    var curr, subShared := AsStr(Get(sf, "curr")), MapOrNull(Get(sf, "shared"));
    if Waiting(j.node, sf, env.nowMs) then Some(KeepRunning(j, PutEntry(j.shared, key, sf)))
    else if curr == "" then Some(FinishNode(j, j.node.post.actionStatic, j.shared, false))
    else
      match env.exec(0, SubCall(j, flow, curr, AsObj(subShared)))
      case Pending => Some(Suspend(j, j.shared))
      case Err(_, _) =>
        var counted := CountRetry(j.node, sf, env.nowMs);
        if MayRetry(j.node, counted) then Some(KeepRunning(j, PutEntry(j.shared, key, counted)))
        else Some(EndSubflow(j, subShared, j.node.failureStrategy != "continue"))
      case Ok(v) =>
        var post := NodeAt(flow, curr).post;
        match SubOutputs(post, v, subShared)
        case None => None
        case Some(sub') =>
          var next := FindNext(flow.edges, curr, Executor.ActionOf(post, v));
          if next == "" then Some(EndSubflow(j, sub', false))
          else Some(KeepRunning(j, PutEntry(j.shared, key, sf["curr" := Str(next)]["shared" := sub'])))
  }

  method HandleRetry(e: Engine, j: NodeInput, env: Env, sf0: Dict) returns (scheduled: bool)
    requires j.node.failureStrategy == "retry"
    modifies e.db`tasks
    ensures scheduled == MayRetry(j.node, CountRetry(j.node, sf0, env.nowMs))
    ensures e.db.tasks ==
      if scheduled then
        LandIn(old(e.db.tasks), j.task.id, e.owner,
          KeepRunning(j, PutEntry(j.shared, "sf:" + j.key, CountRetry(j.node, sf0, env.nowMs))), env.Now())
      else old(e.db.tasks)
  {
    var sf := sf0;
    var rcount := AsInt(Get(sf, "retries"));
    rcount := rcount + 1;
    sf := sf["retries" := Num(rcount as real)];
    if j.node.waitMs > 0 {
      sf := sf["next_try_at" := Num((env.nowMs + j.node.waitMs) as real)];
    }
    if j.node.maxRetries > 0 && rcount >= j.node.maxRetries {
      return false;
    }
    e.Commit(j.task.id, KeepRunning(j, PutEntry(j.shared, "sf:" + j.key, sf)), env.Now());
    scheduled := true;
  }

  method RunSubflow(e: Engine, j: NodeInput, env: Env) returns (ok: bool)
    requires j.node.subflow.Some?
    modifies e.db`tasks
    ensures ok == SubflowStep(j, env).Some?
    ensures e.db.tasks == if ok then LandIn(old(e.db.tasks), j.task.id, e.owner, SubflowStep(j, env).value, env.Now())
                          else old(e.db.tasks)
  {
    var flow := j.node.subflow.value;
    var key := "sf:" + j.key;
    var sf := Fanout.EntryOf(j.shared, key, FreshSub(flow));
    var curr, subShared := AsStr(Get(sf, "curr")), MapOrNull(Get(sf, "shared"));
    if Waiting(j.node, sf, env.nowMs) {
      e.Commit(j.task.id, KeepRunning(j, PutEntry(j.shared, key, sf)), env.Now());
      return true;
    }
    if curr == "" {
      e.Commit(j.task.id, FinishNode(j, j.node.post.actionStatic, j.shared, false), env.Now());
      return true;
    }
    var out := env.exec(0, SubCall(j, flow, curr, AsObj(subShared)));
    if out.Pending? {
      e.Commit(j.task.id, Suspend(j, j.shared), env.Now());
      return true;
    }
    if out.Err? {
      var scheduled := false;
      if j.node.failureStrategy == "retry" {
        scheduled := HandleRetry(e, j, env, sf);
      }
      if !scheduled {
        e.Commit(j.task.id, EndSubflow(j, subShared, j.node.failureStrategy != "continue"), env.Now());
      }
      return true;
    }
    var post := NodeAt(flow, curr).post;
    var after := SubOutputs(post, out.value, subShared);
    if after.None? {
      return false;
    }
    var next := FindNext(flow.edges, curr, Executor.ActionOf(post, out.value));
    if next == "" {
      e.Commit(j.task.id, EndSubflow(j, after.value, false), env.Now());
      return true;
    }
    sf := sf["curr" := Str(next)];
    sf := sf["shared" := after.value];
    e.Commit(j.task.id, KeepRunning(j, PutEntry(j.shared, key, sf)), env.Now());
    ok := true;
  }
}
