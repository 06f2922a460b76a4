/** Foreach nodes (pkg/engine/foreach.go). */
module Foreach {
  import opened Json
  import opened Util
  import opened Types
  import opened Core
  import opened Fanout

  function Items(input: Json): seq<Json> {
    if input.Arr? then input.xs else []
  }

  function SpecFor(specs: seq<ExecSpec>, idx: int): Option<ExecSpec> {
    if specs == [] then None
    else if specs[0].index == idx then Some(specs[0])
    else SpecFor(specs[1..], idx)
  }

  function Override(use: Use, sp: ExecSpec): Use {
    use.(
      execType := if sp.execType != "" then sp.execType else use.execType,
      fn := if sp.fn != "" then sp.fn else use.fn,
      script := if sp.script.cmd != "" then sp.script else use.script)
  }

  function ItemCall(j: NodeInput, idx: nat, item: Json): ExecIn {
    match SpecFor(j.node.foreachExecs, idx)
    case None => ExecIn(j.node.use, j.key, item, j.params)
    case Some(sp) => ExecIn(Override(j.node.use, sp), j.key, item, j.params + sp.params)
  }

  function FanOf(j: NodeInput): (f: Fan)
    ensures ValidFan(f)
  {
    var items := Items(j.input);
    Fan("fe:" + j.key,
      seq(|items|, i requires 0 <= i < |items| => IndexKey(i)),
      seq(|items|, i requires 0 <= i < |items| => ItemCall(j, i, items[i])),
      map["idx" := Num(0.0)])
  }

  function ForeachStep(j: NodeInput, env: Env): Option<Write> {
    if Items(j.input) == [] then Some(FinishNode(j, j.node.post.actionStatic, j.shared, false))
    else FanStep(j, FanOf(j), env)
  }

  method RunForeach(e: Engine, j: NodeInput, env: Env) returns (ok: bool)
    modifies e.db`tasks
    ensures ok == ForeachStep(j, env).Some?
    ensures e.db.tasks == if ok then LandIn(old(e.db.tasks), j.task.id, e.owner, ForeachStep(j, env).value, env.Now())
                          else old(e.db.tasks)
  {
    if Items(j.input) == [] {
      e.Commit(j.task.id, FinishNode(j, j.node.post.actionStatic, j.shared, false), env.Now());
      return true;
    }
    ok := RunFan(e, j, FanOf(j), env);
  }
}
