/** Parallel nodes (pkg/engine/parallel.go). */
module Parallel {
  import opened Json
  import opened Types
  import opened Core
  import opened Fanout
  import Foreach

  function Names(vs: seq<Json>): seq<string> {
    if vs == [] then []
    else Names(vs[..|vs| - 1]) + if vs[|vs| - 1].Str? then [vs[|vs| - 1].s] else []
  }

  function ServiceNames(specs: seq<ExecSpec>): seq<string> {
    seq(|specs|, i requires 0 <= i < |specs| => specs[i].service)
  }

  function Services(node: Node, params: Dict): seq<string> {
    var listed := if node.parallelExecs != [] then ServiceNames(node.parallelExecs) else node.parallelServices;
    if listed != [] then listed
    else if Get(params, "services").Arr? then Names(params["services"].xs)
    else []
  }

  /** The spec map is filled in list order, so the last spec of a service wins. */
  function SpecFor(specs: seq<ExecSpec>, svc: string): Option<ExecSpec> {
    if specs == [] then None
    else if specs[|specs| - 1].service == svc then Some(specs[|specs| - 1])
    else SpecFor(specs[..|specs| - 1], svc)
  }

  function BranchCall(j: NodeInput, svc: string): ExecIn {
    var use := j.node.use.(service := svc);
    match SpecFor(j.node.parallelExecs, svc)
    case None => ExecIn(use, j.key, j.input, j.params)
    case Some(sp) => ExecIn(Foreach.Override(use, sp), j.key, j.input, j.params + sp.params)
  }

  function FanOf(j: NodeInput): (f: Fan)
    ensures ValidFan(f)
  {
    var svcs := Services(j.node, j.params);
    Fan("pl:" + j.key, svcs, seq(|svcs|, i requires 0 <= i < |svcs| => BranchCall(j, svcs[i])), map[])
  }

  function ParallelStep(j: NodeInput, env: Env): Option<Write> {
    if Services(j.node, j.params) == [] then Some(KeepRunning(j, j.shared))
    else FanStep(j, FanOf(j), env)
  }

  method ResolveServices(node: Node, params: Dict) returns (svcs: seq<string>)
    ensures svcs == Services(node, params)
  {
    svcs := node.parallelServices;
    if |node.parallelExecs| > 0 {
      svcs := [];
      for i := 0 to |node.parallelExecs|
        invariant svcs == ServiceNames(node.parallelExecs)[..i]
      {
        svcs := svcs + [node.parallelExecs[i].service];
      }
    }
    if |svcs| == 0 && "services" in params && params["services"].Arr? {
      var vs := params["services"].xs;
      for i := 0 to |vs|
        invariant svcs == Names(vs[..i])
      {
        assert vs[..i + 1][..i] == vs[..i];
        if vs[i].Str? {
          svcs := svcs + [vs[i].s];
        }
      }
      assert vs[..|vs|] == vs;
    }
  }

  method RunParallel(e: Engine, j: NodeInput, env: Env) returns (ok: bool)
    modifies e.db`tasks
    ensures ok == ParallelStep(j, env).Some?
    ensures e.db.tasks == if ok then LandIn(old(e.db.tasks), j.task.id, e.owner, ParallelStep(j, env).value, env.Now())
                          else old(e.db.tasks)
  {
    var svcs := ResolveServices(j.node, j.params);
    if |svcs| == 0 {
      e.Commit(j.task.id, KeepRunning(j, j.shared), env.Now());
      return true;
    }
    ok := RunFan(e, j, FanOf(j), env);
  }
}
