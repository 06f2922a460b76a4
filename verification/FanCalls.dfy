/** What the branches of a fan-out are called with, and what the node makes of their answers, in terms of the list or
    the services themselves (pkg/engine/foreach.go, pkg/engine/parallel.go). */
module FanCalls {
  import opened Json
  import opened Util
  import opened Types
  import opened Core
  import opened FanProgress
  import opened FanVisit
  import opened FanMeaning
  import opened Inputs
  import opened Runs
  import DataFlow
  import Foreach
  import Parallel

  // ---- specs ------------------------------------------------------------------------

  /** A spec replaces what it names of the executor, but not the service; its parameters win. */
  ghost predicate Applied(use: Use, params: Dict, sp: Option<ExecSpec>, use': Use, params': Dict) {
    match sp
    case None => use' == use && params' == params
    case Some(sp) =>
      && use'.service == use.service && use'.maxAttempts == use.maxAttempts
      && use'.execType == (if sp.execType == "" then use.execType else sp.execType)
      && use'.fn == (if sp.fn == "" then use.fn else sp.fn)
      && use'.script == (if sp.script.cmd == "" then use.script else sp.script)
      && params'.Keys == params.Keys + sp.params.Keys
      && forall k | k in params' :: params'[k] == if k in sp.params then sp.params[k] else params[k]
  }

  /** Spec p is the first for the position, or p is past the end and there is none. */
  ghost predicate FirstFor(specs: seq<ExecSpec>, idx: int, p: nat) {
    && p <= |specs| && (p < |specs| ==> specs[p].index == idx)
    && forall q | 0 <= q < p :: specs[q].index != idx
  }

  /** Spec p is the last for the service, or p is -1 and there is none. */
  ghost predicate LastFor(specs: seq<ExecSpec>, svc: string, p: int) {
    && -1 <= p < |specs| && (p >= 0 ==> specs[p].service == svc)
    && forall q | p < q < |specs| :: specs[q].service != svc
  }

  lemma {:induction false} FirstSpecWins(specs: seq<ExecSpec>, idx: int, p: nat)
    requires FirstFor(specs, idx, p)
    ensures Foreach.SpecFor(specs, idx) == if p < |specs| then Some(specs[p]) else None
  {
    if p > 0 {
      assert specs[0].index != idx;
      FirstSpecWins(specs[1..], idx, p - 1);
    }
  }

  lemma {:induction false} LastSpecWins(specs: seq<ExecSpec>, svc: string, p: int)
    requires LastFor(specs, svc, p)
    ensures Parallel.SpecFor(specs, svc) == if p >= 0 then Some(specs[p]) else None
  {
    if specs != [] && p < |specs| - 1 {
      assert specs[|specs| - 1].service != svc;
      LastSpecWins(specs[..|specs| - 1], svc, p);
    }
  }

  // ---- calls ------------------------------------------------------------------------

  ghost predicate ItemSpec(j: NodeInput, i: nat, p: nat, call: ExecIn) {
    var specs := j.node.foreachExecs;
    && FirstFor(specs, i, p)
    && Applied(j.node.use, j.params, if p < |specs| then Some(specs[p]) else None, call.use, call.params)
  }

  ghost predicate ServiceSpec(j: NodeInput, svc: string, p: int, call: ExecIn) {
    var specs := j.node.parallelExecs;
    && LastFor(specs, svc, p)
    && Applied(j.node.use.(service := svc), j.params, if p >= 0 then Some(specs[p]) else None, call.use, call.params)
  }

  /** The call of item i of the list: the item is the input, and the first spec for i applies. */
  ghost predicate ItemCalled(j: NodeInput, xs: seq<Json>, i: nat, call: ExecIn)
    requires i < |xs|
  {
    call.input == xs[i] && call.nodeKey == j.key && exists p: nat :: ItemSpec(j, i, p, call)
  }

  /** The call of a service: the input is that of the node, and the last spec for the service applies. */
  ghost predicate ServiceCalled(j: NodeInput, svc: string, call: ExecIn) {
    call.input == j.input && call.nodeKey == j.key && exists p: int :: ServiceSpec(j, svc, p, call)
  }

  lemma AppliedIs(use: Use, params: Dict, sp: ExecSpec, use': Use, params': Dict)
    requires Applied(use, params, Some(sp), use', params')
    ensures use' == Foreach.Override(use, sp) && params' == params + sp.params
  {
  }

  lemma ItemCallIs(j: NodeInput, xs: seq<Json>, i: nat, call: ExecIn)
    requires j.input == Arr(xs) && i < |xs| && ItemCalled(j, xs, i, call)
    ensures Foreach.FanOf(j).calls[i] == call
  {
    var p: nat :| ItemSpec(j, i, p, call);
    FirstSpecWins(j.node.foreachExecs, i, p);
    if p < |j.node.foreachExecs| {
      AppliedIs(j.node.use, j.params, j.node.foreachExecs[p], call.use, call.params);
    }
  }

  lemma ServiceCallIs(j: NodeInput, svc: string, call: ExecIn)
    requires ServiceCalled(j, svc, call)
    ensures Parallel.BranchCall(j, svc) == call
  {
    var p: int :| ServiceSpec(j, svc, p, call);
    LastSpecWins(j.node.parallelExecs, svc, p);
    if p >= 0 {
      AppliedIs(j.node.use.(service := svc), j.params, j.node.parallelExecs[p], call.use, call.params);
    }
  }

  // ---- services ---------------------------------------------------------------------

  /** The services of a parallel node: those of its specs, else its list, else the parameter of that name. */
  ghost predicate Serves(node: Node, params: Dict, svcs: seq<string>) {
    if node.parallelExecs != [] then
      |svcs| == |node.parallelExecs| && forall i | 0 <= i < |svcs| :: svcs[i] == node.parallelExecs[i].service
    else if node.parallelServices != [] then svcs == node.parallelServices
    else
      var xs := Field(Obj(params), "services");
      xs.Arr? && |svcs| == |xs.xs| && forall i | 0 <= i < |svcs| :: xs.xs[i] == Str(svcs[i])
  }

  lemma {:induction false} NamesAre(vs: seq<Json>, svcs: seq<string>)
    requires |svcs| == |vs| && forall i | 0 <= i < |svcs| :: vs[i] == Str(svcs[i])
    ensures Parallel.Names(vs) == svcs
  {
    if vs != [] {
      var n := |vs| - 1;
      NamesAre(vs[..n], svcs[..n]);
      assert svcs == svcs[..n] + [svcs[n]];
    }
  }

  /** What is no string among the services of the parameter is skipped. */
  lemma {:induction false} NamesSkip(a: seq<Json>, v: Json, b: seq<Json>)
    requires !v.Str?
    ensures Parallel.Names(a + [v] + b) == Parallel.Names(a + b)
  {
    var all := a + [v] + b;
    if b == [] {
      assert all[..|all| - 1] == a == a + b;
    } else {
      var b' := b[..|b| - 1];
      NamesSkip(a, v, b');
      assert all[..|all| - 1] == a + [v] + b' && (a + b)[..|a + b| - 1] == a + b';
    }
  }

  lemma ServicesAre(node: Node, params: Dict, svcs: seq<string>)
    requires Serves(node, params, svcs)
    ensures Parallel.Services(node, params) == svcs
  {
    if node.parallelExecs != [] {
      assert Parallel.ServiceNames(node.parallelExecs) == svcs;
    } else if node.parallelServices == [] {
      NamesAre(params["services"].xs, svcs);
    }
  }

  // ---- the meaning of a visit -------------------------------------------------------

  function ValueOf(out: Outcome): Json {
    if out.Ok? then out.value else Null
  }

  /** The answers to the calls in their order, null for failures. */
  function Answered(oracle: ExecIn -> Outcome, calls: seq<ExecIn>): seq<Json> {
    seq(|calls|, i requires 0 <= i < |calls| => ValueOf(oracle(calls[i])))
  }

  ghost predicate AnyFails(oracle: ExecIn -> Outcome, calls: seq<ExecIn>) {
    exists i | 0 <= i < |calls| :: oracle(calls[i]).Err?
  }

  /** The row has left the node with that list, and only the output and the records have changed; at the end of the flow
      it fails if an answer did and failures are not ignored. */
  ghost predicate LeftWith(def: Flow, t: Task, r: Task, list: seq<Json>, failed: bool) {
    var post := NodeAt(def, t.cursor).post;
    && (post.outputKey != "" && post.outputKey != "_rt" ==> Get(r.shared, post.outputKey) == Arr(list))
    && r.shared - {"_rt", post.outputKey} == t.shared - {"_rt", post.outputKey}
    && r.lastAction == post.actionStatic && r.cursor == FindNext(def.edges, t.cursor, post.actionStatic)
    && r.status == (if r.cursor != "" then "running"
                    else if failed && NodeAt(def, t.cursor).failureStrategy != "continue" then "failed"
                    else "completed")
  }

  lemma MeaningLeaves(def: Flow, t: Task, v: Visit, r: Task, list: seq<Json>, steps: int)
    requires v.j == InputOf(def, t) && Settles(v.out, v.f.keys) && Aggregated(v.out, v.f.keys) == list
    requires Finished(v, r, MeaningShared(v), MeaningFails(v), steps)
    ensures LeftWith(def, t, r, list, AnyErr(v.out, KeySet(v.f.keys)))
  {
    var key := v.j.node.post.outputKey;
    var shared := SetOutput(t.shared, key, Arr(list));
    assert shared - {"_rt", key} == t.shared - {"_rt", key};
    assert r.shared - {"_rt"} == shared - {"_rt"};
    assert r.shared - {"_rt", key} == (r.shared - {"_rt"}) - {key};
    assert shared - {"_rt", key} == (shared - {"_rt"}) - {key};
    if key != "" && key != "_rt" {
      assert key in shared - {"_rt"};
    }
  }

  lemma AggregatedIs(v: Visit, oracle: ExecIn -> Outcome, calls: seq<ExecIn>)
    requires |v.f.keys| == |v.f.calls| && v.f.calls == calls && Settles(v.out, v.f.keys)
    requires forall i | 0 <= i < |v.f.keys| :: v.out[v.f.keys[i]] == oracle(v.f.calls[i])
    ensures Aggregated(v.out, v.f.keys) == Answered(oracle, calls)
    ensures AnyErr(v.out, KeySet(v.f.keys)) <==> AnyFails(oracle, calls)
  {
    if AnyFails(oracle, calls) {
      var i :| 0 <= i < |calls| && oracle(calls[i]).Err?;
      assert v.f.keys[i] in KeySet(v.f.keys);
    }
  }

  ghost predicate ItemsCalled(j: NodeInput, xs: seq<Json>, calls: seq<ExecIn>) {
    |calls| == |xs| && forall i: nat | i < |xs| :: ItemCalled(j, xs, i, calls[i])
  }

  ghost predicate ServicesCalled(j: NodeInput, svcs: seq<string>, calls: seq<ExecIn>) {
    |calls| == |svcs| && forall i: nat | i < |svcs| :: ServiceCalled(j, svcs[i], calls[i])
  }

  lemma ItemCallsAre(j: NodeInput, xs: seq<Json>, calls: seq<ExecIn>)
    requires j.input == Arr(xs) && ItemsCalled(j, xs, calls)
    ensures Foreach.FanOf(j).calls == calls
  {
    forall i: nat | i < |xs| ensures Foreach.FanOf(j).calls[i] == calls[i] {
      ItemCallIs(j, xs, i, calls[i]);
    }
  }

  lemma ServiceCallsAre(j: NodeInput, svcs: seq<string>, calls: seq<ExecIn>)
    requires Serves(j.node, j.params, svcs) && ServicesCalled(j, svcs, calls)
    ensures Parallel.FanOf(j).calls == calls
  {
    ServicesAre(j.node, j.params, svcs);
    forall i: nat | i < |svcs| ensures Parallel.FanOf(j).calls[i] == calls[i] {
      ServiceCallIs(j, svcs[i], calls[i]);
    }
  }

  lemma VisitLeaves(def: Flow, t: Task, oracle: ExecIn -> Outcome, envs: nat -> Env, calls: seq<ExecIn>)
    returns (n: nat)
    requires Arrives(def, t, oracle, envs) && VisitOf(def, t, oracle).NeverFailsFast()
    requires VisitOf(def, t, oracle).f.calls == calls
    ensures LeftWith(def, t, Steps(def, t, envs, n), Answered(oracle, calls), AnyFails(oracle, calls))
  {
    var v: Visit;
    n, v := FanoutMeaning(def, t, oracle, envs);
    AggregatedIs(v, oracle, calls);
    MeaningLeaves(def, t, v, Steps(def, t, envs, n), Answered(oracle, calls), t.steps + n);
  }

  /** A foreach node leaves the list of what its executor answers when it is called with the items, one by one. */
  lemma ForeachMeaning(def: Flow, t: Task, oracle: ExecIn -> Outcome, envs: nat -> Env, xs: seq<Json>,
      calls: seq<ExecIn>) returns (n: nat)
    requires Arrives(def, t, oracle, envs) && VisitOf(def, t, oracle).NeverFailsFast()
    requires NodeAt(def, t.cursor).kind == "foreach" && InputOf(def, t).input == Arr(xs)
    requires ItemsCalled(InputOf(def, t), xs, calls)
    ensures LeftWith(def, t, Steps(def, t, envs, n), Answered(oracle, calls), AnyFails(oracle, calls))
  {
    ItemCallsAre(InputOf(def, t), xs, calls);
    n := VisitLeaves(def, t, oracle, envs, calls);
  }

  /** A parallel node leaves the list of what its services answer, each called with the input of the node. */
  lemma ParallelMeaning(def: Flow, t: Task, oracle: ExecIn -> Outcome, envs: nat -> Env, svcs: seq<string>,
      calls: seq<ExecIn>) returns (n: nat)
    requires Arrives(def, t, oracle, envs) && VisitOf(def, t, oracle).NeverFailsFast()
    requires NodeAt(def, t.cursor).kind == "parallel"
    requires Serves(NodeAt(def, t.cursor), InputOf(def, t).params, svcs)
    requires ServicesCalled(InputOf(def, t), svcs, calls)
    ensures LeftWith(def, t, Steps(def, t, envs, n), Answered(oracle, calls), AnyFails(oracle, calls))
  {
    ServiceCallsAre(InputOf(def, t), svcs, calls);
    n := VisitLeaves(def, t, oracle, envs, calls);
  }

  /** The answers of a function of the input alone. */
  function Mapped(g: Json -> Outcome, xs: seq<Json>): seq<Json> {
    seq(|xs|, i requires 0 <= i < |xs| => ValueOf(g(xs[i])))
  }

  lemma SomeCalls(j: NodeInput, xs: seq<Json>) returns (calls: seq<ExecIn>)
    requires j.input == Arr(xs)
    ensures ItemsCalled(j, xs, calls)
  {
    calls := Foreach.FanOf(j).calls;
    forall i: nat | i < |xs| ensures ItemCalled(j, xs, i, calls[i]) {
      var p := FirstIndex(j.node.foreachExecs, i);
      FirstSpecWins(j.node.foreachExecs, i, p);
      assert ItemSpec(j, i, p, calls[i]);
    }
  }

  lemma FirstIndex(specs: seq<ExecSpec>, idx: int) returns (p: nat)
    ensures FirstFor(specs, idx, p)
  {
    p := 0;
    while p < |specs| && specs[p].index != idx
      invariant p <= |specs| && forall q | 0 <= q < p :: specs[q].index != idx
    {
      p := p + 1;
    }
  }

  /** With executors that answer by the input alone, a foreach node is the map of that function over its list, and the
      node that reads its output is called with the mapped list. */
  lemma ForeachMaps(def: Flow, t: Task, g: Json -> Outcome, envs: nat -> Env, xs: seq<Json>) returns (n: nat)
    requires Arrives(def, t, (call: ExecIn) => g(call.input), envs)
    requires VisitOf(def, t, (call: ExecIn) => g(call.input)).NeverFailsFast()
    requires NodeAt(def, t.cursor).kind == "foreach" && InputOf(def, t).input == Arr(xs)
    ensures LeftWith(def, t, Steps(def, t, envs, n), Mapped(g, xs), exists i | 0 <= i < |xs| :: g(xs[i]).Err?)
    ensures var r, k := Steps(def, t, envs, n), NodeAt(def, t.cursor).post.outputKey;
      PlainKey(k) && k != "_rt" && DataFlow.Reads(NodeAt(def, r.cursor), k) ==>
        InputOf(def, r).input == Arr(Mapped(g, xs))
  {
    var oracle := (call: ExecIn) => g(call.input);
    var calls := SomeCalls(InputOf(def, t), xs);
    n := ForeachMeaning(def, t, oracle, envs, xs, calls);
    assert Answered(oracle, calls) == Mapped(g, xs);
    assert forall i | 0 <= i < |xs| :: oracle(calls[i]) == g(xs[i]);
    var r, k := Steps(def, t, envs, n), NodeAt(def, t.cursor).post.outputKey;
    if PlainKey(k) && k != "_rt" && DataFlow.Reads(NodeAt(def, r.cursor), k) {
      InputFromKey(def, r, k, Arr(Mapped(g, xs)));
    }
  }
}
