/** What a fan-out node means over all the steps it takes: the ordered aggregate of its branches, the same in
    sequential and in concurrent mode, for every batch size and every order in which results arrive. */
module FanMeaning {
  import opened Json
  import opened Util
  import opened Expr
  import opened Types
  import opened Core
  import opened Fanout
  import opened FanProgress
  import opened FanVisit
  import opened Step
  import opened Runs
  import Foreach
  import Parallel

  /** The branches of the node under the cursor, when there are any. */
  function FanAt(j: NodeInput): (f: Option<Fan>)
    ensures f.Some? ==> ValidFan(f.value) && f.value.keys != []
  {
    if j.node.kind == "foreach" && Foreach.Items(j.input) != [] then Some(Foreach.FanOf(j))
    else if j.node.kind == "parallel" && Parallel.Services(j.node, j.params) != [] then Some(Parallel.FanOf(j))
    else None
  }

  /** Branches that share a key are the same call, so a deterministic executor gives them the same result. */
  ghost predicate SameKeySameCall(f: Fan)
    requires ValidFan(f)
  {
    forall a, b | 0 <= a < |f.keys| && 0 <= b < |f.keys| && f.keys[a] == f.keys[b] :: f.calls[a] == f.calls[b]
  }

  lemma FanKeys(j: NodeInput)
    requires FanAt(j).Some?
    ensures SameKeySameCall(FanAt(j).value)
    ensures j.node.kind == "foreach" ==> Distinct(FanAt(j).value.keys)
  {
    if j.node.kind == "foreach" {
      forall a: nat, b: nat | a < |Foreach.Items(j.input)| && b < |Foreach.Items(j.input)|
        ensures IndexKey(a) == IndexKey(b) ==> a == b
      {
        IndexKeyInjective(a, b);
      }
    }
  }

  function InputWith(def: Flow, t: Task, rt: Json): Json {
    var j := InputOf(def, t);
    BuildInput(j.node, t.shared["_rt" := rt], j.params)
  }

  /** The input of the node does not look at the runtime records. */
  ghost predicate InputStable(def: Flow, t: Task) {
    forall rt: Json :: InputWith(def, t, rt) == InputOf(def, t).input
  }

  /** A reference that is resolved without looking at shared["_rt"]; `key` says that a plain path is looked up. */
  predicate AvoidsRt(path: string, key: bool) {
    if HasPrefix(path, "$params.") then true
    else if HasPrefix(path, "$shared.") then Elsewhere(DropDot(path[8..]))
    else HasPrefix(path, "$") || !key || Elsewhere(path)
  }

  predicate Elsewhere(path: string) {
    FirstName(Split(path)).Some? && FirstName(Split(path)).value != "_rt"
  }

  predicate PrepAvoidsRt(prep: Prep) {
    match prep.inputMap
    case Some(m) => forall k | k in m :: AvoidsRt(m[k], false)
    case None => prep.inputKey == "" || AvoidsRt(prep.inputKey, true)
  }

  lemma ResolveAvoidsRt(path: string, key: bool, shared: Dict, rt: Json, params: Dict)
    requires AvoidsRt(path, key)
    ensures ResolveRef(path, shared["_rt" := rt], params, Null) == ResolveRef(path, shared, params, Null)
    ensures key && !HasPrefix(path, "$")
      ==> PathValue(Obj(shared["_rt" := rt]), path) == PathValue(Obj(shared), path)
  {
    assert shared["_rt" := rt] - {"_rt"} == shared - {"_rt"};
    if HasPrefix(path, "$params.") {
    } else if HasPrefix(path, "$shared.") {
      PathIgnoresOtherKeys(shared["_rt" := rt], shared, "_rt", Split(DropDot(path[8..])));
    } else if key && !HasPrefix(path, "$") {
      PathIgnoresOtherKeys(shared["_rt" := rt], shared, "_rt", Split(path));
    }
  }

  /** Inputs whose references name anything but "_rt" are stable, whatever the row holds. */
  lemma PrepIsStable(def: Flow, t: Task)
    requires PrepAvoidsRt(NodeAt(def, t.cursor).prep)
    ensures InputStable(def, t)
  {
    var j := InputOf(def, t);
    forall rt: Json ensures InputWith(def, t, rt) == j.input {
      match j.node.prep.inputMap
      case None =>
        if j.node.prep.inputKey != "" { ResolveAvoidsRt(j.node.prep.inputKey, true, t.shared, rt, j.params); }
      case Some(m) =>
        forall k | k in m
          ensures ResolveRef(m[k], t.shared["_rt" := rt], j.params, Null) == ResolveRef(m[k], t.shared, j.params, Null)
        {
          ResolveAvoidsRt(m[k], false, t.shared, rt, j.params);
        }
        assert InputWith(def, t, rt).m == j.input.m;
    }
  }

  /** The branches are determined by the node, its key, its parameters and its input. */
  lemma FanDetermined(j: NodeInput, j': NodeInput)
    requires j.node == j'.node && j.key == j'.key && j.params == j'.params && j.input == j'.input
    ensures FanAt(j) == FanAt(j')
  {
    if j.node.kind == "foreach" {
      var f, f' := Foreach.FanOf(j), Foreach.FanOf(j');
      assert f.keys == f'.keys;
      assert f.calls == f'.calls;
    } else if j.node.kind == "parallel" {
      var f, f' := Parallel.FanOf(j), Parallel.FanOf(j');
      assert f.keys == f'.keys;
      assert f.calls == f'.calls;
    }
  }

  // ---- rows of a visit --------------------------------------------------------------

  /** A row enters a fan-out node that has branches. */
  ghost predicate Enters(def: Flow, t: Task, v: Visit) {
    && v.j == InputOf(def, t) && FanAt(v.j) == Some(v.f) && InputStable(def, t) && v.Valid()
    && (t.status == "pending" || t.status == "running")
  }

  /** The row after n further steps, with the branches in d settled. */
  ghost predicate Row(v: Visit, r: Task, d: set<string>, n: nat) {
    && r.cursor == v.j.key && r.params == v.j.task.params && r.steps == v.j.task.steps + n
    && (r.status == "pending" || r.status == "running")
    && v.Holds(r.shared, d)
  }

  /** The input is computed anew in every step, and stays what it was. */
  lemma SameInput(def: Flow, t: Task, r: Task)
    requires InputStable(def, t)
    requires r.cursor == t.cursor && r.params == t.params
    requires r.shared - {"_rt"} == t.shared - {"_rt"} && ("_rt" in r.shared || r.shared == t.shared)
    ensures InputOf(def, r) == InputOf(def, t).(task := r, shared := r.shared)
  {
    if "_rt" in r.shared {
      var rt := r.shared["_rt"];
      assert r.shared == (r.shared - {"_rt"})["_rt" := rt];
      assert (t.shared - {"_rt"})["_rt" := rt] == t.shared["_rt" := rt];
      assert InputOf(def, r).input == InputWith(def, t, rt);
    }
  }

  lemma FanStepOf(i: NodeInput, f: Fan, env: Env)
    requires FanAt(i) == Some(f)
    ensures NodeStep(i, env) == FanStep(i, f, env)
  {
  }

  lemma RowInput(def: Flow, t: Task, v: Visit, r: Task, d: set<string>, n: nat, env: Env) returns (i: NodeInput)
    requires Enters(def, t, v) && Row(v, r, d, n)
    ensures i == InputOf(def, r) && v.Inside(i, d) && i.task == r
    ensures StepWrite(def, r, env) == FanStep(i, v.f, env)
  {
    SameInput(def, t, r);
    i := v.j.(task := r, shared := r.shared);
    FanDetermined(i, v.j);
    FanStepOf(i, v.f, env);
  }

  lemma RowStarts(def: Flow, t: Task, v: Visit)
    requires Enters(def, t, v)
    ensures Row(v, t, {}, 0)
  {
    Starts(v);
  }

  lemma RowStays(def: Flow, t: Task, v: Visit, r: Task, d: set<string>, n: nat, env: Env)
    requires Enters(def, t, v) && v.AnsweredBy(env) && Row(v, r, d, n) && v.Plan().Open(d) > 0
    requires v.NeverFailsFast() || !AnyErr(v.out, BatchKeys(v.f.keys, v.Plan().Batch(d)))
    ensures Row(v, Advance(def, r, env), v.Plan().Next(d), n + 1)
  {
    var i := RowInput(def, t, v, r, d, n, env);
    var _ := StayStep(v, i, d, env);
  }

  /** The row is where the write of a finished node leads. */
  ghost predicate Finished(v: Visit, r: Task, shared: Dict, failed: bool, steps: int) {
    && r.lastAction == v.j.node.post.actionStatic
    && r.cursor == FindNext(v.j.def.edges, v.j.key, r.lastAction)
    && r.status == (if r.cursor != "" then "running" else if failed then "failed" else "completed")
    && r.shared == shared && r.steps == steps
  }

  lemma RowEnds(def: Flow, t: Task, v: Visit, r: Task, d: set<string>, n: nat, env: Env)
    requires Enters(def, t, v) && Row(v, r, d, n) && d <= KeySet(v.f.keys) && v.Plan().Open(d) == 0
    ensures Finished(v, Advance(def, r, env), MeaningShared(v), MeaningFails(v), t.steps + n + 1)
  {
    var i := RowInput(def, t, v, r, d, n, env);
    LastStep(v, i, d, env);
  }

  // ---- whole visits -----------------------------------------------------------------

  /** Batch n does not end the node. */
  ghost predicate GoesOn(v: Visit, n: nat) {
    v.NeverFailsFast() || !BatchFails(v, n)
  }

  ghost predicate AllGoOn(v: Visit, n: nat) {
    forall i: nat | i < n :: GoesOn(v, i)
  }

  lemma OneLess(v: Visit, n: nat, n': nat)
    requires n' == n + 1 && AllGoOn(v, n')
    ensures AllGoOn(v, n) && GoesOn(v, n)
  {
  }

  lemma NextRow(def: Flow, t: Task, v: Visit, r: Task, n: nat, env: Env)
    requires Enters(def, t, v) && v.AnsweredBy(env) && n < BatchesLeft(v.Plan(), {}) && GoesOn(v, n)
    requires Row(v, r, v.Plan().After(n), n)
    ensures Row(v, Advance(def, r, env), v.Plan().After(n + 1), n + 1)
  {
    AfterLeaves(v.Plan(), n);
    RowStays(def, t, v, r, v.Plan().After(n), n, env);
    assert v.Plan().After(n + 1) == v.Plan().Next(v.Plan().After(n));
  }

  /** A visit with deterministic executors. */
  ghost predicate Visiting(def: Flow, t: Task, v: Visit, envs: nat -> Env) {
    Enters(def, t, v) && forall i: nat :: v.AnsweredBy(envs(i))
  }

  /** The row after n batches. */
  ghost predicate AtBatch(def: Flow, t: Task, v: Visit, envs: nat -> Env, n: nat) {
    Row(v, Steps(def, t, envs, n), v.Plan().After(n), n)
  }

  lemma VisitNext(def: Flow, t: Task, v: Visit, envs: nat -> Env, n: nat, n': nat)
    requires n' == n + 1 && Visiting(def, t, v, envs) && n < BatchesLeft(v.Plan(), {}) && GoesOn(v, n)
    requires AtBatch(def, t, v, envs, n)
    ensures AtBatch(def, t, v, envs, n')
  {
    NextRow(def, t, v, Steps(def, t, envs, n), n, envs(n));
    StepsUnfold(def, t, envs, n);
  }

  lemma VisitBegins(def: Flow, t: Task, v: Visit, envs: nat -> Env, n: nat)
    requires n == 0 && Enters(def, t, v)
    ensures AtBatch(def, t, v, envs, n)
  {
    RowStarts(def, t, v);
  }

  /** As long as no batch ends the node, the row after n steps is the one after n batches. */
  lemma {:induction false} VisitRow(def: Flow, t: Task, v: Visit, envs: nat -> Env, n: nat)
    requires Visiting(def, t, v, envs) && n <= BatchesLeft(v.Plan(), {}) && AllGoOn(v, n)
    ensures AtBatch(def, t, v, envs, n)
  {
    if n == 0 {
      VisitBegins(def, t, v, envs, n);
    } else {
      var m := n - 1;
      OneLess(v, m, n);
      VisitRow(def, t, v, envs, m);
      VisitNext(def, t, v, envs, m, n);
    }
  }

  lemma RowFinishes(def: Flow, t: Task, v: Visit, envs: nat -> Env, d: set<string>, n: nat, n': nat)
    requires n' == n + 1
    requires Enters(def, t, v) && Row(v, Steps(def, t, envs, n), d, n)
    requires d <= KeySet(v.f.keys) && v.Plan().Open(d) == 0
    ensures Finished(v, Steps(def, t, envs, n'), MeaningShared(v), MeaningFails(v), t.steps + n')
  {
    RowEnds(def, t, v, Steps(def, t, envs, n), d, n, envs(n));
    StepsUnfold(def, t, envs, n);
  }

  lemma WholeVisit(def: Flow, t: Task, v: Visit, envs: nat -> Env) returns (n: nat)
    requires Enters(def, t, v) && v.NeverFailsFast() && forall i: nat :: v.AnsweredBy(envs(i))
    ensures n == BatchesLeft(v.Plan(), {}) + 1
    ensures Finished(v, Steps(def, t, envs, n), MeaningShared(v), MeaningFails(v), t.steps + n)
  {
    var total := BatchesLeft(v.Plan(), {});
    VisitRow(def, t, v, envs, total);
    AfterLeaves(v.Plan(), total);
    n := total + 1;
    RowFinishes(def, t, v, envs, v.Plan().After(total), total, n);
  }

  /** The record of the row: done and errs are disjoint and hold branch keys only. */
  ghost predicate Stores(v: Visit, r: Task, p: Progress) {
    && ReadProgress(EntryOf(r.shared, v.f.key, v.Init())) == Some(p)
    && p.done.Keys !! p.errs.Keys && p.done.Keys + p.errs.Keys <= KeySet(v.f.keys)
  }

  lemma RowStores(v: Visit, r: Task, d: set<string>, n: nat)
    requires v.Valid() && Row(v, r, d, n) && d <= KeySet(v.f.keys)
    ensures Stores(v, r, ProgressOf(v.out, d))
  {
    ReadEntry(v, d);
  }

  /** Two rows of the visit with one batch between them. */
  ghost predicate OneBatch(v: Visit, r: Task, r': Task, p: Progress, p': Progress) {
    var rem := Fanout.Remaining(v.f.keys, p);
    && Stores(v, r, p) && Stores(v, r', p') && rem != []
    && SettlesBatch(v.f.keys, p, p', rem[..v.Plan().Size(|rem|)])
    && (Distinct(v.f.keys) ==> |Fanout.Remaining(v.f.keys, p')| == |rem| - v.Plan().Size(|rem|))
  }

  lemma RowsApart(v: Visit, r: Task, r': Task, d: set<string>, d': set<string>, n: nat)
    requires v.Valid() && d' == v.Plan().Next(d) && v.Plan().Open(d) > 0 && d <= KeySet(v.f.keys)
    requires Row(v, r, d, n) && Row(v, r', d', n + 1)
    ensures OneBatch(v, r, r', ProgressOf(v.out, d), ProgressOf(v.out, d'))
  {
    NextStaysInside(v.Plan(), d);
    RowStores(v, r, d, n);
    RowStores(v, r', d', n + 1);
    NextSettlesBatch(v.Plan(), d);
    NextIsCloser(v.Plan(), d);
  }

  lemma BatchAt(v: Visit, r: Task, r': Task, k: nat)
    requires v.Valid() && k < BatchesLeft(v.Plan(), {})
    requires Row(v, r, v.Plan().After(k), k) && Row(v, r', v.Plan().After(k + 1), k + 1)
    ensures OneBatch(v, r, r', ProgressOf(v.out, v.Plan().After(k)), ProgressOf(v.out, v.Plan().After(k + 1)))
  {
    AfterLeaves(v.Plan(), k);
    RowsApart(v, r, r', v.Plan().After(k), v.Plan().After(k + 1), k);
  }

  /** With deterministic executors, and repeated service names among the branches, too, every step of a visit but the
      last settles exactly one batch: all open branches or maxParallel of them, or one sequentially. */
  lemma SharedBatches(def: Flow, t: Task, v: Visit, envs: nat -> Env, k: nat) returns (p: Progress, p': Progress)
    requires Enters(def, t, v) && v.NeverFailsFast() && forall i: nat :: v.AnsweredBy(envs(i))
    requires k < BatchesLeft(v.Plan(), {})
    ensures OneBatch(v, Steps(def, t, envs, k), Steps(def, t, envs, k + 1), p, p')
  {
    VisitRow(def, t, v, envs, k);
    var r := Steps(def, t, envs, k);
    NextRow(def, t, v, r, k, envs(k));
    BatchAt(v, r, Advance(def, r, envs(k)), k);
    StepsUnfold(def, t, envs, k);
    p, p' := ProgressOf(v.out, v.Plan().After(k)), ProgressOf(v.out, v.Plan().After(k + 1));
  }

  // ---- the theorems -----------------------------------------------------------------

  function AnswersOf(f: Fan, oracle: ExecIn -> Outcome): (out: Answers)
    requires ValidFan(f) && SameKeySameCall(f)
    ensures forall i | 0 <= i < |f.keys| :: f.keys[i] in out && out[f.keys[i]] == oracle(f.calls[i])
  {
    map i | 0 <= i < |f.keys| :: f.keys[i] := oracle(f.calls[i])
  }

  ghost function VisitOf(def: Flow, t: Task, oracle: ExecIn -> Outcome): (v: Visit)
    requires FanAt(InputOf(def, t)).Some?
    ensures v.j == InputOf(def, t) && FanAt(v.j) == Some(v.f)
    ensures forall i | 0 <= i < |v.f.keys| :: v.f.keys[i] in v.out && v.out[v.f.keys[i]] == oracle(v.f.calls[i])
  {
    FanKeys(InputOf(def, t));
    var f := FanAt(InputOf(def, t)).value;
    Visit(InputOf(def, t), f, AnswersOf(f, oracle))
  }

  /** A row arrives at a fan-out node that has branches and no record yet, and the executors are deterministic
      and do not park. */
  ghost predicate Arrives(def: Flow, t: Task, oracle: ExecIn -> Outcome, envs: nat -> Env) {
    var j := InputOf(def, t);
    && FanAt(j).Some?
    && InputStable(def, t)
    && (t.status == "pending" || t.status == "running")
    && FanAt(j).value.key !in RtOf(t.shared)
    && (forall i | 0 <= i < |FanAt(j).value.calls| :: !oracle(FanAt(j).value.calls[i]).Pending?)
    && (forall k: nat, slot: nat, call :: envs(k).exec(slot, call) == oracle(call))
  }

  lemma ArrivalEnters(def: Flow, t: Task, oracle: ExecIn -> Outcome, envs: nat -> Env) returns (v: Visit)
    requires Arrives(def, t, oracle, envs)
    ensures v == VisitOf(def, t, oracle) && Enters(def, t, v)
    ensures forall k: nat :: v.AnsweredBy(envs(k))
    ensures v.j.node.kind == "foreach" ==> Distinct(v.f.keys)
  {
    v := VisitOf(def, t, oracle);
    FanKeys(v.j);
  }

  /** The multi-step fan-out equals its meaning, for every batch size, arrival order and list of branches
      (repeated service names included), unless a failing branch of a concurrent fail-fast node ends it early.
      With distinct branches, as every foreach has, it takes exactly one step a batch and one to finish; sequentially
      it is one step a distinct key. */
  lemma FanoutMeaning(def: Flow, t: Task, oracle: ExecIn -> Outcome, envs: nat -> Env) returns (n: nat, v: Visit)
    requires Arrives(def, t, oracle, envs) && VisitOf(def, t, oracle).NeverFailsFast()
    ensures v == VisitOf(def, t, oracle) && Settles(v.out, v.f.keys)
    ensures Finished(v, Steps(def, t, envs, n), MeaningShared(v), MeaningFails(v), t.steps + n)
    ensures v.Valid() && n == BatchesLeft(v.Plan(), {}) + 1
    ensures v.j.node.kind == "foreach" ==> Distinct(v.f.keys)
    ensures Distinct(v.f.keys) ==> n == v.Plan().Rounds(|v.f.keys|) + 1
    ensures v.j.node.parallelMode != "concurrent" ==> n == |KeySet(v.f.keys)| + 1
  {
    v := ArrivalEnters(def, t, oracle, envs);
    n := WholeVisit(def, t, v, envs);
    BatchCount(v.Plan());
  }

  function WithMode(def: Flow, key: string, mode: string, max: int): Flow
    requires key in def.nodes
  {
    def.(nodes := def.nodes[key := def.nodes[key].(parallelMode := mode, maxParallel := max)])
  }

  lemma FanIgnoresMode(def: Flow, t: Task, mode: string, max: int)
    requires t.cursor in def.nodes && FanAt(InputOf(def, t)).Some?
    ensures FanAt(InputOf(WithMode(def, t.cursor, mode, max), t)) == FanAt(InputOf(def, t))
  {
    var j, j' := InputOf(def, t), InputOf(WithMode(def, t.cursor, mode, max), t);
    assert j'.node == j.node.(parallelMode := mode, maxParallel := max);
    assert j'.input == j.input && j'.params == j.params;
    if j.node.kind == "foreach" {
      var f, f' := Foreach.FanOf(j), Foreach.FanOf(j');
      assert f.keys == f'.keys;
      assert f.calls == f'.calls;
    } else {
      var f, f' := Parallel.FanOf(j), Parallel.FanOf(j');
      assert f.keys == f'.keys;
      assert f.calls == f'.calls;
    }
  }

  lemma MeaningIgnoresMode(v: Visit, v': Visit)
    requires v'.f == v.f && v'.j.shared == v.j.shared && v'.j.node.post == v.j.node.post
    requires v'.j.node.failureStrategy == v.j.node.failureStrategy
    requires Settles(v.out, v.f.keys) && Settles(v'.out, v.f.keys)
    requires forall i | 0 <= i < |v.f.keys| :: v'.out[v.f.keys[i]] == v.out[v.f.keys[i]]
    ensures MeaningShared(v') == MeaningShared(v) && MeaningFails(v') == MeaningFails(v)
  {
    assert Aggregated(v'.out, v.f.keys) == Aggregated(v.out, v.f.keys);
    assert forall k | k in KeySet(v.f.keys) :: k in v.out && k in v'.out && v.out[k] == v'.out[k];
  }

  /** Sequential or concurrent, with any bound and any arrival orders: same output, action, edge and status. */
  lemma ModesAgree(def: Flow, t: Task, mode: string, max: int, oracle: ExecIn -> Outcome,
      envs: nat -> Env, envs': nat -> Env) returns (n: nat, n': nat)
    requires t.cursor in def.nodes
    requires Arrives(def, t, oracle, envs) && Arrives(WithMode(def, t.cursor, mode, max), t, oracle, envs')
    requires VisitOf(def, t, oracle).NeverFailsFast()
    requires VisitOf(WithMode(def, t.cursor, mode, max), t, oracle).NeverFailsFast()
    ensures var a, b := Steps(def, t, envs, n), Steps(WithMode(def, t.cursor, mode, max), t, envs', n');
      && a.shared == b.shared && a.lastAction == b.lastAction && a.cursor == b.cursor && a.status == b.status
      && Steps(def, t, envs, n).steps == t.steps + n && b.steps == t.steps + n'
  {
    var v, v';
    n, v := FanoutMeaning(def, t, oracle, envs);
    n', v' := FanoutMeaning(WithMode(def, t.cursor, mode, max), t, oracle, envs');
    FanIgnoresMode(def, t, mode, max);
    MeaningIgnoresMode(v, v');
  }

  // ---- the fail-fast exit -----------------------------------------------------------

  lemma RowFails(def: Flow, t: Task, v: Visit, r: Task, d: set<string>, n: nat, env: Env) returns (shared: Dict)
    requires Enters(def, t, v) && v.AnsweredBy(env) && FailFastNode(v.j.node)
    requires Row(v, r, d, n) && v.Plan().Open(d) > 0 && AnyErr(v.out, BatchKeys(v.f.keys, v.Plan().Batch(d)))
    ensures Finished(v, Advance(def, r, env), shared, true, t.steps + n + 1)
    ensures FailedShared(v, shared, v.Plan().Next(d))
  {
    var i := RowInput(def, t, v, r, d, n, env);
    shared := FailStep(v, i, d, env);
  }

  /** A concurrent fail-fast node with a failing branch ends with its first batch that has one, repeated service names
      included: it follows its edge as failed, its output is the list of the successful results so far, without place
      holders, and its record is not removed. */
  lemma FailFastMeaning(def: Flow, t: Task, v: Visit, envs: nat -> Env) returns (k: nat, shared: Dict)
    requires Enters(def, t, v) && FailFastNode(v.j.node) && forall i: nat :: v.AnsweredBy(envs(i))
    requires AnyErr(v.out, KeySet(v.f.keys))
    ensures BatchFails(v, k) && forall i: nat | i < k :: !BatchFails(v, i)
    ensures Finished(v, Steps(def, t, envs, k + 1), shared, true, t.steps + k + 1)
    ensures FailedShared(v, shared, v.Plan().After(k + 1))
  {
    k := FirstFailingBatch(v);
    VisitRow(def, t, v, envs, k);
    AfterLeaves(v.Plan(), k);
    shared := RowFails(def, t, v, Steps(def, t, envs, k), v.Plan().After(k), k, envs(k));
    StepsUnfold(def, t, envs, k);
  }
}
