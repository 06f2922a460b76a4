/** What the sub-nodes of an embedded flow are called with, how the result of one becomes the input of the next over
    persisted steps, and when a failed one is tried again (pkg/engine/subflow.go). */
module SubflowCalls {
  import opened Json
  import opened Util
  import opened Types
  import opened Core
  import opened Step
  import opened Runs
  import opened SubflowVisit
  import opened SubflowMeaning
  import Subflow
  import Executor
  import DataFlow
  import Fanout

  // ---- calls ------------------------------------------------------------------------

  /** Spec p is the first for the sub-node, or p is past the end and there is none. */
  ghost predicate FirstNamed(specs: seq<ExecSpec>, sub: string, p: nat) {
    && p <= |specs| && (p < |specs| ==> specs[p].node == sub)
    && forall q | 0 <= q < p :: specs[q].node != sub
  }

  lemma {:induction false} FirstSpecWins(specs: seq<ExecSpec>, sub: string, p: nat)
    requires FirstNamed(specs, sub, p)
    ensures Subflow.SpecFor(specs, sub) == if p < |specs| then Some(specs[p]) else None
  {
    if p > 0 {
      assert specs[0].node != sub;
      FirstSpecWins(specs[1..], sub, p - 1);
    }
  }

  /** The first of three that is not empty; the last anyway. */
  function Prefer(a: string, b: string, c: string): string {
    if a != "" then a else if b != "" then b else c
  }

  /** A sub-node is called with its own executor, completed by that of the subflow node and overridden by the spec, and
      with the merged parameters: the spec wins over the sub-node, which wins over task and node. */
  lemma SubCallIs(j: NodeInput, flow: Flow, sub: string, shared: Dict, p: nat)
    requires FirstNamed(j.node.subflowExecs, sub, p)
    ensures var call, sn, node := Subflow.SubCall(j, flow, sub, shared), NodeAt(flow, sub), j.node;
      var spec := if p < |node.subflowExecs| then node.subflowExecs[p]
                  else ExecSpec("", "", "", NO_SCRIPT, map[], "", 0);
      && call.nodeKey == j.key
      && call.use.service == (if spec.service != "" then spec.service else sn.use.service)
      && call.use.execType == Prefer(spec.execType, sn.use.execType, node.use.execType)
      && call.use.fn == Prefer(spec.fn, sn.use.fn, node.use.fn)
      && call.use.script == (if spec.script.cmd != "" then spec.script
                             else if sn.use.script.cmd != "" || node.use.script.cmd == "" then sn.use.script
                             else node.use.script)
      && call.params.Keys == j.params.Keys + sn.params.Keys + spec.params.Keys
      && forall k | k in call.params ::
           call.params[k] == if k in spec.params then spec.params[k]
                             else if k in sn.params then sn.params[k] else j.params[k]
  {
    FirstSpecWins(j.node.subflowExecs, sub, p);
  }

  /** The value a path of a sub-node names: a merged parameter, or a key of the state of the embedded flow. */
  predicate SubNames(path: string, shared: Dict, params: Dict, v: Json) {
    if HasPrefix(path, "$params.") then v == Field(Obj(params), path[8..]) else v == Field(Obj(shared), path)
  }

  lemma SubInputIs(j: NodeInput, flow: Flow, sub: string, shared: Dict)
    ensures var call, prep := Subflow.SubCall(j, flow, sub, shared), NodeAt(flow, sub).prep;
      match prep.inputMap
      case Some(m) =>
        && call.input.Obj? && call.input.m.Keys == m.Keys
        && forall name | name in m :: SubNames(m[name], shared, call.params, call.input.m[name])
      case None =>
        if prep.inputKey == "" then call.input == Null
        else SubNames(prep.inputKey, shared, call.params, call.input)
  {
  }

  /** An embedded flow without a start calls nothing: the node leaves at once by its static action, with no output. */
  lemma NothingToRun(def: Flow, t: Task, flow: Flow, env: Env)
    requires NodeAt(def, t.cursor).kind == "subflow" && NodeAt(def, t.cursor).subflow == Some(flow) && flow.start == ""
    requires (t.status == "pending" || t.status == "running") && "sf:" + t.cursor !in RtOf(t.shared)
    ensures var t', post := Advance(def, t, env), NodeAt(def, t.cursor).post;
      && t'.shared == t.shared && t'.lastAction == post.actionStatic
      && t'.cursor == FindNext(def.edges, t.cursor, post.actionStatic) && t'.steps == t.steps + 1
      && t'.status == if t'.cursor == "" then "completed" else "running"
  {
    var j := InputOf(def, t);
    assert SfOf(j, flow) == Subflow.FreshSub(flow);
    assert Subflow.SubflowStep(j, env) == Some(FinishNode(j, j.node.post.actionStatic, j.shared, false));
  }

  // ---- from execution to execution --------------------------------------------------

  function CurrAt(def: Flow, flow: Flow, r: Task): string {
    AsStr(Get(SfOf(InputOf(def, r), flow), "curr"))
  }

  /** Step n executes a sub-node with result v, and the flow goes on. */
  predicate Succeeds(def: Flow, flow: Flow, r: Task, env: Env, v: Json) {
    && Executes(def, flow, r, env) && Rests(def, r, env)
    && env.exec(0, CallAt(InputOf(def, r), flow)) == Ok(v)
  }

  /** The step rests, and does not execute a sub-node successfully. */
  predicate Unsuccessful(def: Flow, flow: Flow, r: Task, env: Env) {
    Rests(def, r, env) && (Executes(def, flow, r, env) ==> Fails(def, flow, r, env))
  }

  /** So do all steps from n on and before k. */
  ghost predicate NoSuccess(def: Flow, flow: Flow, rows: nat -> Task, envs: nat -> Env, n: nat, k: nat) {
    forall i: nat | n <= i < k :: Unsuccessful(def, flow, rows(i), envs(i))
  }

  ghost predicate RowWith(def: Flow, t: Task, flow: Flow, r: Task, curr: string, shared: Dict) {
    exists fails: nat :: Row(def, t, flow, r, SubState(curr, shared, fails))
  }

  lemma UnsuccessfulStep(def: Flow, t: Task, flow: Flow, r: Task, env: Env, curr: string, shared: Dict)
    requires Enters(def, t, flow) && RowWith(def, t, flow, r, curr, shared) && Unsuccessful(def, flow, r, env)
    ensures RowWith(def, t, flow, Advance(def, r, env), curr, shared)
  {
    var fails: nat :| Row(def, t, flow, r, SubState(curr, shared, fails));
    var st := SubState(curr, shared, fails);
    if Executes(def, flow, r, env) {
      var next, _ := RowExecutes(def, t, flow, r, st, 0, env);
      assert next.Goes? && next.st == SubState(curr, shared, fails + 1);
    } else {
      RowRests(def, t, flow, r, st, env);
    }
  }

  /** Waits, deferrals and failures leave the embedded flow where it is. */
  lemma UnsuccessfulSteps(def: Flow, t: Task, flow: Flow, envs: nat -> Env, n: nat, k: nat, curr: string, shared: Dict)
    requires Enters(def, t, flow) && n <= k && RowWith(def, t, flow, Steps(def, t, envs, n), curr, shared)
    requires NoSuccess(def, flow, Rows(def, t, envs), envs, n, k)
    ensures RowWith(def, t, flow, Steps(def, t, envs, k), curr, shared)
  {
    var kind := (r: Task, env: Env) => Unsuccessful(def, flow, r, env);
    var keep := (r: Task) => RowWith(def, t, flow, r, curr, shared);
    forall r, env ensures KeepsOne(def, kind, keep, r, env) {
      if keep(r) && kind(r, env) { UnsuccessfulStep(def, t, flow, r, env, curr, shared); }
    }
    Kept(def, t, envs, kind, keep, n, k);
  }

  /** After a success the record holds the successor, and the outputs of the sub-node. */
  lemma SuccessRow(def: Flow, t: Task, flow: Flow, r: Task, st: SubState, env: Env, v: Json) returns (shared: Dict)
    requires Enters(def, t, flow) && Row(def, t, flow, r, st) && Succeeds(def, flow, r, env, v)
    ensures var post := NodeAt(flow, CurrAt(def, flow, r)).post;
      && DataFlow.Outputs(post, v, st.shared, shared)
      && exists action :: DataFlow.Chooses(post, v, action)
           && RowWith(def, t, flow, Advance(def, r, env), FindNext(flow.edges, CurrAt(def, flow, r), action), shared)
  {
    var post := NodeAt(flow, st.curr).post;
    assert CurrAt(def, flow, r) == st.curr;
    CallIs(def, t, flow, r, st);
    var next, _ := RowExecutes(def, t, flow, r, st, 0, env);
    assert next.Goes?;
    shared := next.st.shared;
    DataFlow.OutputsAre(post, v, st.shared);
    var action := Executor.ActionOf(post, v);
    assert next.st == SubState(FindNext(flow.edges, st.curr, action), shared, st.fails);
    assert DataFlow.Chooses(post, v, action);
  }

  lemma RowAt(def: Flow, t: Task, flow: Flow, envs: nat -> Env, n: nat) returns (st: SubState)
    requires Enters(def, t, flow) && Stays(def, t, envs, n)
    ensures Row(def, t, flow, Steps(def, t, envs, n), st)
  {
    var h := History(def, t, flow, envs, n);
    RunAnswers(envs, h);
    st := RestingRun(def, t, flow, envs, RunOf(envs, h), n);
  }

  /** The sub-node that follows the successful one of step n, by the edge of the action its result chooses. */
  ghost predicate Follows(flow: Flow, sub: string, v: Json, next: string) {
    exists action :: DataFlow.Chooses(NodeAt(flow, sub).post, v, action) && next == FindNext(flow.edges, sub, action)
  }

  /** The result v of sub-node `sub` is in the state under its output key. */
  predicate HasOutput(flow: Flow, sub: string, v: Json, shared: Dict) {
    NodeAt(flow, sub).post.outputKey != "" ==> Field(Obj(shared), NodeAt(flow, sub).post.outputKey) == v
  }

  lemma AfterSuccess(def: Flow, t: Task, flow: Flow, envs: nat -> Env, n: nat, n': nat, v: Json)
    returns (next: string, shared: Dict)
    requires n' == n + 1 && Enters(def, t, flow) && Stays(def, t, envs, n)
    requires Succeeds(def, flow, Steps(def, t, envs, n), envs(n), v)
    ensures RowWith(def, t, flow, Steps(def, t, envs, n'), next, shared)
    ensures var sub := CurrAt(def, flow, Steps(def, t, envs, n));
      Follows(flow, sub, v, next) && HasOutput(flow, sub, v, shared)
  {
    var r := Steps(def, t, envs, n);
    var st := RowAt(def, t, flow, envs, n);
    shared := SuccessRow(def, t, flow, r, st, envs(n), v);
    var sub := CurrAt(def, flow, r);
    var action :| DataFlow.Chooses(NodeAt(flow, sub).post, v, action)
      && RowWith(def, t, flow, Advance(def, r, envs(n)), FindNext(flow.edges, sub, action), shared);
    next := FindNext(flow.edges, sub, action);
    StepsUnfold(def, t, envs, n);
  }

  lemma HeldCall(def: Flow, t: Task, flow: Flow, envs: nat -> Env, k: nat, next: string, shared: Dict)
    requires Enters(def, t, flow) && RowWith(def, t, flow, Steps(def, t, envs, k), next, shared)
    ensures var r := Steps(def, t, envs, k);
      && CurrAt(def, flow, r) == next
      && CallAt(InputOf(def, r), flow) == Subflow.SubCall(InputOf(def, t), flow, next, shared)
  {
    var r := Steps(def, t, envs, k);
    var fails: nat :| Row(def, t, flow, r, SubState(next, shared, fails));
    CallIs(def, t, flow, r, SubState(next, shared, fails));
  }

  /** A sub-node that reads the key the one before has written, as its input or under a name of its input map. */
  predicate ReadsKey(flow: Flow, sub: string, m: string, input: Json, v: Json) {
    var prep := NodeAt(flow, sub).prep;
    match prep.inputMap
    case None => prep.inputKey == m ==> input == v
    case Some(names) => forall name | name in names && names[name] == m :: Field(input, name) == v
  }

  lemma InputHolds(j: NodeInput, flow: Flow, sub: string, shared: Dict, m: string, v: Json)
    requires m != "" && !HasPrefix(m, "$params.") && Field(Obj(shared), m) == v
    ensures ReadsKey(flow, sub, m, Subflow.SubCall(j, flow, sub, shared).input, v)
  {
    SubInputIs(j, flow, sub, shared);
  }

  /** When step n executes a sub-node with result v and no later one succeeds before step k, then step k is at its
      successor, and calls it with v where it reads the output key of that sub-node. */
  lemma HandsOn(def: Flow, t: Task, flow: Flow, envs: nat -> Env, n: nat, k: nat, v: Json)
    requires Enters(def, t, flow) && Stays(def, t, envs, n) && n < k
    requires Succeeds(def, flow, Steps(def, t, envs, n), envs(n), v)
    requires NoSuccess(def, flow, Rows(def, t, envs), envs, n + 1, k)
    ensures var sub, r := CurrAt(def, flow, Steps(def, t, envs, n)), Steps(def, t, envs, k);
      var m, next := NodeAt(flow, sub).post.outputKey, CurrAt(def, flow, r);
      && Follows(flow, sub, v, next)
      && (m != "" && !HasPrefix(m, "$params.") ==> ReadsKey(flow, next, m, CallAt(InputOf(def, r), flow).input, v))
  {
    var n' := n + 1;
    var sub := CurrAt(def, flow, Steps(def, t, envs, n));
    var next, shared := AfterSuccess(def, t, flow, envs, n, n', v);
    UnsuccessfulSteps(def, t, flow, envs, n', k, next, shared);
    HeldCall(def, t, flow, envs, k, next, shared);
    var m := NodeAt(flow, sub).post.outputKey;
    if m != "" && !HasPrefix(m, "$params.") {
      InputHolds(InputOf(def, t), flow, next, shared, m, v);
    }
  }

  lemma LastState(j: NodeInput, flow: Flow, st: SubState, u: Json, e: SubEnd)
    requires Execute(j, flow, st, 0, Ok(u)) == Ends(e)
    ensures e.shared == Executor.WithOutputs(NodeAt(flow, st.curr).post, u, st.shared)
  {
  }

  lemma EndOutput(j: NodeInput, sub: Dict)
    ensures var o := j.node.post.outputKey;
      o != "" && o != "_rt" ==> Get(EndShared(j, sub), o) == Obj(sub)
  {
  }

  lemma LeavingOutput(def: Flow, t: Task, flow: Flow, r: Task, env: Env, curr: string, shared: Dict, u: Json)
    requires Enters(def, t, flow) && RowWith(def, t, flow, r, curr, shared) && !Rests(def, r, env)
    requires env.exec(0, Subflow.SubCall(InputOf(def, t), flow, curr, shared)) == Ok(u)
    ensures var o := NodeAt(def, t.cursor).post.outputKey;
      o != "" && o != "_rt" ==>
        Get(Advance(def, r, env).shared, o) == Obj(Executor.WithOutputs(NodeAt(flow, curr).post, u, shared))
  {
    var fails: nat :| Row(def, t, flow, r, SubState(curr, shared, fails));
    var e := RowLeaves(def, t, flow, r, SubState(curr, shared, fails), 0, env);
    LastState(InputOf(def, t), flow, SubState(curr, shared, fails), u, e);
    EndOutput(InputOf(def, t), e.shared);
  }

  /** The last sub-node leaves the output of sub-node `sub` alone. */
  predicate Spares(flow: Flow, last: string, sub: string) {
    var post := NodeAt(flow, last).post;
    post.outputMap.None? && post.outputKey != NodeAt(flow, sub).post.outputKey
  }

  lemma BothOutputs(flow: Flow, sub: string, last: string, v: Json, u: Json, shared: Dict)
    requires HasOutput(flow, sub, v, shared)
    ensures var shared' := Executor.WithOutputs(NodeAt(flow, last).post, u, shared);
      HasOutput(flow, last, u, shared') && (Spares(flow, last, sub) ==> HasOutput(flow, sub, v, shared'))
  {
    DataFlow.OutputsAre(NodeAt(flow, last).post, u, shared);
  }

  /** When that call is answered with u and ends the embedded flow, the output of the subflow node holds u under the
      output key of the last sub-node, and still holds v unless the last sub-node may write its key. */
  lemma LastOutput(def: Flow, t: Task, flow: Flow, envs: nat -> Env, n: nat, k: nat, v: Json, u: Json)
    requires Enters(def, t, flow) && Stays(def, t, envs, n) && n < k
    requires Succeeds(def, flow, Steps(def, t, envs, n), envs(n), v)
    requires NoSuccess(def, flow, Rows(def, t, envs), envs, n + 1, k)
    requires envs(k).exec(0, CallAt(InputOf(def, Steps(def, t, envs, k)), flow)) == Ok(u) && !RestsAt(def, t, envs, k)
    ensures var o := NodeAt(def, t.cursor).post.outputKey;
      var sub, last := CurrAt(def, flow, Steps(def, t, envs, n)), CurrAt(def, flow, Steps(def, t, envs, k));
      var out := Get(Steps(def, t, envs, k + 1).shared, o);
      o != "" && o != "_rt" ==>
        out.Obj? && HasOutput(flow, last, u, out.m) && (Spares(flow, last, sub) ==> HasOutput(flow, sub, v, out.m))
  {
    var n' := n + 1;
    var next, shared := AfterSuccess(def, t, flow, envs, n, n', v);
    UnsuccessfulSteps(def, t, flow, envs, n', k, next, shared);
    HeldCall(def, t, flow, envs, k, next, shared);
    LeavingOutput(def, t, flow, Steps(def, t, envs, k), envs(k), next, shared, u);
    BothOutputs(flow, CurrAt(def, flow, Steps(def, t, envs, n)), next, v, u, shared);
    StepsUnfold(def, t, envs, k);
  }

  // ---- the next try -----------------------------------------------------------------

  /** No step from n on and before k executes a sub-node. */
  ghost predicate Idle(def: Flow, flow: Flow, rows: nat -> Task, envs: nat -> Env, n: nat, k: nat) {
    forall i: nat | n <= i < k :: !Executes(def, flow, rows(i), envs(i))
  }

  /** The record of the row says when to try again. */
  predicate TryAt(def: Flow, flow: Flow, r: Task, at: int) {
    var i := InputOf(def, r);
    && Key(i) in RtOf(r.shared) && RtOf(r.shared)[Key(i)].Obj?
    && AsInt(Get(SfOf(i, flow), "next_try_at")) == at
  }

  ghost predicate Scheduled(def: Flow, t: Task, flow: Flow, r: Task, at: int) {
    TryAt(def, flow, r, at) && exists st :: Row(def, t, flow, r, st)
  }

  lemma FailureSchedules(def: Flow, t: Task, flow: Flow, r: Task, st: SubState, env: Env)
    requires Enters(def, t, flow) && Row(def, t, flow, r, st) && Fails(def, flow, r, env) && Rests(def, r, env)
    requires NodeAt(def, t.cursor).failureStrategy == "retry" && NodeAt(def, t.cursor).waitMs > 0
    ensures Scheduled(def, t, flow, Advance(def, r, env), env.nowMs + NodeAt(def, t.cursor).waitMs)
  {
    var i, at := InputOf(def, r), env.nowMs + NodeAt(def, t.cursor).waitMs;
    var next, _ := RowExecutes(def, t, flow, r, st, 0, env);
    assert next.Goes?;
    RowStepWrite(def, t, flow, r, st, env);
    var sf := Subflow.CountRetry(i.node, SfOf(i, flow), env.nowMs);
    IntRoundTrip(at);
    assert AsInt(Get(sf, "next_try_at")) == at;
    assert Advance(def, r, env).shared == PutEntry(r.shared, Key(i), sf);
    Fanout.PutEntryFacts(r.shared, Key(i), sf, Subflow.FreshSub(flow));
  }

  lemma IdleStep(def: Flow, t: Task, flow: Flow, r: Task, env: Env, at: int)
    requires Enters(def, t, flow) && Scheduled(def, t, flow, r, at) && !Executes(def, flow, r, env)
    ensures Scheduled(def, t, flow, Advance(def, r, env), at)
  {
    var i := InputOf(def, r);
    var st :| Row(def, t, flow, r, st);
    RowRests(def, t, flow, r, st, env);
    RowStepWrite(def, t, flow, r, st, env);
    if Tries(i, flow, env) {
      DeferringKeeps(InputOf(def, t), flow, i, st, env);
    } else {
      WaitingChangesNothing(i, flow, env);
    }
    assert Advance(def, r, env).shared == r.shared;
  }

  lemma IdleSteps(def: Flow, t: Task, flow: Flow, envs: nat -> Env, n: nat, k: nat, at: int)
    requires Enters(def, t, flow) && n <= k && Scheduled(def, t, flow, Steps(def, t, envs, n), at)
    requires Idle(def, flow, Rows(def, t, envs), envs, n, k)
    ensures Scheduled(def, t, flow, Steps(def, t, envs, k), at)
  {
    var kind := (r: Task, env: Env) => !Executes(def, flow, r, env);
    var keep := (r: Task) => Scheduled(def, t, flow, r, at);
    forall r, env ensures KeepsOne(def, kind, keep, r, env) {
      if keep(r) && kind(r, env) { IdleStep(def, t, flow, r, env, at); }
    }
    Kept(def, t, envs, kind, keep, n, k);
  }

  lemma FailureNext(def: Flow, t: Task, flow: Flow, envs: nat -> Env, n: nat, n': nat)
    requires n' == n + 1 && Enters(def, t, flow) && Stays(def, t, envs, n')
    requires Fails(def, flow, Steps(def, t, envs, n), envs(n))
    requires NodeAt(def, t.cursor).failureStrategy == "retry" && NodeAt(def, t.cursor).waitMs > 0
    ensures Scheduled(def, t, flow, Steps(def, t, envs, n'), envs(n).nowMs + NodeAt(def, t.cursor).waitMs)
  {
    assert RestsAt(def, t, envs, n);
    var st := RowAt(def, t, flow, envs, n);
    FailureSchedules(def, t, flow, Steps(def, t, envs, n), st, envs(n));
    StepsUnfold(def, t, envs, n);
  }

  /** After a failing execution a node that retries tries again exactly when its wait time has passed: until the next
      execution, a step waits if it comes earlier and does not if it comes later. */
  lemma RetryDelay(def: Flow, t: Task, flow: Flow, envs: nat -> Env, n: nat, k: nat)
    requires Enters(def, t, flow) && Stays(def, t, envs, n + 1) && n < k
    requires Fails(def, flow, Steps(def, t, envs, n), envs(n)) && Idle(def, flow, Rows(def, t, envs), envs, n + 1, k)
    requires NodeAt(def, t.cursor).failureStrategy == "retry" && NodeAt(def, t.cursor).waitMs > 0
    ensures var at := envs(n).nowMs + NodeAt(def, t.cursor).waitMs;
      at > 0 ==> (Tries(InputOf(def, Steps(def, t, envs, k)), flow, envs(k)) <==> envs(k).nowMs >= at)
  {
    var n', at := n + 1, envs(n).nowMs + NodeAt(def, t.cursor).waitMs;
    FailureNext(def, t, flow, envs, n, n');
    IdleSteps(def, t, flow, envs, n', k, at);
  }
}
