/** What executor nodes make of their input, and how it travels from node to node over whole runs. */
module DataFlow {
  import opened Json
  import opened Util
  import opened Types
  import opened Core
  import opened Step
  import opened Runs
  import opened Executor
  import opened Inputs

  // ---- one step ---------------------------------------------------------------------

  /** Deterministic executors. */
  ghost predicate ByCall(env: Env, g: ExecIn -> Outcome) {
    forall slot: nat, call :: env.exec(slot, call) == g(call)
  }

  /** What a successful executor with result v leaves: the output key holds v, the keys of the output map hold its
      fields if it is a map, and nothing else has changed. */
  ghost predicate Outputs(post: Post, v: Json, shared: Dict, shared': Dict) {
    && (post.outputKey != "" ==> Get(shared', post.outputKey) == v)
    && (forall k | k in shared || k in shared' || (post.outputMap.Some? && k in post.outputMap.value) ::
          k == "" || k != post.outputKey ==>
            if post.outputMap.Some? && v.Obj? && k in post.outputMap.value then
              k in shared' && shared'[k] == Field(v, post.outputMap.value[k])
            else (k in shared' <==> k in shared) && (k in shared ==> shared'[k] == shared[k]))
  }

  /** The static action wins over the action key, under which only a string of a map is an action. */
  predicate Chooses(post: Post, v: Json, action: string) {
    if post.actionStatic != "" then action == post.actionStatic
    else if post.actionKey != "" && Field(v, post.actionKey).Str? then Str(action) == Field(v, post.actionKey)
    else action == ""
  }

  lemma OutputsAre(post: Post, v: Json, shared: Dict)
    ensures Outputs(post, v, shared, WithOutputs(post, v, shared)) && Chooses(post, v, ActionOf(post, v))
  {
  }

  predicate Running(t: Task) {
    t.status == "pending" || t.status == "running"
  }

  /** A row at an executor node. Called as the node says, with the input of the row and with the parameters of the node
      overridden by those of the task, the executor answers out. */
  ghost predicate Calls(def: Flow, t: Task, env: Env, g: ExecIn -> Outcome, out: Outcome) {
    var node := NodeAt(def, t.cursor);
    && PlainKind(node.kind) && Running(t) && ByCall(env, g)
    && g(ExecIn(node.use, t.cursor, InputOf(def, t).input, node.params + t.params)) == out
  }

  /** The retry loop ends with that answer, too. */
  lemma {:induction false} SameAnswer(exec: Oracle, call: ExecIn, maxRetries: int, attempt: nat, out: Outcome)
    requires forall slot: nat :: exec(slot, call) == out
    ensures RetryLoop(exec, call, maxRetries, attempt).out == out
    decreases maxRetries - attempt
  {
    if Retries(out, attempt, maxRetries) {
      SameAnswer(exec, call, maxRetries, attempt + 1, out);
    }
  }

  lemma CallEnds(def: Flow, t: Task, env: Env, g: ExecIn -> Outcome, out: Outcome)
    requires Calls(def, t, env, g, out)
    ensures StepWrite(def, t, env) == Some(EndOf(InputOf(def, t), out))
  {
    var j := InputOf(def, t);
    assert CallOf(j) == ExecIn(j.node.use, t.cursor, j.input, j.node.params + t.params);
    SameAnswer(env.exec, CallOf(j), j.node.maxRetries, 1, out);
  }

  /** A step of an executor node is the answer of its executor to that call: a result goes to the outputs and along the
      edge of its action, an error along the default edge with the shared state unchanged. */
  lemma ExecutorMeaning(def: Flow, t: Task, env: Env, g: ExecIn -> Outcome, out: Outcome)
    requires Calls(def, t, env, g, out) && !out.Pending?
    ensures var t', post := Advance(def, t, env), NodeAt(def, t.cursor).post;
      && (if out.Ok? then Outputs(post, out.value, t.shared, t'.shared) && Chooses(post, out.value, t'.lastAction)
          else t'.shared == t.shared && t'.lastAction == "")
      && t'.cursor == FindNext(def.edges, t.cursor, t'.lastAction) && t'.steps == t.steps + 1
      && t'.status == (if t'.cursor != "" then "running" else if out.Ok? then "completed" else "failed")
      && t'.params == t.params && t'.flowId == t.flowId
  {
    CallEnds(def, t, env, g, out);
    if out.Ok? {
      OutputsAre(NodeAt(def, t.cursor).post, out.value, t.shared);
    }
  }

  // ---- from step to step ------------------------------------------------------------

  /** The input of the node is the value of shared key k. */
  predicate Reads(node: Node, k: string) {
    node.prep.inputMap.None? && node.prep.inputKey == "$shared." + k
  }

  /** What one executor node stores under its output key is what its successor is called with, as its input or under a
      name of its input map. */
  lemma HandsOver(def: Flow, t: Task, env: Env, g: ExecIn -> Outcome, v: Json)
    requires Calls(def, t, env, g, Ok(v)) && PlainKey(NodeAt(def, t.cursor).post.outputKey)
    ensures var t', k := Advance(def, t, env), NodeAt(def, t.cursor).post.outputKey;
      var prep := NodeAt(def, t'.cursor).prep;
      && (Reads(NodeAt(def, t'.cursor), k) ==> InputOf(def, t').input == v)
      && (prep.inputMap.Some? ==> forall name | name in prep.inputMap.value
            && prep.inputMap.value[name] == "$shared." + k :: Field(InputOf(def, t').input, name) == v)
  {
    var t', k := Advance(def, t, env), NodeAt(def, t.cursor).post.outputKey;
    var prep := NodeAt(def, t'.cursor).prep;
    ExecutorMeaning(def, t, env, g, Ok(v));
    if Reads(NodeAt(def, t'.cursor), k) {
      InputFromKey(def, t', k, v);
    } else if prep.inputMap.Some? {
      forall name | name in prep.inputMap.value && prep.inputMap.value[name] == "$shared." + k
        ensures Field(InputOf(def, t').input, name) == v
      {
        InputFromMap(def, t', name, k, v);
      }
    }
  }

  // ---- whole runs -------------------------------------------------------------------

  function NodeOfRow(def: Flow, t: Task, envs: nat -> Env, i: nat): Node {
    NodeAt(def, Steps(def, t, envs, i).cursor)
  }

  /** The key node i of the run reads: k at first, and then what the node before it has written. */
  function Source(def: Flow, t: Task, envs: nat -> Env, k: string, i: nat): string {
    if i == 0 then k else NodeOfRow(def, t, envs, i - 1).post.outputKey
  }

  /** Step i is an executor node that reads what the step before it has written. */
  predicate LinkAt(def: Flow, t: Task, envs: nat -> Env, k: string, i: nat) {
    var node := NodeOfRow(def, t, envs, i);
    && Running(Steps(def, t, envs, i)) && PlainKind(node.kind) && PlainKey(node.post.outputKey)
    && PlainKey(Source(def, t, envs, k, i)) && Reads(node, Source(def, t, envs, k, i))
  }

  ghost predicate Chain(def: Flow, t: Task, envs: nat -> Env, k: string, n: nat) {
    forall i: nat | i < n :: LinkAt(def, t, envs, k, i)
  }

  ghost predicate Computes(envs: nat -> Env, g: ExecIn -> Json) {
    forall i: nat :: ByCall(envs(i), (call: ExecIn) => Ok(g(call)))
  }

  /** The executors of the first n nodes, one after the other, applied to x. */
  function Composed(def: Flow, t: Task, envs: nat -> Env, g: ExecIn -> Json, n: nat, x: Json): Json {
    if n == 0 then x
    else
      var r := Steps(def, t, envs, n - 1);
      var node := NodeAt(def, r.cursor);
      g(ExecIn(node.use, r.cursor, Composed(def, t, envs, g, n - 1, x), node.params + r.params))
  }

  ghost predicate Carries(def: Flow, t: Task, envs: nat -> Env, g: ExecIn -> Json, k: string, n: nat) {
    Field(Obj(Steps(def, t, envs, n).shared), Source(def, t, envs, k, n))
    == Composed(def, t, envs, g, n, Field(Obj(t.shared), k))
  }

  lemma LinkCarries(def: Flow, r: Task, env: Env, g: ExecIn -> Json, k: string)
    requires ByCall(env, (call: ExecIn) => Ok(g(call))) && Running(r) && PlainKey(k) && Reads(NodeAt(def, r.cursor), k)
    requires PlainKind(NodeAt(def, r.cursor).kind) && PlainKey(NodeAt(def, r.cursor).post.outputKey)
    ensures var r', node := Advance(def, r, env), NodeAt(def, r.cursor);
      Field(Obj(r'.shared), node.post.outputKey)
      == g(ExecIn(node.use, r.cursor, Field(Obj(r.shared), k), node.params + r.params))
  {
    var x, node := Field(Obj(r.shared), k), NodeAt(def, r.cursor);
    InputFromKey(def, r, k, x);
    ExecutorMeaning(def, r, env, (call: ExecIn) => Ok(g(call)),
      Ok(g(ExecIn(node.use, r.cursor, x, node.params + r.params))));
  }

  lemma LinkNext(def: Flow, t: Task, envs: nat -> Env, g: ExecIn -> Json, k: string, n: nat, n': nat)
    requires n' == n + 1 && Computes(envs, g) && LinkAt(def, t, envs, k, n) && Carries(def, t, envs, g, k, n)
    ensures Carries(def, t, envs, g, k, n')
  {
    LinkCarries(def, Steps(def, t, envs, n), envs(n), g, Source(def, t, envs, k, n));
    StepsUnfold(def, t, envs, n);
  }

  /** A pipeline computes the composition of its executors: after n steps, each reading what the one before has written,
      the last output key holds the composition applied to the value that was there at first. */
  lemma {:induction false} Pipeline(def: Flow, t: Task, envs: nat -> Env, g: ExecIn -> Json, k: string, n: nat)
    requires Computes(envs, g) && Chain(def, t, envs, k, n)
    ensures Carries(def, t, envs, g, k, n)
  {
    if n > 0 {
      var m := n - 1;
      assert LinkAt(def, t, envs, k, m);
      Pipeline(def, t, envs, g, k, m);
      LinkNext(def, t, envs, g, k, m, n);
    }
  }
}
