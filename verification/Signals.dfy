/** Which values end a wait, and how a posted value reaches the node that waits for it (pkg/engine/wait_event.go,
    pkg/engine/approval.go, pkg/server/server.go). */
module Signals {
  import opened Json
  import opened Util
  import opened Types
  import opened Store
  import opened Core
  import opened Step
  import opened Inputs
  import opened Waiting
  import opened WaitingRuns
  import Invariants

  /** The parameter names shared key k. */
  predicate Watches(params: Dict, param: string, k: string) {
    PlainKey(k) && Field(Obj(params), param) == Str("$shared." + k)
  }

  lemma WatchedValue(j: NodeInput, k: string)
    requires PlainKey(k)
    ensures Watches(j.params, "signal_key", k) ==> Signal(j) == Field(Obj(j.shared), k)
    ensures Watches(j.params, "approval_key", k) ==> ApprovalValue(j) == Field(Obj(j.shared), k)
  {
    PlainReferences(k, j.shared, j.params, j.input);
  }

  /** Without a timeout a wait_event node leaves exactly if the watched key holds anything but null, the empty string
      and false; zero and empty lists do signal. */
  lemma SignalValues(j: NodeInput, env: Env, k: string)
    requires Watches(j.params, "signal_key", k) && AsInt(Get(j.params, "timeout_ms")) <= 0
    ensures WaitEventStep(j, env).move == Follow <==>
      k in j.shared && j.shared[k] != Null && j.shared[k] != Str("") && j.shared[k] != Bool(false)
  {
    WatchedValue(j, k);
  }

  /** An approval node leaves exactly if the watched key holds anything but null and the empty string; false decides. */
  lemma DecisionValues(j: NodeInput, k: string)
    requires Watches(j.params, "approval_key", k)
    ensures ApprovalStep(j).move == Follow <==> k in j.shared && j.shared[k] != Null && j.shared[k] != Str("")
  {
    WatchedValue(j, k);
  }

  /** The row has left the waiting node with value v under the output key, along the edge of the action. */
  predicate Released(def: Flow, t: Task, r: Task, v: Json, action: string) {
    var o := NodeAt(def, t.cursor).post.outputKey;
    && (o != "" && o != "_rt" ==> Field(Obj(r.shared), o) == v)
    && r.lastAction == action && r.cursor == FindNext(def.edges, t.cursor, action)
    && r.status == (if r.cursor == "" then "completed" else "running")
  }

  lemma LeavesReleased(def: Flow, t: Task, t1: Task, env: Env, w: Write, key: string, v: Json)
    requires t1.cursor == t.cursor && StepWrite(def, t1, env) == Some(w) && LeavesWith(InputOf(def, t1), w, key, v)
    ensures Released(def, t, Advance(def, t1, env), v, w.action)
  {
    var o := NodeAt(def, t.cursor).post.outputKey;
    if o != "" && o != "_rt" {
      assert SetOutput(t1.shared, o, v)[o] == v && o in SetOutput(t1.shared, o, v) - {"_rt"};
      assert o in w.shared - {"_rt"} && w.shared[o] == (w.shared - {"_rt"})[o];
    }
  }

  lemma TwoEvents(def: Flow, t: Task, t1: Task, ev: Invariants.Event, env: Env)
    requires Invariants.Apply(def, t, ev) == t1 && Invariants.Steppable(t1)
    ensures Invariants.Run(def, t, [ev, Invariants.Stepped(env)]) == Advance(def, t1, env)
  {
    var evs, step := [ev, Invariants.Stepped(env)], [Invariants.Stepped(env)];
    var t2 := Advance(def, t1, env);
    assert evs[1..] == step && step[1..] == [];
    assert Invariants.Run(def, t2, []) == t2;
    assert Invariants.Apply(def, t1, step[0]) == t2;
    assert Invariants.Run(def, t1, step) == t2;
  }

  /** The static action decides, or without one a string value under the action key "signal". */
  function SignalChoice(post: Post, v: Json): string {
    if post.actionStatic != "" then post.actionStatic
    else if post.actionKey == "signal" && v.Str? then v.s else ""
  }

  /** True and false approve and reject, a string is its own action, and other values take the static one; with an
      action key only a string under "approval" is an action. */
  function DecisionChoice(post: Post, v: Json): string {
    if post.actionKey != "" then if post.actionKey == "approval" && v.Str? then v.s else ""
    else if v.Bool? then if v.b then "approved" else "rejected"
    else if v.Str? then v.s else post.actionStatic
  }

  lemma SignalStep(j: NodeInput, env: Env, k: string, v: Json)
    requires Watches(j.params, "signal_key", k) && Field(Obj(j.shared), k) == v
    requires v != Null && v != Str("") && v != Bool(false)
    ensures var w := WaitEventStep(j, env);
      LeavesWith(j, w, "we:" + j.key, v) && w.action == SignalChoice(j.node.post, v)
  {
    WatchedValue(j, k);
    SignalEnds(j, env);
  }

  lemma DecisionStep(j: NodeInput, k: string, v: Json)
    requires Watches(j.params, "approval_key", k) && Field(Obj(j.shared), k) == v && v != Null && v != Str("")
    ensures var w := ApprovalStep(j);
      LeavesWith(j, w, "ap:" + j.key, v) && w.action == DecisionChoice(j.node.post, v)
  {
    WatchedValue(j, k);
    DecisionEnds(j);
  }

  function Posted(t: Task, k: string, v: Json, now: int): Task {
    WithProgress(t, t.cursor, "", t.shared[k := v], t.steps, now)
  }

  lemma PostedInput(def: Flow, t: Task, k: string, v: Json, now: int) returns (j: NodeInput)
    ensures j == InputOf(def, Posted(t, k, v, now)) && Field(Obj(j.shared), k) == v
    ensures j.node == NodeAt(def, t.cursor) && j.key == t.cursor && j.params == NodeAt(def, t.cursor).params + t.params
  {
    j := InputOf(def, Posted(t, k, v, now));
  }

  /** A value that is posted while a wait_event node waits ends the wait with its next step, as its output. */
  lemma PostedSignal(def: Flow, t: Task, k: string, v: Json, now: int, env: Env)
    requires NodeAt(def, t.cursor).kind == "wait_event" && (t.status == "pending" || t.status == "running")
    requires Watches(NodeAt(def, t.cursor).params + t.params, "signal_key", k)
    requires v != Null && v != Str("") && v != Bool(false)
    ensures var r := Invariants.Run(def, t, [Invariants.Signalled(k, v, now), Invariants.Stepped(env)]);
      Released(def, t, r, v, SignalChoice(NodeAt(def, t.cursor).post, v))
  {
    var j := PostedInput(def, t, k, v, now);
    SignalStep(j, env, k, v);
    LeavesReleased(def, t, Posted(t, k, v, now), env, WaitEventStep(j, env), "we:" + j.key, v);
    TwoEvents(def, t, Posted(t, k, v, now), Invariants.Signalled(k, v, now), env);
  }

  /** A decision that is posted while an approval node waits ends it with its next step, as its output. */
  lemma PostedDecision(def: Flow, t: Task, k: string, v: Json, now: int, env: Env)
    requires NodeAt(def, t.cursor).kind == "approval" && (t.status == "pending" || t.status == "running")
    requires Watches(NodeAt(def, t.cursor).params + t.params, "approval_key", k) && v != Null && v != Str("")
    ensures var r := Invariants.Run(def, t, [Invariants.Signalled(k, v, now), Invariants.Stepped(env)]);
      Released(def, t, r, v, DecisionChoice(NodeAt(def, t.cursor).post, v))
  {
    var j := PostedInput(def, t, k, v, now);
    DecisionStep(j, k, v);
    LeavesReleased(def, t, Posted(t, k, v, now), env, ApprovalStep(j), "ap:" + j.key, v);
    TwoEvents(def, t, Posted(t, k, v, now), Invariants.Signalled(k, v, now), env);
  }

  /** A cancel request takes effect with the next step: the task ends, with its state and count unchanged. */
  lemma CancelEnds(def: Flow, t: Task, now: int, env: Env)
    requires !Invariants.Finished(t.status)
    ensures var r := Invariants.Run(def, t, [Invariants.CancelRequested(now), Invariants.Stepped(env)]);
      && r.status == "canceled" && r.cursor == "" && r.lastAction == "canceled"
      && r.shared == t.shared && r.steps == t.steps
  {
    TwoEvents(def, t, WithStatus(t, "canceling", now), Invariants.CancelRequested(now), env);
  }
}
