/** Running an embedded flow one sub-node per RunOnce equals interpreting it at once. Steps that wait for the next try,
    or whose executor defers, may come in between. */
module SubflowMeaning {
  import opened Json
  import opened Util
  import opened Types
  import opened Core
  import opened Step
  import opened Runs
  import opened SubflowVisit
  import Subflow
  import Executor
  import Invariants

  // ---- rows of a visit --------------------------------------------------------------

  /** A row enters a subflow node that has no record. */
  ghost predicate Enters(def: Flow, t: Task, flow: Flow) {
    var j := InputOf(def, t);
    && j.node.kind == "subflow" && j.node.subflow == Some(flow) && flow.start != ""
    && Key(j) !in RtOf(t.shared)
    && (t.status == "pending" || t.status == "running")
  }

  /** A row of the visit: the cursor rests, the parent state differs under "_rt" only, and the record holds the
      interpreter state st. */
  ghost predicate Row(def: Flow, t: Task, flow: Flow, r: Task, st: SubState) {
    && r.cursor == t.cursor && r.params == t.params && r.status != "canceling"
    && Inside(InputOf(def, t), flow, InputOf(def, r), st)
  }

  /** The sub-node call of a step, if it makes one. */
  function CallAt(i: NodeInput, flow: Flow): ExecIn {
    var sf := SfOf(i, flow);
    Subflow.SubCall(i, flow, AsStr(Get(sf, "curr")), AsObj(Subflow.MapOrNull(Get(sf, "shared"))))
  }

  /** The step executes a sub-node: it does not wait, and the executor does not defer. */
  predicate Executes(def: Flow, flow: Flow, r: Task, env: Env) {
    var i := InputOf(def, r);
    Tries(i, flow, env) && !env.exec(0, CallAt(i, flow)).Pending?
  }

  predicate Fails(def: Flow, flow: Flow, r: Task, env: Env) {
    Executes(def, flow, r, env) && env.exec(0, CallAt(InputOf(def, r), flow)).Err?
  }

  /** The step stays on the node or parks. */
  predicate Rests(def: Flow, r: Task, env: Env) {
    var w := StepWrite(def, r, env);
    w.Some? && (w.value.move == Stay || w.value.move == Park)
  }

  /** The first n steps rest. */
  ghost predicate Stays(def: Flow, t: Task, envs: nat -> Env, n: nat) {
    forall k: nat | k < n :: RestsAt(def, t, envs, k)
  }

  predicate RestsAt(def: Flow, t: Task, envs: nat -> Env, k: nat) {
    Rests(def, Steps(def, t, envs, k), envs(k))
  }

  function Executions(def: Flow, t: Task, flow: Flow, envs: nat -> Env): nat -> bool {
    (k: nat) => Executes(def, flow, Steps(def, t, envs, k), envs(k))
  }

  function Failures(def: Flow, t: Task, flow: Flow, envs: nat -> Env): nat -> bool {
    (k: nat) => Fails(def, flow, Steps(def, t, envs, k), envs(k))
  }

  /** The executing steps among the first n, in order. */
  function History(def: Flow, t: Task, flow: Flow, envs: nat -> Env, n: nat): seq<nat> {
    Hits(Executions(def, t, flow, envs), n)
  }

  /** How many of the first n steps executed a sub-node that failed. */
  function FailureCount(def: Flow, t: Task, flow: Flow, envs: nat -> Env, n: nat): nat {
    |Hits(Failures(def, t, flow, envs), n)|
  }

  /** Execution k is answered by step h[k]. */
  ghost predicate Answered(run: nat -> ExecIn -> Outcome, envs: nat -> Env, h: seq<nat>) {
    forall k, call | 0 <= k < |h| :: run(k)(call) == envs(h[k]).exec(0, call)
  }

  lemma CallIs(def: Flow, t: Task, flow: Flow, r: Task, st: SubState)
    requires Row(def, t, flow, r, st)
    ensures CallAt(InputOf(def, r), flow) == Subflow.SubCall(InputOf(def, t), flow, st.curr, st.shared)
  {
  }

  lemma RowStepWrite(def: Flow, t: Task, flow: Flow, r: Task, st: SubState, env: Env)
    requires Enters(def, t, flow) && Row(def, t, flow, r, st)
    ensures StepWrite(def, r, env) == Subflow.SubflowStep(InputOf(def, r), env)
  {
  }

  /** A step that does not execute rests, and keeps the interpreter state. */
  lemma RowRests(def: Flow, t: Task, flow: Flow, r: Task, st: SubState, env: Env)
    requires Enters(def, t, flow) && Row(def, t, flow, r, st) && !Executes(def, flow, r, env)
    ensures Rests(def, r, env) && Row(def, t, flow, Advance(def, r, env), st)
  {
    var j, i := InputOf(def, t), InputOf(def, r);
    CallIs(def, t, flow, r, st);
    RowStepWrite(def, t, flow, r, st, env);
    if Tries(i, flow, env) {
      DeferringKeeps(j, flow, i, st, env);
    } else {
      var shared := WaitingKeeps(j, flow, i, st, env);
    }
  }

  /** A step that executes is one execution of the interpreter. */
  lemma RowExecutes(def: Flow, t: Task, flow: Flow, r: Task, st: SubState, k: nat, env: Env)
    returns (next: SubNext, shared: Dict)
    requires Enters(def, t, flow) && Row(def, t, flow, r, st) && Executes(def, flow, r, env)
    ensures var j, i := InputOf(def, t), InputOf(def, r);
      var out := env.exec(0, Subflow.SubCall(j, flow, st.curr, st.shared));
      && !out.Pending? && next == Execute(j, flow, st, k, out) && (out.Err? <==> Fails(def, flow, r, env))
      && StepWrite(def, r, env) == Some(if next.Goes? then KeepRunning(i, shared) else EndWrite(j, i, next.e))
    ensures next.Goes? ==> Row(def, t, flow, Advance(def, r, env), next.st)
  {
    var j, i := InputOf(def, t), InputOf(def, r);
    CallIs(def, t, flow, r, st);
    RowStepWrite(def, t, flow, r, st, env);
    var out := env.exec(0, Subflow.SubCall(j, flow, st.curr, st.shared));
    next := Execute(j, flow, st, k, out);
    if out.Ok? {
      shared := StepSucceeds(j, flow, i, st, env, k);
    } else {
      shared := StepFails(j, flow, i, st, env, k);
    }
  }

  // ---- the run and the interpreter --------------------------------------------------

  function Begin(flow: Flow): SubState {
    SubState(flow.start, map[], 0)
  }

  /** After its first k executions the interpreter is in state st. */
  ghost predicate Reaches(j: NodeInput, flow: Flow, run: nat -> ExecIn -> Outcome, k: nat, st: SubState) {
    forall fuel: nat :: ReachesWith(j, flow, run, k, st, fuel)
  }

  predicate ReachesWith(j: NodeInput, flow: Flow, run: nat -> ExecIn -> Outcome, k: nat, st: SubState, fuel: nat) {
    Interpret(j, flow, run, 0, Begin(flow), k + fuel) == Interpret(j, flow, run, k, st, fuel)
  }

  /** The failures so far have not used up the budget. */
  predicate WithinBudget(node: Node, failures: nat) {
    if node.failureStrategy == "retry" then node.maxRetries > 0 ==> failures < node.maxRetries else failures == 0
  }

  lemma ReachesNext(j: NodeInput, flow: Flow, run: nat -> ExecIn -> Outcome, k: nat, st: SubState, st': SubState)
    requires Reaches(j, flow, run, k, st)
    requires !run(k)(Subflow.SubCall(j, flow, st.curr, st.shared)).Pending?
    requires Execute(j, flow, st, k, run(k)(Subflow.SubCall(j, flow, st.curr, st.shared))) == Goes(st')
    ensures Reaches(j, flow, run, k + 1, st')
  {
    var k' := k + 1;
    forall fuel: nat ensures ReachesWith(j, flow, run, k', st', fuel) {
      assert ReachesWith(j, flow, run, k, st, 1 + fuel);
      assert k + (1 + fuel) == k' + fuel;
    }
  }

  lemma ReachesEnd(j: NodeInput, flow: Flow, run: nat -> ExecIn -> Outcome, k: nat, st: SubState, e: SubEnd)
    requires Reaches(j, flow, run, k, st)
    requires !run(k)(Subflow.SubCall(j, flow, st.curr, st.shared)).Pending?
    requires Execute(j, flow, st, k, run(k)(Subflow.SubCall(j, flow, st.curr, st.shared))) == Ends(e)
    ensures Interpret(j, flow, run, 0, Begin(flow), k + 1) == Some(e) && e.last == k
  {
    assert ReachesWith(j, flow, run, k, st, 1);
  }

  /** What is known after a number of steps that rested: the row holds the state the interpreter reaches with the
      executions so far, and the failures among them are within the budget. */
  ghost predicate Resting(def: Flow, t: Task, flow: Flow, run: nat -> ExecIn -> Outcome, r: Task, st: SubState,
      executed: nat, failed: nat) {
    && Row(def, t, flow, r, st) && st.fails == failed && WithinBudget(NodeAt(def, t.cursor), failed)
    && Reaches(InputOf(def, t), flow, run, executed, st)
  }

  lemma Begins(def: Flow, t: Task, flow: Flow, run: nat -> ExecIn -> Outcome)
    requires Enters(def, t, flow)
    ensures Resting(def, t, flow, run, t, Begin(flow), 0, 0)
  {
    SubflowVisit.Starts(InputOf(def, t), flow);
  }

  /** A step that executes and rests takes the interpreter one execution further. */
  lemma ExecutionRests(def: Flow, t: Task, flow: Flow, run: nat -> ExecIn -> Outcome, r: Task, st: SubState, k: nat,
      env: Env) returns (st': SubState)
    requires Enters(def, t, flow) && Resting(def, t, flow, run, r, st, k, st.fails)
    requires Executes(def, flow, r, env) && Rests(def, r, env) && forall call :: run(k)(call) == env.exec(0, call)
    ensures Resting(def, t, flow, run, Advance(def, r, env), st', k + 1,
      st.fails + if Fails(def, flow, r, env) then 1 else 0)
  {
    var next, shared := RowExecutes(def, t, flow, r, st, k, env);
    assert next.Goes?;
    st' := next.st;
    ReachesNext(InputOf(def, t), flow, run, k, st, st');
  }

  lemma RestingStep(def: Flow, t: Task, flow: Flow, run: nat -> ExecIn -> Outcome, r: Task, st: SubState, k: nat,
      failed: nat, env: Env) returns (st': SubState)
    requires Enters(def, t, flow) && Resting(def, t, flow, run, r, st, k, failed) && Rests(def, r, env)
    requires Executes(def, flow, r, env) ==> forall call :: run(k)(call) == env.exec(0, call)
    ensures Resting(def, t, flow, run, Advance(def, r, env), st', k + if Executes(def, flow, r, env) then 1 else 0,
      failed + if Fails(def, flow, r, env) then 1 else 0)
  {
    if Executes(def, flow, r, env) {
      st' := ExecutionRests(def, t, flow, run, r, st, k, env);
    } else {
      RowRests(def, t, flow, r, st, env);
      st' := st;
    }
  }

  lemma HistoryGrows(def: Flow, t: Task, flow: Flow, envs: nat -> Env, n: nat)
    ensures var r := Steps(def, t, envs, n);
      && History(def, t, flow, envs, n + 1)
         == History(def, t, flow, envs, n) + (if Executes(def, flow, r, envs(n)) then [n] else [])
      && FailureCount(def, t, flow, envs, n + 1)
         == FailureCount(def, t, flow, envs, n) + (if Fails(def, flow, r, envs(n)) then 1 else 0)
  {
  }

  lemma AnsweredSoFar(run: nat -> ExecIn -> Outcome, envs: nat -> Env, h: seq<nat>, rest: seq<nat>)
    requires Answered(run, envs, h + rest)
    ensures Answered(run, envs, h)
    ensures rest != [] ==> forall call :: run(|h|)(call) == envs(rest[0]).exec(0, call)
  {
    forall k, call | 0 <= k < |h| ensures run(k)(call) == envs(h[k]).exec(0, call) {
      assert (h + rest)[k] == h[k];
    }
    if rest != [] {
      assert (h + rest)[|h|] == rest[0];
    }
  }

  ghost predicate RestingAt(def: Flow, t: Task, flow: Flow, envs: nat -> Env, run: nat -> ExecIn -> Outcome, n: nat,
      st: SubState)
  {
    Resting(def, t, flow, run, Steps(def, t, envs, n), st,
      |History(def, t, flow, envs, n)|, FailureCount(def, t, flow, envs, n))
  }

  lemma RestingNext(def: Flow, t: Task, flow: Flow, envs: nat -> Env, run: nat -> ExecIn -> Outcome, n: nat, n': nat,
      st: SubState) returns (st': SubState)
    requires n' == n + 1
    requires Enters(def, t, flow) && RestingAt(def, t, flow, envs, run, n, st) && RestsAt(def, t, envs, n)
    requires Answered(run, envs, History(def, t, flow, envs, n'))
    ensures RestingAt(def, t, flow, envs, run, n', st')
  {
    var h, r := History(def, t, flow, envs, n), Steps(def, t, envs, n);
    HistoryGrows(def, t, flow, envs, n);
    AnsweredSoFar(run, envs, h, if Executes(def, flow, r, envs(n)) then [n] else []);
    st' := RestingStep(def, t, flow, run, r, st, |h|, FailureCount(def, t, flow, envs, n), envs(n));
    StepsUnfold(def, t, envs, n);
  }

  lemma RestingBegins(def: Flow, t: Task, flow: Flow, envs: nat -> Env, run: nat -> ExecIn -> Outcome, n: nat)
    requires Enters(def, t, flow) && n == 0
    ensures RestingAt(def, t, flow, envs, run, n, Begin(flow))
  {
    Begins(def, t, flow, run);
  }

  lemma OneFewer(def: Flow, t: Task, flow: Flow, envs: nat -> Env, run: nat -> ExecIn -> Outcome, n: nat, n': nat)
    requires n' == n + 1 && Answered(run, envs, History(def, t, flow, envs, n')) && Stays(def, t, envs, n')
    ensures Stays(def, t, envs, n) && RestsAt(def, t, envs, n)
    ensures Answered(run, envs, History(def, t, flow, envs, n))
  {
    HistoryGrows(def, t, flow, envs, n);
    AnsweredSoFar(run, envs, History(def, t, flow, envs, n),
      if Executes(def, flow, Steps(def, t, envs, n), envs(n)) then [n] else []);
  }

  /** As long as every step rests, the row follows the interpreter. */
  lemma {:induction false} RestingRun(def: Flow, t: Task, flow: Flow, envs: nat -> Env, run: nat -> ExecIn -> Outcome,
      n: nat) returns (st: SubState)
    requires Enters(def, t, flow) && Answered(run, envs, History(def, t, flow, envs, n)) && Stays(def, t, envs, n)
    ensures RestingAt(def, t, flow, envs, run, n, st)
  {
    if n == 0 {
      RestingBegins(def, t, flow, envs, run, n);
      st := Begin(flow);
    } else {
      var m := n - 1;
      OneFewer(def, t, flow, envs, run, m, n);
      var before := RestingRun(def, t, flow, envs, run, m);
      st := RestingNext(def, t, flow, envs, run, m, n, before);
    }
  }

  // ---- the failure budget -----------------------------------------------------------

  /** The executing steps h as a run; it defers after the last of them. */
  function RunOf(envs: nat -> Env, h: seq<nat>): nat -> ExecIn -> Outcome {
    (k: nat) => (call: ExecIn) => if k < |h| then envs(h[k]).exec(0, call) else Pending
  }

  lemma RunAnswers(envs: nat -> Env, h: seq<nat>)
    ensures Answered(RunOf(envs, h), envs, h)
  {
  }

  /** A failing execution from a row within the budget ends the node exactly if it uses the budget up. */
  lemma FailureEnds(def: Flow, t: Task, flow: Flow, r: Task, st: SubState, env: Env)
    requires Enters(def, t, flow) && Row(def, t, flow, r, st) && Fails(def, flow, r, env)
    ensures StepWrite(def, r, env).Some?
    ensures StepWrite(def, r, env).value.move == if GivesUp(NodeAt(def, t.cursor), st.fails + 1) then Follow else Stay
  {
    var next, shared := RowExecutes(def, t, flow, r, st, 0, env);
  }

  /** The failure budget over persisted steps, waits, deferrals and cycles of the embedded flow included. While the
      visit lasts, the stored retries are the failing executions of all sub-nodes so far: fewer than a positive
      maxRetries with strategy retry, and none without it. The failing execution that uses the budget up ends the
      node, and no other does. */
  lemma FailureBudget(def: Flow, t: Task, flow: Flow, envs: nat -> Env, n: nat)
    requires Enters(def, t, flow) && Stays(def, t, envs, n)
    ensures var node, failed := NodeAt(def, t.cursor), FailureCount(def, t, flow, envs, n);
      && AsInt(Get(SfOf(InputOf(def, Steps(def, t, envs, n)), flow), "retries")) == failed
      && WithinBudget(node, failed)
      && (Fails(def, flow, Steps(def, t, envs, n), envs(n)) ==>
            && StepWrite(def, Steps(def, t, envs, n), envs(n)).Some?
            && StepWrite(def, Steps(def, t, envs, n), envs(n)).value.move
               == if GivesUp(node, failed + 1) then Follow else Stay)
  {
    var h := History(def, t, flow, envs, n);
    RunAnswers(envs, h);
    var st := RestingRun(def, t, flow, envs, RunOf(envs, h), n);
    if Fails(def, flow, Steps(def, t, envs, n), envs(n)) {
      FailureEnds(def, t, flow, Steps(def, t, envs, n), st, envs(n));
    }
  }

  /** In the whole visit, its last step included, at most maxRetries executions fail. */
  lemma VisitBudget(def: Flow, t: Task, flow: Flow, envs: nat -> Env, n: nat)
    requires Enters(def, t, flow) && Stays(def, t, envs, n)
    requires NodeAt(def, t.cursor).failureStrategy == "retry" && NodeAt(def, t.cursor).maxRetries > 0
    ensures FailureCount(def, t, flow, envs, n + 1) <= NodeAt(def, t.cursor).maxRetries
  {
    FailureBudget(def, t, flow, envs, n);
    HistoryGrows(def, t, flow, envs, n);
  }

  // ---- the simulation ---------------------------------------------------------------

  /** The parent row after the embedded flow has ended as e: it has the sub-shared state under its output key, has lost
      the record, follows its own edge, and fails exactly if the flow was broken off and failures are not ignored. */
  ghost predicate Ended(def: Flow, t: Task, r: Task, e: SubEnd) {
    var post := NodeAt(def, t.cursor).post;
    && r.shared == EndShared(InputOf(def, t), e.shared)
    && r.lastAction == Executor.ActionOf(post, Obj(e.shared))
    && r.cursor == FindNext(def.edges, t.cursor, r.lastAction)
    && r.status == (if r.cursor != "" then "running"
                    else if e.broke && NodeAt(def, t.cursor).failureStrategy != "continue" then "failed"
                    else "completed")
  }

  lemma RowLeaves(def: Flow, t: Task, flow: Flow, r: Task, st: SubState, k: nat, env: Env) returns (e: SubEnd)
    requires Enters(def, t, flow) && Row(def, t, flow, r, st) && !Rests(def, r, env)
    ensures Executes(def, flow, r, env)
    ensures var out := env.exec(0, Subflow.SubCall(InputOf(def, t), flow, st.curr, st.shared));
      !out.Pending? && Execute(InputOf(def, t), flow, st, k, out) == Ends(e)
    ensures Ended(def, t, Advance(def, r, env), e)
    ensures Advance(def, r, env).steps == r.steps + 1
  {
    if !Executes(def, flow, r, env) {
      RowRests(def, t, flow, r, st, env);
    }
    var next, shared := RowExecutes(def, t, flow, r, st, k, env);
    assert next.Ends?;
    e := next.e;
  }

  /** The step that leaves the node is an execution, and the interpreter ends with it. */
  lemma LeavesAt(def: Flow, t: Task, flow: Flow, envs: nat -> Env, run: nat -> ExecIn -> Outcome, n: nat, n': nat)
    returns (e: SubEnd)
    requires n' == n + 1 && Enters(def, t, flow) && Stays(def, t, envs, n) && !RestsAt(def, t, envs, n)
    requires Answered(run, envs, History(def, t, flow, envs, n'))
    ensures History(def, t, flow, envs, n') == History(def, t, flow, envs, n) + [n]
    ensures e.last == |History(def, t, flow, envs, n)|
    ensures Interpret(InputOf(def, t), flow, run, 0, Begin(flow), |History(def, t, flow, envs, n')|) == Some(e)
    ensures Ended(def, t, Steps(def, t, envs, n'), e)
    ensures Steps(def, t, envs, n').steps == Steps(def, t, envs, n).steps + 1
  {
    var h, r := History(def, t, flow, envs, n), Steps(def, t, envs, n);
    HistoryGrows(def, t, flow, envs, n);
    AnsweredSoFar(run, envs, h, if Executes(def, flow, r, envs(n)) then [n] else []);
    var st := RestingRun(def, t, flow, envs, run, n);
    e := RowLeaves(def, t, flow, r, st, |h|, envs(n));
    ReachesEnd(InputOf(def, t), flow, run, |h|, st, e);
    StepsUnfold(def, t, envs, n);
  }

  /** More fuel changes no result. */
  lemma {:induction false} FuelGrows(j: NodeInput, flow: Flow, run: nat -> ExecIn -> Outcome, i: nat, st: SubState,
      fuel: nat, more: nat)
    requires fuel <= more && Interpret(j, flow, run, i, st, fuel).Some?
    ensures Interpret(j, flow, run, i, st, more) == Interpret(j, flow, run, i, st, fuel)
    ensures Interpret(j, flow, run, i, st, fuel).value.last >= i
    decreases fuel
  {
    InterpretUnfolds(j, flow, run, i, st, fuel);
    var next := Execute(j, flow, st, i, run(i)(Subflow.SubCall(j, flow, st.curr, st.shared)));
    if next.Goes? {
      FuelGrows(j, flow, run, i + 1, next.st, fuel - 1, more - 1);
    }
  }

  lemma AnsweredPrefix(run: nat -> ExecIn -> Outcome, envs: nat -> Env, h: seq<nat>, h': seq<nat>)
    requires h <= h' && Answered(run, envs, h')
    ensures Answered(run, envs, h)
  {
    assert h' == h + h'[|h|..];
    AnsweredSoFar(run, envs, h, h'[|h|..]);
  }

  /** The first of n steps that does not rest, or n. */
  lemma FirstLeaving(def: Flow, t: Task, envs: nat -> Env, n: nat) returns (m: nat)
    ensures m <= n && Stays(def, t, envs, m) && (m < n ==> !RestsAt(def, t, envs, m))
  {
    m := 0;
    while m < n && RestsAt(def, t, envs, m)
      invariant m <= n && Stays(def, t, envs, m)
    {
      m := m + 1;
    }
  }

  lemma EndsLater(j: NodeInput, flow: Flow, run: nat -> ExecIn -> Outcome, k: nat, st: SubState, fuel: nat)
    requires Reaches(j, flow, run, k, st) && Interpret(j, flow, run, 0, Begin(flow), fuel).Some?
    ensures Interpret(j, flow, run, 0, Begin(flow), fuel).value.last >= k
  {
    assert ReachesWith(j, flow, run, k, st, fuel);
    FuelGrows(j, flow, run, 0, Begin(flow), fuel, k + fuel);
    FuelGrows(j, flow, run, k, st, fuel, fuel);
  }

  /** An interpretation that ends with one of the executions so far can not have been followed all the way by steps that
      rest. */
  lemma MustLeave(def: Flow, t: Task, flow: Flow, envs: nat -> Env, run: nat -> ExecIn -> Outcome, n: nat, fuel: nat)
    requires Enters(def, t, flow) && Stays(def, t, envs, n) && Answered(run, envs, History(def, t, flow, envs, n))
    requires Interpret(InputOf(def, t), flow, run, 0, Begin(flow), fuel).Some?
    ensures Interpret(InputOf(def, t), flow, run, 0, Begin(flow), fuel).value.last >= |History(def, t, flow, envs, n)|
  {
    var st := RestingRun(def, t, flow, envs, run, n);
    EndsLater(InputOf(def, t), flow, run, |History(def, t, flow, envs, n)|, st, fuel);
  }

  lemma RestingShape(def: Flow, t: Task, flow: Flow, envs: nat -> Env, k: nat)
    requires Enters(def, t, flow) && Stays(def, t, envs, k)
    ensures Unmoved(t, Steps(def, t, envs, k))
  {
    var h := History(def, t, flow, envs, k);
    RunAnswers(envs, h);
    var st := RestingRun(def, t, flow, envs, RunOf(envs, h), k);
  }

  /** Steps that wait count, steps that park do not. */
  function Parkings(def: Flow, t: Task, envs: nat -> Env): nat -> bool {
    (k: nat) => StepWrite(def, Steps(def, t, envs, k), envs(k)).Some?
      && StepWrite(def, Steps(def, t, envs, k), envs(k)).value.move == Park
  }

  lemma RestCounts(def: Flow, t: Task, flow: Flow, r: Task, st: SubState, env: Env)
    requires Enters(def, t, flow) && Row(def, t, flow, r, st) && Rests(def, r, env)
    ensures Advance(def, r, env).steps == r.steps + if StepWrite(def, r, env).value.move == Park then 0 else 1
  {
    Invariants.NodeStepEnds(InputOf(def, r), env);
  }

  ghost predicate CountedTo(def: Flow, t: Task, envs: nat -> Env, n: nat) {
    Steps(def, t, envs, n).steps == t.steps + n - |Hits(Parkings(def, t, envs), n)|
  }

  lemma CountNext(def: Flow, t: Task, flow: Flow, envs: nat -> Env, n: nat, n': nat)
    requires n' == n + 1 && Enters(def, t, flow) && Stays(def, t, envs, n') && CountedTo(def, t, envs, n)
    ensures CountedTo(def, t, envs, n')
  {
    var h := History(def, t, flow, envs, n);
    RunAnswers(envs, h);
    assert RestsAt(def, t, envs, n);
    var st := RestingRun(def, t, flow, envs, RunOf(envs, h), n);
    RestCounts(def, t, flow, Steps(def, t, envs, n), st, envs(n));
    StepsUnfold(def, t, envs, n);
  }

  lemma {:induction false} StepCount(def: Flow, t: Task, flow: Flow, envs: nat -> Env, n: nat)
    requires Enters(def, t, flow) && Stays(def, t, envs, n)
    ensures CountedTo(def, t, envs, n)
  {
    if n > 0 {
      var m := n - 1;
      StepCount(def, t, flow, envs, m);
      CountNext(def, t, flow, envs, m, n);
    }
  }

  /** Interpreters that end on the same run end alike. */
  lemma SameEnd(j: NodeInput, flow: Flow, run: nat -> ExecIn -> Outcome, fuel: nat, fuel': nat, e: SubEnd, e': SubEnd)
    requires Interpret(j, flow, run, 0, Begin(flow), fuel) == Some(e)
    requires Interpret(j, flow, run, 0, Begin(flow), fuel') == Some(e')
    ensures e == e'
  {
    FuelGrows(j, flow, run, 0, Begin(flow), fuel, fuel + fuel');
    FuelGrows(j, flow, run, 0, Begin(flow), fuel', fuel + fuel');
  }

  lemma LeavesLike(def: Flow, t: Task, flow: Flow, envs: nat -> Env, run: nat -> ExecIn -> Outcome, m: nat, m': nat,
      fuel: nat, e: SubEnd, h: seq<nat>)
    requires m' == m + 1 && Enters(def, t, flow) && Stays(def, t, envs, m) && !RestsAt(def, t, envs, m)
    requires Answered(run, envs, h) && History(def, t, flow, envs, m') <= h
    requires Interpret(InputOf(def, t), flow, run, 0, Begin(flow), fuel) == Some(e)
    ensures e.last < |h| && h[e.last] == m
    ensures Ended(def, t, Steps(def, t, envs, m'), e)
    ensures Steps(def, t, envs, m').steps == Steps(def, t, envs, m).steps + 1
  {
    var h' := History(def, t, flow, envs, m');
    AnsweredPrefix(run, envs, h', h);
    var e' := LeavesAt(def, t, flow, envs, run, m, m');
    SameEnd(InputOf(def, t), flow, run, fuel, |h'|, e, e');
    assert h[e.last] == h'[e.last];
  }

  /** Within the executions the interpreter needs, some step leaves. */
  lemma LeavesWithin(def: Flow, t: Task, flow: Flow, envs: nat -> Env, run: nat -> ExecIn -> Outcome, n: nat, fuel: nat)
    returns (m: nat)
    requires Enters(def, t, flow) && Answered(run, envs, History(def, t, flow, envs, n))
    requires Interpret(InputOf(def, t), flow, run, 0, Begin(flow), fuel).Some?
    requires Interpret(InputOf(def, t), flow, run, 0, Begin(flow), fuel).value.last < |History(def, t, flow, envs, n)|
    ensures m < n && Stays(def, t, envs, m) && !RestsAt(def, t, envs, m)
  {
    m := FirstLeaving(def, t, envs, n);
    if m == n {
      MustLeave(def, t, flow, envs, run, n, fuel);
    }
  }

  /** The visit rests for m steps and ends as e with the next: until then the cursor rests and the parent state changes
      under "_rt" only. */
  ghost predicate Departs(def: Flow, t: Task, envs: nat -> Env, m: nat, e: SubEnd) {
    && Stays(def, t, envs, m) && Ended(def, t, Steps(def, t, envs, m + 1), e)
    && Steps(def, t, envs, m + 1).steps == t.steps + m + 1 - |Hits(Parkings(def, t, envs), m)|
    && forall k: nat | k <= m :: Unmoved(t, Steps(def, t, envs, k))
  }

  predicate Unmoved(t: Task, r: Task) {
    r.cursor == t.cursor && r.shared - {"_rt"} == t.shared - {"_rt"}
  }

  lemma DepartsAt(def: Flow, t: Task, flow: Flow, envs: nat -> Env, m: nat, m': nat, e: SubEnd)
    requires m' == m + 1 && Enters(def, t, flow) && Stays(def, t, envs, m)
    requires Ended(def, t, Steps(def, t, envs, m'), e)
    requires Steps(def, t, envs, m').steps == Steps(def, t, envs, m).steps + 1
    ensures Departs(def, t, envs, m, e)
  {
    StepCount(def, t, flow, envs, m);
    forall k: nat | k <= m ensures Unmoved(t, Steps(def, t, envs, k)) {
      RestingShape(def, t, flow, envs, k);
    }
  }

  /** When execution k of the interpreter is answered by the k-th step that neither waits nor is deferred, and it ends
      with execution e.last, then the node ends with that step m and not before, with the same result. */
  lemma SubflowMeaning(def: Flow, t: Task, flow: Flow, envs: nat -> Env, run: nat -> ExecIn -> Outcome, n: nat,
      fuel: nat, e: SubEnd) returns (m: nat)
    requires Enters(def, t, flow) && Answered(run, envs, History(def, t, flow, envs, n))
    requires Interpret(InputOf(def, t), flow, run, 0, Begin(flow), fuel) == Some(e)
    requires e.last < |History(def, t, flow, envs, n)|
    ensures m < n && m == History(def, t, flow, envs, n)[e.last] && Departs(def, t, envs, m, e)
  {
    m := LeavesWithin(def, t, flow, envs, run, n, fuel);
    var m' := m + 1;
    HitsPrefix(Executions(def, t, flow, envs), m', n);
    LeavesLike(def, t, flow, envs, run, m, m', fuel, e, History(def, t, flow, envs, n));
    DepartsAt(def, t, flow, envs, m, m', e);
  }

  /** Conversely, when the node leaves with step n, the interpreter run on the executing steps so far ends with the last
      of them, and with the same result and number of failures. */
  lemma SubflowLeaves(def: Flow, t: Task, flow: Flow, envs: nat -> Env, n: nat) returns (e: SubEnd)
    requires Enters(def, t, flow) && Stays(def, t, envs, n) && !RestsAt(def, t, envs, n)
    ensures var h := History(def, t, flow, envs, n + 1);
      && h != [] && h[|h| - 1] == n && e.last == |h| - 1
      && Interpret(InputOf(def, t), flow, RunOf(envs, h), 0, Begin(flow), |h|) == Some(e)
    ensures Departs(def, t, envs, n, e)
  {
    var n' := n + 1;
    var h := History(def, t, flow, envs, n');
    RunAnswers(envs, h);
    e := LeavesAt(def, t, flow, envs, RunOf(envs, h), n, n');
    DepartsAt(def, t, flow, envs, n, n', e);
  }
}
