/** What a step depends on: with deterministic executors and no clock-driven node, only the stored cursor, shared
    state, parameters and step count. */
module SameStep {
  import opened Json
  import opened Expr
  import opened Types
  import opened Core
  import opened Step
  import Executor
  import Choice
  import Waiting
  import Fanout
  import FanProgress
  import FanMeaning
  import Subflow

  /** The executors answer by the call alone; the clock, the arrival orders and the map orders are free. */
  ghost predicate Answers(env: Env, oracle: ExecIn -> Outcome, go: Runtime) {
    && (forall slot: nat, call :: env.exec(slot, call) == oracle(call))
    && env.go == go && FairOrder(env.order)
  }

  /** The node under the cursor does not look at the clock, and its choices do not depend on map order. */
  predicate ClockFree(j: NodeInput) {
    && j.node.kind != "timer" && j.node.kind != "wait_event"
    && (j.node.kind == "choice" ==> forall k | 0 <= k < |j.node.choiceCases| :: OneKey(Obj(j.node.choiceCases[k].expr)))
    && (j.node.kind == "subflow" && j.node.subflow.Some? && j.node.failureStrategy == "retry" ==>
          && j.node.waitMs <= 0
          && var sf := Fanout.EntryOf(j.shared, "sf:" + j.key, Subflow.FreshSub(j.node.subflow.value));
             AsInt(Get(sf, "next_try_at")) <= 0)
  }

  /** The same input but for the status, the lease and the time stamp of the row. */
  predicate SameRow(j: NodeInput, j': NodeInput) {
    && j' == j.(task := j'.task)
    && j'.task.cursor == j.task.cursor && j'.task.lastAction == j.task.lastAction && j'.task.steps == j.task.steps
  }

  // ---- fan-outs ---------------------------------------------------------------------

  lemma BatchSame(f: Fanout.Fan, p: Fanout.Progress, sel: seq<nat>, oracle: ExecIn -> Outcome, env: Env, env': Env)
    requires Fanout.ValidFan(f) && FanMeaning.SameKeySameCall(f) && forall i | 0 <= i < |sel| :: sel[i] < |f.keys|
    requires forall slot: nat, call :: env.exec(slot, call) == oracle(call)
    requires forall slot: nat, call :: env'.exec(slot, call) == oracle(call)
    ensures Fanout.ReceiveAll(p, Fanout.Arrivals(f, sel, env)) == Fanout.ReceiveAll(p, Fanout.Arrivals(f, sel, env'))
  {
    var out := FanMeaning.AnswersOf(f, oracle);
    FanProgress.ArrivalKeys(f, sel, env);
    FanProgress.ArrivalKeys(f, sel, env');
    FanProgress.ReceiveAllIs(p, out, Fanout.Arrivals(f, sel, env));
    FanProgress.ReceiveAllIs(p, out, Fanout.Arrivals(f, sel, env'));
  }

  lemma FinishSame(j: NodeInput, j': NodeInput, action: string, shared: Dict, failed: bool)
    requires SameRow(j, j')
    ensures FinishNode(j', action, shared, failed) == FinishNode(j, action, shared, failed)
    ensures KeepRunning(j', shared) == KeepRunning(j, shared)
    ensures Suspend(j', shared) == Suspend(j, shared)
  {
  }

  lemma FinishFanSame(j: NodeInput, j': NodeInput, f: Fanout.Fan, p: Fanout.Progress)
    requires SameRow(j, j')
    ensures Fanout.FinishFan(j', f, p) == Fanout.FinishFan(j, f, p)
  {
  }

  lemma FanEndsSame(j: NodeInput, j': NodeInput, f: Fanout.Fan, entry: Dict, p: Fanout.Progress)
    requires SameRow(j, j')
    ensures Fanout.SequentialEnd(j', f, entry, p) == Fanout.SequentialEnd(j, f, entry, p)
    ensures Fanout.ConcurrentEnd(j', f, entry, p) == Fanout.ConcurrentEnd(j, f, entry, p)
  {
    var shared := PutEntry(j.shared, f.key, Fanout.WriteProgress(entry, p));
    assert Fanout.FailFast(j', f, shared, p) == Fanout.FailFast(j, f, shared, p);
  }

  lemma FanSame(j: NodeInput, j': NodeInput, f: Fanout.Fan, oracle: ExecIn -> Outcome, env: Env, env': Env)
    requires SameRow(j, j') && Fanout.ValidFan(f) && FanMeaning.SameKeySameCall(f)
    requires forall slot: nat, call :: env.exec(slot, call) == oracle(call)
    requires forall slot: nat, call :: env'.exec(slot, call) == oracle(call)
    ensures Fanout.FanStep(j', f, env') == Fanout.FanStep(j, f, env)
  {
    var entry := Fanout.EntryOf(j.shared, f.key, Fanout.FreshEntry(j.node, f.extra));
    assert entry == Fanout.EntryOf(j'.shared, f.key, Fanout.FreshEntry(j'.node, f.extra));
    if Fanout.ReadProgress(entry).Some? {
      var p := Fanout.ReadProgress(entry).value;
      var rem := Fanout.Remaining(f.keys, p);
      if rem == [] {
        FinishFanSame(j, j', f, p);
      } else {
        var sel := Fanout.Batch(j, entry, rem);
        assert sel == Fanout.Batch(j', entry, rem);
        assert forall i | 0 <= i < |sel| :: sel[i] == rem[i];
        BatchSame(f, p, sel, oracle, env, env');
        FanEndsSame(j, j', f, entry, Fanout.ReceiveAll(p, Fanout.Arrivals(f, sel, env)));
      }
    }
  }

  // ---- the other kinds --------------------------------------------------------------

  lemma {:induction false} RetrySame(call: ExecIn, max: int, k: nat, oracle: ExecIn -> Outcome, env: Env, env': Env)
    requires forall slot: nat, call :: env.exec(slot, call) == oracle(call)
    requires forall slot: nat, call :: env'.exec(slot, call) == oracle(call)
    ensures Executor.RetryLoop(env'.exec, call, max, k) == Executor.RetryLoop(env.exec, call, max, k)
    decreases max - k
  {
    if Executor.Retries(oracle(call), k, max) {
      RetrySame(call, max, k + 1, oracle, env, env');
    }
  }

  lemma ExecutorSame(j: NodeInput, j': NodeInput, oracle: ExecIn -> Outcome, env: Env, env': Env)
    requires SameRow(j, j')
    requires forall slot: nat, call :: env.exec(slot, call) == oracle(call)
    requires forall slot: nat, call :: env'.exec(slot, call) == oracle(call)
    ensures Executor.ExecutorStep(j', env') == Executor.ExecutorStep(j, env)
  {
    RetrySame(Executor.CallOf(j), j.node.maxRetries, 1, oracle, env, env');
    var out := Executor.RetryLoop(env.exec, Executor.CallOf(j), j.node.maxRetries, 1).out;
    assert Executor.EndOf(j', out) == Executor.EndOf(j, out);
  }

  lemma {:induction false} CasesSame(cases: seq<ChoiceCase>, c: Ctx, order: Order, order': Order)
    requires FairOrder(order) && FairOrder(order')
    requires forall k | 0 <= k < |cases| :: OneKey(Obj(cases[k].expr))
    ensures Choice.FirstCase(cases, c, order') == Choice.FirstCase(cases, c, order)
  {
    if cases != [] {
      OrderIsIrrelevant(cases[0].expr, c, order, order');
      CasesSame(cases[1..], c, order, order');
    }
  }

  lemma ChoiceSame(j: NodeInput, j': NodeInput, oracle: ExecIn -> Outcome, go: Runtime, env: Env, env': Env)
    requires SameRow(j, j') && ClockFree(j) && j.node.kind == "choice"
    requires Answers(env, oracle, go) && Answers(env', oracle, go)
    ensures Choice.ChoiceStep(j', env') == Choice.ChoiceStep(j, env)
  {
    CasesSame(j.node.choiceCases, Choice.CtxOf(j, env), env.order, env'.order);
    assert Choice.ChoiceAction(j', env') == Choice.ChoiceAction(j, env);
  }

  lemma SubCallSame(j: NodeInput, j': NodeInput, flow: Flow, curr: string, sub: Dict)
    requires SameRow(j, j')
    ensures Subflow.SubCall(j', flow, curr, sub) == Subflow.SubCall(j, flow, curr, sub)
  {
  }

  lemma EndSubflowSame(j: NodeInput, j': NodeInput, sub: Json, failed: bool)
    requires SameRow(j, j')
    ensures Subflow.EndSubflow(j', sub, failed) == Subflow.EndSubflow(j, sub, failed)
  {
  }

  /** Without a wait the clock is not read. */
  lemma NoClock(j: NodeInput, sf: Dict, now: int, now': int)
    requires j.node.failureStrategy == "retry" ==> j.node.waitMs <= 0 && AsInt(Get(sf, "next_try_at")) <= 0
    ensures !Subflow.Waiting(j.node, sf, now)
    ensures j.node.failureStrategy == "retry" ==>
      Subflow.CountRetry(j.node, sf, now') == Subflow.CountRetry(j.node, sf, now)
    ensures Subflow.MayRetry(j.node, Subflow.CountRetry(j.node, sf, now'))
        <==> Subflow.MayRetry(j.node, Subflow.CountRetry(j.node, sf, now))
  {
  }

  lemma SubflowSame(j: NodeInput, j': NodeInput, oracle: ExecIn -> Outcome, env: Env, env': Env)
    requires SameRow(j, j') && ClockFree(j) && j.node.kind == "subflow" && j.node.subflow.Some?
    requires forall slot: nat, call :: env.exec(slot, call) == oracle(call)
    requires forall slot: nat, call :: env'.exec(slot, call) == oracle(call)
    ensures Subflow.SubflowStep(j', env') == Subflow.SubflowStep(j, env)
  {
    var flow := j.node.subflow.value;
    var sf := Fanout.EntryOf(j.shared, "sf:" + j.key, Subflow.FreshSub(flow));
    NoClock(j, sf, env.nowMs, env'.nowMs);
    NoClock(j, sf, env'.nowMs, env.nowMs);
    var curr, sub := AsStr(Get(sf, "curr")), Subflow.MapOrNull(Get(sf, "shared"));
    SubCallSame(j, j', flow, curr, AsObj(sub));
    var call := Subflow.SubCall(j, flow, curr, AsObj(sub));
    var out := env.exec(0, call);
    assert env'.exec(0, call) == out;
    if curr == "" {
      FinishSame(j, j', j.node.post.actionStatic, j.shared, false);
    } else if out.Err? {
      EndSubflowSame(j, j', sub, j.node.failureStrategy != "continue");
      FinishSame(j, j', "", PutEntry(j.shared, "sf:" + j.key, Subflow.CountRetry(j.node, sf, env.nowMs)), false);
    } else if out.Ok? {
      var after := Subflow.SubOutputs(NodeAt(flow, curr).post, out.value, sub);
      if after.Some? {
        EndSubflowSame(j, j', after.value, false);
      }
    }
  }

  /** A step depends on the stored cursor, action, shared state, parameters and step count only. */
  lemma StepSame(j: NodeInput, j': NodeInput, oracle: ExecIn -> Outcome, go: Runtime, env: Env, env': Env)
    requires SameRow(j, j') && ClockFree(j) && Answers(env, oracle, go) && Answers(env', oracle, go)
    ensures NodeStep(j', env') == NodeStep(j, env)
  {
    var kind := j.node.kind;
    if FanMeaning.FanAt(j).Some? {
      FanMeaning.FanKeys(j);
      FanMeaning.FanDetermined(j, j');
      FanMeaning.FanStepOf(j, FanMeaning.FanAt(j).value, env);
      FanMeaning.FanStepOf(j', FanMeaning.FanAt(j).value, env');
      FanSame(j, j', FanMeaning.FanAt(j).value, oracle, env, env');
    } else if kind == "choice" {
      ChoiceSame(j, j', oracle, go, env, env');
    } else if kind == "subflow" && j.node.subflow.Some? {
      SubflowSame(j, j', oracle, env, env');
    } else if kind == "approval" {
      assert Waiting.ApprovalStep(j') == Waiting.ApprovalStep(j);
    } else if kind != "foreach" && kind != "parallel" {
      ExecutorSame(j, j', oracle, env, env');
    }
  }
}
