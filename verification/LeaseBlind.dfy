/** A step reads of its task row only what RunOnce loads: neither the lease nor the time of the last update. */
module LeaseBlind {
  import opened Json
  import opened Types
  import opened Core
  import opened Step
  import Choice
  import Executor
  import Fanout
  import Foreach
  import Parallel
  import Subflow
  import Waiting

  /** The rows differ in their lease and the time of their update at most. */
  predicate SameBut(t: Task, t': Task) {
    t' == t.(leaseOwner := t'.leaseOwner, leaseExpiry := t'.leaseExpiry, updatedAt := t'.updatedAt)
  }

  predicate SameInput(j: NodeInput, j': NodeInput) {
    j' == j.(task := j'.task) && SameBut(j.task, j'.task)
  }

  lemma EndsBlind(j: NodeInput, j': NodeInput, f: Fanout.Fan, entry: Dict, p: Fanout.Progress)
    requires SameInput(j, j')
    ensures Fanout.ConcurrentEnd(j', f, entry, p) == Fanout.ConcurrentEnd(j, f, entry, p)
    ensures Fanout.SequentialEnd(j', f, entry, p) == Fanout.SequentialEnd(j, f, entry, p)
    ensures Fanout.FinishFan(j', f, p) == Fanout.FinishFan(j, f, p)
  {
  }

  lemma FanBlind(j: NodeInput, j': NodeInput, f: Fanout.Fan, env: Env)
    requires SameInput(j, j') && Fanout.ValidFan(f)
    ensures Fanout.FanStep(j', f, env) == Fanout.FanStep(j, f, env)
  {
    var entry := Fanout.EntryOf(j.shared, f.key, Fanout.FreshEntry(j.node, f.extra));
    if Fanout.ReadProgress(entry).Some? {
      var p := Fanout.ReadProgress(entry).value;
      var rem := Fanout.Remaining(f.keys, p);
      var p' := Fanout.ReceiveAll(p, Fanout.Arrivals(f, Fanout.Batch(j, entry, rem), env));
      EndsBlind(j, j', f, entry, p);
      EndsBlind(j, j', f, entry, p');
    }
  }

  lemma SameFans(j: NodeInput, j': NodeInput)
    requires SameInput(j, j')
    ensures Foreach.FanOf(j') == Foreach.FanOf(j) && Parallel.FanOf(j') == Parallel.FanOf(j)
  {
    var f, f' := Foreach.FanOf(j), Foreach.FanOf(j');
    assert f.keys == f'.keys && f.calls == f'.calls;
    var g, g' := Parallel.FanOf(j), Parallel.FanOf(j');
    assert g.keys == g'.keys && g.calls == g'.calls;
  }

  lemma ForeachBlind(j: NodeInput, j': NodeInput, env: Env)
    requires SameInput(j, j')
    ensures Foreach.ForeachStep(j', env) == Foreach.ForeachStep(j, env)
  {
    SameFans(j, j');
    FanBlind(j, j', Foreach.FanOf(j), env);
  }

  lemma ParallelBlind(j: NodeInput, j': NodeInput, env: Env)
    requires SameInput(j, j')
    ensures Parallel.ParallelStep(j', env) == Parallel.ParallelStep(j, env)
  {
    SameFans(j, j');
    FanBlind(j, j', Parallel.FanOf(j), env);
  }

  lemma SubflowBlind(j: NodeInput, j': NodeInput, env: Env)
    requires SameInput(j, j') && j.node.subflow.Some?
    ensures Subflow.SubflowStep(j', env) == Subflow.SubflowStep(j, env)
  {
  }

  lemma TimerBlind(j: NodeInput, j': NodeInput, env: Env)
    requires SameInput(j, j')
    ensures Waiting.TimerStep(j', env) == Waiting.TimerStep(j, env)
  {
  }

  lemma EventBlind(j: NodeInput, j': NodeInput, env: Env)
    requires SameInput(j, j')
    ensures Waiting.WaitEventStep(j', env) == Waiting.WaitEventStep(j, env)
  {
    assert Waiting.Signal(j') == Waiting.Signal(j);
  }

  lemma ApprovalBlind(j: NodeInput, j': NodeInput)
    requires SameInput(j, j')
    ensures Waiting.ApprovalStep(j') == Waiting.ApprovalStep(j)
  {
    assert Waiting.ApprovalValue(j') == Waiting.ApprovalValue(j);
  }

  lemma PlainBlind(j: NodeInput, j': NodeInput, env: Env)
    requires SameInput(j, j')
    ensures Choice.ChoiceStep(j', env) == Choice.ChoiceStep(j, env)
    ensures Executor.ExecutorStep(j', env) == Executor.ExecutorStep(j, env)
  {
  }

  lemma NodeIsBlind(j: NodeInput, j': NodeInput, env: Env)
    requires SameInput(j, j')
    ensures NodeStep(j', env) == NodeStep(j, env)
  {
    var kind := j.node.kind;
    if kind == "parallel" {
      ParallelBlind(j, j', env);
    } else if kind == "foreach" {
      ForeachBlind(j, j', env);
    } else if kind == "subflow" && j.node.subflow.Some? {
      SubflowBlind(j, j', env);
    } else if kind == "timer" {
      TimerBlind(j, j', env);
    } else if kind == "wait_event" {
      EventBlind(j, j', env);
    } else if kind == "approval" {
      ApprovalBlind(j, j');
    } else {
      PlainBlind(j, j', env);
    }
  }

  lemma StepIsBlind(def: Flow, t: Task, t': Task, env: Env)
    requires SameBut(t, t')
    ensures StepWrite(def, t', env) == StepWrite(def, t, env)
    ensures SameBut(Advance(def, t, env), Advance(def, t', env))
  {
    NodeIsBlind(InputOf(def, t), InputOf(def, t'), env);
  }
}
