/** A step parks its task only when an executor defers its answer. */
module Parking {
  import opened Types
  import opened Step
  import Executor
  import Fanout
  import Foreach
  import Parallel
  import Subflow

  /** No executor of the step defers. */
  ghost predicate Prompt(env: Env) {
    forall slot: nat, call :: !env.exec(slot, call).Pending?
  }

  lemma {:induction false} NonePending(p: Fanout.Progress, got: seq<(string, Outcome)>)
    requires !p.pending && forall i | 0 <= i < |got| :: !got[i].1.Pending?
    ensures !Fanout.ReceiveAll(p, got).pending
  {
    if got != [] {
      NonePending(p, got[..|got| - 1]);
    }
  }

  lemma FanNeverParks(j: NodeInput, f: Fanout.Fan, env: Env)
    requires Prompt(env) && Fanout.ValidFan(f) && Fanout.FanStep(j, f, env).Some?
    ensures Fanout.FanStep(j, f, env).value.move != Park
  {
    var entry := Fanout.EntryOf(j.shared, f.key, Fanout.FreshEntry(j.node, f.extra));
    var p := Fanout.ReadProgress(entry).value;
    var rem := Fanout.Remaining(f.keys, p);
    if rem != [] {
      var sel := Fanout.Batch(j, entry, rem);
      assert forall i | 0 <= i < |sel| :: sel[i] == rem[i];
      NonePending(p, Fanout.Arrivals(f, sel, env));
    }
  }

  lemma ExecutorNeverParks(j: NodeInput, env: Env)
    requires Prompt(env)
    ensures Executor.ExecutorStep(j, env).move != Park
  {
    Executor.RetryLoopEnds(env.exec, Executor.CallOf(j), j.node.maxRetries, 1);
  }

  lemma NeverParks(j: NodeInput, env: Env)
    requires Prompt(env) && NodeStep(j, env).Some?
    ensures NodeStep(j, env).value.move != Park
  {
    var kind := j.node.kind;
    if kind == "parallel" {
      if Parallel.Services(j.node, j.params) != [] { FanNeverParks(j, Parallel.FanOf(j), env); }
    } else if kind == "foreach" {
      if Foreach.Items(j.input) != [] { FanNeverParks(j, Foreach.FanOf(j), env); }
    } else if kind == "subflow" && j.node.subflow.Some? {
      assert Subflow.SubflowStep(j, env).value.move != Park;
    } else if kind !in ["choice", "timer", "wait_event", "approval"] {
      ExecutorNeverParks(j, env);
    }
  }
}
