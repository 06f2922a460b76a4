/** One step of a fan-out node. Foreach and parallel nodes keep the same progress record and differ in
    what a branch key is and in how a branch is called (pkg/engine/foreach.go, pkg/engine/parallel.go). */
module Fanout {
  import opened Json
  import opened Util
  import opened Types
  import opened Core

  /** Branch i is called with calls[i] and settles under keys[i]; `extra` are further fields of a new record. */
  datatype Fan = Fan(key: string, keys: seq<string>, calls: seq<ExecIn>, extra: Dict)

  predicate ValidFan(f: Fan) {
    |f.calls| == |f.keys|
  }

  function FreshEntry(node: Node, extra: Dict): Dict {
    extra + map[
      "done" := Obj(map[]), "errs" := Obj(map[]), "mode" := Str(node.parallelMode),
      "max" := Num(node.maxParallel as real), "strategy" := Str(node.failureStrategy)]
  }

  function EntryOf(shared: Dict, key: string, init: Dict): Dict {
    var e := Get(RtOf(shared), key);
    if e.Obj? then e.m else init
  }

  lemma PutEntryFacts(shared: Dict, key: string, entry: Dict, init: Dict)
    ensures var s := PutEntry(shared, key, entry);
      && EntryOf(s, key, init) == entry
      && RtOf(s) == RtOf(shared)[key := Obj(entry)]
      && RtOf(s) - {key} == RtOf(shared) - {key}
      && s - {"_rt"} == shared - {"_rt"}
  {
    assert RtOf(shared)[key := Obj(entry)] - {key} == RtOf(shared) - {key};
    assert PutEntry(shared, key, entry) - {"_rt"} == shared - {"_rt"};
  }

  lemma SetOutputFacts(shared: Dict, shared': Dict, key: string, v: Json)
    requires shared - {"_rt"} == shared' - {"_rt"}
    ensures SetOutput(shared, key, v) - {"_rt"} == SetOutput(shared', key, v) - {"_rt"}
  {
    if key != "_rt" && key != "" {
      assert shared[key := v] - {"_rt"} == (shared - {"_rt"})[key := v];
      assert shared'[key := v] - {"_rt"} == (shared' - {"_rt"})[key := v];
    } else if key == "_rt" {
      assert shared[key := v] - {"_rt"} == shared - {"_rt"};
      assert shared'[key := v] - {"_rt"} == shared' - {"_rt"};
    }
  }

  datatype Progress = Progress(done: Dict, errs: Dict, hadErr: bool, pending: bool)

  /** None is the panic of a failed type assertion on a record that is not of this shape. */
  function ReadProgress(entry: Dict): Option<Progress> {
    var d, e := Get(entry, "done"), Get(entry, "errs");
    if d.Obj? && e.Obj? then Some(Progress(d.m, e.m, false, false)) else None
  }

  function WriteProgress(entry: Dict, p: Progress): Dict {
    entry["done" := Obj(p.done)]["errs" := Obj(p.errs)]
  }

  predicate Settled(k: string, p: Progress) {
    k in p.done || k in p.errs
  }

  function Remaining(keys: seq<string>, p: Progress): (rem: seq<nat>)
    ensures forall i | 0 <= i < |rem| :: rem[i] < |keys| && !Settled(keys[rem[i]], p)
  {
    if keys == [] then []
    else
      var n := |keys| - 1;
      var rest := Remaining(keys[..n], p);
      assert forall i | 0 <= i < |rest| :: keys[..n][rest[i]] == keys[rest[i]];
      if Settled(keys[n], p) then rest else rest + [n]
  }

  function Receive(p: Progress, key: string, out: Outcome): Progress {
    match out
    case Pending => p.(pending := true)
    case Ok(v) => p.(done := p.done[key := v])
    case Err(msg, _) => p.(errs := p.errs[key := Str(msg)], hadErr := true)
  }

  function ReceiveAll(p: Progress, got: seq<(string, Outcome)>): Progress {
    if got == [] then p
    else
      var n := |got| - 1;
      Receive(ReceiveAll(p, got[..n]), got[n].0, got[n].1)
  }

  function BatchSize(max: int, n: nat): (size: nat)
    ensures size <= n && (n > 0 ==> size > 0)
  {
    if max <= 0 || max > n then n else max
  }

  predicate IsPermutation(s: seq<nat>, n: nat) {
    && |s| == n
    && (forall i | 0 <= i < n :: s[i] < n)
    && (forall i | 0 <= i < n :: i in s)
  }

  /** The order in which the channel delivers n results. */
  function ArrivalOrder(env: Env, n: nat): (s: seq<nat>)
    ensures IsPermutation(s, n)
  {
    if IsPermutation(env.arrival(n), n) then env.arrival(n)
    else
      var s := seq(n, i => i);
      assert forall i | 0 <= i < n :: i in s by {
        forall i | 0 <= i < n ensures i in s { assert s[i] == i; }
      }
      s
  }

  function Launch(f: Fan, sel: seq<nat>, exec: Oracle): (outs: seq<Outcome>)
    requires ValidFan(f) && forall i | 0 <= i < |sel| :: sel[i] < |f.keys|
    ensures |outs| == |sel|
  {
    seq(|sel|, slot requires 0 <= slot < |sel| => exec(slot, f.calls[sel[slot]]))
  }

  function Arrivals(f: Fan, sel: seq<nat>, env: Env): (got: seq<(string, Outcome)>)
    requires ValidFan(f) && forall i | 0 <= i < |sel| :: sel[i] < |f.keys|
    ensures |got| == |sel|
  {
    var outs := Launch(f, sel, env.exec);
    var order := ArrivalOrder(env, |sel|);
    seq(|sel|, i requires 0 <= i < |sel| => (f.keys[sel[order[i]]], outs[order[i]]))
  }

  function Collect(keys: seq<string>, done: Dict): (agg: seq<Json>)
    ensures |agg| == |keys|
    ensures forall i | 0 <= i < |keys| :: agg[i] == Get(done, keys[i])
  {
    if keys == [] then []
    else
      var n := |keys| - 1;
      Collect(keys[..n], done) + [Get(done, keys[n])]
  }

  /** The aggregate of a fail-fast exit has no place holders. */
  function CollectDone(keys: seq<string>, done: Dict): seq<Json> {
    if keys == [] then []
    else
      var n := |keys| - 1;
      CollectDone(keys[..n], done) + if keys[n] in done then [done[keys[n]]] else []
  }

  function FanAction(post: Post, agg: seq<Json>): string {
    if post.actionStatic != "" then post.actionStatic
    else if post.actionKey != "" then PickAction(Obj(map["result" := Arr(agg)]), post.actionKey)
    else ""
  }

  /** The aggregate is never a string, so a configured action key can not select an action. */
  lemma FanActionIsStatic(post: Post, agg: seq<Json>)
    ensures FanAction(post, agg) == post.actionStatic
  {
  }

  function FinishFan(j: NodeInput, f: Fan, p: Progress): Write {
    var agg := Collect(f.keys, p.done);
    var shared := DropEntry(SetOutput(j.shared, j.node.post.outputKey, Arr(agg)), RtOf(j.shared), f.key);
    FinishNode(j, FanAction(j.node.post, agg), shared, p.errs != map[] && j.node.failureStrategy != "continue")
  }

  function FailFast(j: NodeInput, f: Fan, shared: Dict, p: Progress): Write {
    var agg := CollectDone(f.keys, p.done);
    FinishNode(j, FanAction(j.node.post, agg), SetOutput(shared, j.node.post.outputKey, Arr(agg)), true)
  }

  function ConcurrentEnd(j: NodeInput, f: Fan, entry: Dict, p: Progress): Write {
    var shared := PutEntry(j.shared, f.key, WriteProgress(entry, p));
    if p.pending then Suspend(j, shared)
    else if j.node.failureStrategy == "fail_fast" && p.hadErr then FailFast(j, f, shared, p)
    else KeepRunning(j, shared)
  }

  function SequentialEnd(j: NodeInput, f: Fan, entry: Dict, p: Progress): Write {
    if p.pending then Suspend(j, j.shared)
    else KeepRunning(j, PutEntry(j.shared, f.key, WriteProgress(entry, p)))
  }

  /** The branches of this step: the first maxParallel open ones, or just one. */
  function Batch(j: NodeInput, entry: Dict, rem: seq<nat>): (sel: seq<nat>)
    ensures sel <= rem && (rem != [] ==> sel != [])
  {
    if rem == [] then []
    else if Get(entry, "mode") == Str("concurrent") then rem[..BatchSize(j.node.maxParallel, |rem|)]
    else rem[..1]
  }

  function FanStep(j: NodeInput, f: Fan, env: Env): Option<Write>
    requires ValidFan(f)
  {
    var entry := EntryOf(j.shared, f.key, FreshEntry(j.node, f.extra));
    match ReadProgress(entry)
    case None => None
    case Some(p) =>
      var rem := Remaining(f.keys, p);
      if rem == [] then Some(FinishFan(j, f, p))
      else if !Get(entry, "mode").Str? then None
      else
        var p' := ReceiveAll(p, Arrivals(f, Batch(j, entry, rem), env));
        if Get(entry, "mode") == Str("concurrent") then Some(ConcurrentEnd(j, f, entry, p'))
        else Some(SequentialEnd(j, f, entry, p'))
  }

  lemma OneArrival(f: Fan, sel: seq<nat>, env: Env, p: Progress)
    requires ValidFan(f) && |sel| == 1 && sel[0] < |f.keys|
    ensures ReceiveAll(p, Arrivals(f, sel, env)) == Receive(p, f.keys[sel[0]], env.exec(0, f.calls[sel[0]]))
  {
    var got := Arrivals(f, sel, env);
    assert ArrivalOrder(env, 1) == [0];
    assert got[0] == (f.keys[sel[0]], env.exec(0, f.calls[sel[0]]));
    assert ReceiveAll(p, got[..0]) == p;
  }

  lemma OneRemaining(key: string, p: Progress)
    ensures Remaining([key], p) == if Settled(key, p) then [] else [0]
  {
    assert Remaining([key][..0], p) == [];
  }

  // ---- the loops --------------------------------------------------------------------

  method GetRemaining(keys: seq<string>, p: Progress) returns (rem: seq<nat>)
    ensures rem == Remaining(keys, p)
  {
    rem := [];
    for i := 0 to |keys|
      invariant rem == Remaining(keys[..i], p)
    {
      assert keys[..i + 1][..i] == keys[..i];
      if keys[i] !in p.done && keys[i] !in p.errs {
        rem := rem + [i];
      }
    }
    assert keys[..|keys|] == keys;
  }

  method Aggregate(keys: seq<string>, done: Dict) returns (agg: seq<Json>)
    ensures agg == Collect(keys, done)
  {
    agg := [];
    for i := 0 to |keys|
      invariant agg == Collect(keys[..i], done)
    {
      assert keys[..i + 1][..i] == keys[..i];
      agg := agg + [Get(done, keys[i])];
    }
    assert keys[..|keys|] == keys;
  }

  method AggregateDone(keys: seq<string>, done: Dict) returns (agg: seq<Json>)
    ensures agg == CollectDone(keys, done)
  {
    agg := [];
    for i := 0 to |keys|
      invariant agg == CollectDone(keys[..i], done)
    {
      assert keys[..i + 1][..i] == keys[..i];
      if keys[i] in done {
        agg := agg + [done[keys[i]]];
      }
    }
    assert keys[..|keys|] == keys;
  }

  /** Launches every selected branch, then takes the results off the channel one by one. */
  method RunBatch(f: Fan, sel: seq<nat>, env: Env, p0: Progress) returns (p: Progress)
    requires ValidFan(f) && forall i | 0 <= i < |sel| :: sel[i] < |f.keys|
    ensures p == ReceiveAll(p0, Arrivals(f, sel, env))
  {
    var outs: seq<Outcome> := [];
    for slot := 0 to |sel|
      invariant |outs| == slot
      invariant forall k | 0 <= k < slot :: outs[k] == env.exec(k, f.calls[sel[k]])
    {
      outs := outs + [env.exec(slot, f.calls[sel[slot]])];
    }
    ghost var got := Arrivals(f, sel, env);
    var order := ArrivalOrder(env, |sel|);
    p := p0;
    for i := 0 to |sel|
      invariant p == ReceiveAll(p0, got[..i])
    {
      var key, out := f.keys[sel[order[i]]], outs[order[i]];
      assert got[i] == (key, out);
      assert got[..i + 1][..i] == got[..i];
      if out.Pending? {
        p := p.(pending := true);
      } else if out.Err? {
        p := p.(hadErr := true, errs := p.errs[key := Str(out.msg)]);
      } else {
        p := p.(done := p.done[key := out.value]);
      }
    }
    assert got[..|sel|] == got;
  }

  method Finish(e: Engine, j: NodeInput, f: Fan, env: Env, p: Progress)
    modifies e.db`tasks
    ensures e.db.tasks == LandIn(old(e.db.tasks), j.task.id, e.owner, FinishFan(j, f, p), env.Now())
  {
    var agg := Aggregate(f.keys, p.done);
    var shared := j.shared;
    if j.node.post.outputKey != "" {
      shared := shared[j.node.post.outputKey := Arr(agg)];
    }
    shared := DropEntry(shared, RtOf(j.shared), f.key);
    var failed := p.errs != map[] && j.node.failureStrategy != "continue";
    e.Commit(j.task.id, FinishNode(j, FanAction(j.node.post, agg), shared, failed), env.Now());
  }

  method RunConcurrent(e: Engine, j: NodeInput, f: Fan, env: Env, entry: Dict, p: Progress, rem: seq<nat>)
    requires ValidFan(f) && rem == Remaining(f.keys, p)
    modifies e.db`tasks
    ensures e.db.tasks == LandIn(old(e.db.tasks), j.task.id, e.owner,
      ConcurrentEnd(j, f, entry,
        ReceiveAll(p, Arrivals(f, rem[..BatchSize(j.node.maxParallel, |rem|)], env))), env.Now())
  {
    var sel := rem[..BatchSize(j.node.maxParallel, |rem|)];
    var p' := RunBatch(f, sel, env, p);
    var shared := PutEntry(j.shared, f.key, entry["done" := Obj(p'.done)]["errs" := Obj(p'.errs)]);
    if p'.pending {
      e.Commit(j.task.id, Suspend(j, shared), env.Now());
      return;
    }
    if j.node.failureStrategy == "fail_fast" && p'.hadErr {
      var agg := AggregateDone(f.keys, p'.done);
      if j.node.post.outputKey != "" {
        shared := shared[j.node.post.outputKey := Arr(agg)];
      }
      e.Commit(j.task.id, FinishNode(j, FanAction(j.node.post, agg), shared, true), env.Now());
      return;
    }
    e.Commit(j.task.id, KeepRunning(j, shared), env.Now());
  }

  method RunSequential(e: Engine, j: NodeInput, f: Fan, env: Env, entry: Dict, p: Progress, rem: seq<nat>)
    requires ValidFan(f) && rem == Remaining(f.keys, p) && rem != []
    modifies e.db`tasks
    ensures e.db.tasks == LandIn(old(e.db.tasks), j.task.id, e.owner,
      SequentialEnd(j, f, entry, ReceiveAll(p, Arrivals(f, rem[..1], env))), env.Now())
  {
    var p' := RunBatch(f, rem[..1], env, p);
    if p'.pending {
      e.Commit(j.task.id, Suspend(j, j.shared), env.Now());
      return;
    }
    var shared := PutEntry(j.shared, f.key, entry["done" := Obj(p'.done)]["errs" := Obj(p'.errs)]);
    e.Commit(j.task.id, KeepRunning(j, shared), env.Now());
  }

  method RunFan(e: Engine, j: NodeInput, f: Fan, env: Env) returns (ok: bool)
    requires ValidFan(f)
    modifies e.db`tasks
    ensures ok == FanStep(j, f, env).Some?
    ensures e.db.tasks == if ok then LandIn(old(e.db.tasks), j.task.id, e.owner, FanStep(j, f, env).value, env.Now())
                          else old(e.db.tasks)
  {
    var entry := EntryOf(j.shared, f.key, FreshEntry(j.node, f.extra));
    if "done" !in entry || !entry["done"].Obj? || "errs" !in entry || !entry["errs"].Obj? {
      return false;
    }
    var p := Progress(entry["done"].m, entry["errs"].m, false, false);
    var rem := GetRemaining(f.keys, p);
    if rem == [] {
      Finish(e, j, f, env, p);
      return true;
    }
    if "mode" !in entry || !entry["mode"].Str? {
      return false;
    }
    if entry["mode"].s == "concurrent" {
      RunConcurrent(e, j, f, env, entry, p, rem);
    } else {
      RunSequential(e, j, f, env, entry, p, rem);
    }
    ok := true;
  }
}
