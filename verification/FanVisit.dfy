/** The steps of one visit to a fan-out node, read as batches of a plan. */
module FanVisit {
  import opened Json
  import opened Types
  import opened Core
  import opened Fanout
  import opened FanProgress

  /** The input with which the node is entered, its branches, and what they answer. */
  datatype Visit = Visit(j: NodeInput, f: Fan, out: Answers) {
    function Plan(): FanProgress.Plan {
      FanProgress.Plan(j.node.parallelMode == "concurrent", j.node.maxParallel, f.keys, out)
    }

    function Init(): Dict {
      FreshEntry(j.node, f.extra)
    }

    function Entry(d: set<string>): Dict {
      WriteProgress(Init(), ProgressOf(out, d))
    }

    ghost predicate Valid() {
      && ValidFan(f) && f.keys != [] && Settles(out, f.keys)
      && f.key !in RtOf(j.shared)
      && "done" !in f.extra && "errs" !in f.extra && "mode" !in f.extra
    }

    ghost predicate AnsweredBy(env: Env) {
      ValidFan(f) && forall slot: nat, i | 0 <= i < |f.keys| ::
        f.keys[i] in out && env.exec(slot, f.calls[i]) == out[f.keys[i]]
    }

    /** No branch fails, or failures do not end the node early. */
    ghost predicate NeverFailsFast() {
      || j.node.failureStrategy != "fail_fast"
      || j.node.parallelMode != "concurrent"
      || !AnyErr(out, KeySet(f.keys))
    }

    /** The shared state with the branches in d settled. */
    ghost predicate Holds(shared: Dict, d: set<string>) {
      && shared - {"_rt"} == j.shared - {"_rt"} && ("_rt" in shared || shared == j.shared)
      && RtOf(shared) - {f.key} == RtOf(j.shared)
      && EntryOf(shared, f.key, Init()) == Entry(d)
    }

    /** A step input of this visit whose row has the branches in d settled. */
    ghost predicate Inside(i: NodeInput, d: set<string>) {
      i.node == j.node && i.key == j.key && Holds(i.shared, d)
    }
  }

  lemma Starts(v: Visit)
    requires v.Valid()
    ensures v.Holds(v.j.shared, {})
  {
    EmptyProgress(v.out);
    assert v.Entry({}) == v.Init();
  }

  lemma ReadEntry(v: Visit, d: set<string>)
    requires "mode" !in v.f.extra
    ensures Get(v.Entry(d), "mode") == Str(v.j.node.parallelMode)
    ensures ReadProgress(v.Entry(d)) == Some(ProgressOf(v.out, d))
  {
  }

  /** One batch of answers, for every arrival order. */
  lemma BatchAnswers(v: Visit, d: set<string>, env: Env)
    requires v.Valid() && v.AnsweredBy(env)
    ensures ReceiveAll(ProgressOf(v.out, d), Arrivals(v.f, v.Plan().Batch(d), env))
         == ProgressOf(v.out, v.Plan().Next(d)).(hadErr := AnyErr(v.out, BatchKeys(v.f.keys, v.Plan().Batch(d))))
  {
    var sel := v.Plan().Batch(d);
    var got := Arrivals(v.f, sel, env);
    ArrivalKeys(v.f, sel, env);
    ReceiveAnswers(v.out, d, got);
    assert Keys(got) == BatchKeys(v.f.keys, sel);
  }

  function BatchEnd(v: Visit, i: NodeInput, d: set<string>, p: Progress): Write {
    if v.j.node.parallelMode == "concurrent" then ConcurrentEnd(i, v.f, v.Entry(d), p)
    else SequentialEnd(i, v.f, v.Entry(d), p)
  }

  /** The write of a step with open branches. */
  lemma OpenStep(v: Visit, i: NodeInput, d: set<string>, env: Env)
    requires v.Valid() && v.AnsweredBy(env) && v.Inside(i, d) && v.Plan().Open(d) > 0
    ensures FanStep(i, v.f, env) == Some(BatchEnd(v, i, d,
      ProgressOf(v.out, v.Plan().Next(d)).(hadErr := AnyErr(v.out, BatchKeys(v.f.keys, v.Plan().Batch(d))))))
  {
    ReadEntry(v, d);
    BatchAnswers(v, d, env);
    assert Batch(i, v.Entry(d), v.Plan().Remaining(d)) == v.Plan().Batch(d);
  }

  lemma WriteTwice(entry: Dict, p: Progress, p': Progress)
    ensures WriteProgress(WriteProgress(entry, p), p') == WriteProgress(entry, p')
  {
  }

  lemma Stored(v: Visit, shared: Dict, d: set<string>, d': set<string>, p: Progress)
    requires v.Holds(shared, d) && p.done == DoneOf(v.out, d') && p.errs == ErrsOf(v.out, d')
    ensures v.Holds(PutEntry(shared, v.f.key, WriteProgress(v.Entry(d), p)), d')
  {
    WriteTwice(v.Init(), ProgressOf(v.out, d), p);
    PutEntryFacts(shared, v.f.key, WriteProgress(v.Entry(d), p), v.Init());
  }

  /** A step with open branches settles the next batch and stays on the node. */
  lemma StayStep(v: Visit, i: NodeInput, d: set<string>, env: Env) returns (shared: Dict)
    requires v.Valid() && v.AnsweredBy(env) && v.Inside(i, d) && v.Plan().Open(d) > 0
    requires v.NeverFailsFast() || !AnyErr(v.out, BatchKeys(v.f.keys, v.Plan().Batch(d)))
    ensures FanStep(i, v.f, env) == Some(KeepRunning(i, shared)) && v.Holds(shared, v.Plan().Next(d))
  {
    OpenStep(v, i, d, env);
    var d' := v.Plan().Next(d);
    var p := ProgressOf(v.out, d').(hadErr := AnyErr(v.out, BatchKeys(v.f.keys, v.Plan().Batch(d))));
    shared := PutEntry(i.shared, v.f.key, WriteProgress(v.Entry(d), p));
    Stored(v, i.shared, d, d', p);
    assert BatchKeys(v.f.keys, v.Plan().Batch(d)) <= KeySet(v.f.keys);
  }

  // ---- the meaning of a visit -------------------------------------------------------

  /** The ordered list of results, with null for failed branches. */
  function Aggregated(out: Answers, keys: seq<string>): seq<Json>
    requires forall i | 0 <= i < |keys| :: keys[i] in out
  {
    seq(|keys|, i requires 0 <= i < |keys| => if out[keys[i]].Ok? then out[keys[i]].value else Null)
  }

  /** The aggregate goes to the output key and the record is gone. */
  function MeaningShared(v: Visit): Dict
    requires Settles(v.out, v.f.keys)
  {
    DropEntry(SetOutput(v.j.shared, v.j.node.post.outputKey, Arr(Aggregated(v.out, v.f.keys))),
      RtOf(v.j.shared), v.f.key)
  }

  /** The node fails if a branch failed and failures are not ignored. */
  ghost predicate MeaningFails(v: Visit) {
    AnyErr(v.out, KeySet(v.f.keys)) && v.j.node.failureStrategy != "continue"
  }

  lemma CollectAnswers(v: Visit, d: set<string>)
    requires Settles(v.out, v.f.keys) && KeySet(v.f.keys) <= d
    ensures Collect(v.f.keys, DoneOf(v.out, d)) == Aggregated(v.out, v.f.keys)
  {
    forall i | 0 <= i < |v.f.keys|
      ensures Get(DoneOf(v.out, d), v.f.keys[i]) == Aggregated(v.out, v.f.keys)[i]
    {
      assert v.f.keys[i] in KeySet(v.f.keys);
    }
  }

  lemma ErrorsShow(out: Answers, d: set<string>)
    ensures ErrsOf(out, d) != map[] <==> AnyErr(out, d)
  {
    if AnyErr(out, d) {
      var k :| k in d && k in out && out[k].Err?;
      assert k in ErrsOf(out, d);
    } else if ErrsOf(out, d) != map[] {
      var k :| k in ErrsOf(out, d);
    }
  }

  lemma SameDrop(a: Dict, b: Dict, rt: Dict, rt': Dict, key: string)
    requires a - {"_rt"} == b - {"_rt"} && rt - {key} == rt' - {key}
    ensures DropEntry(a, rt, key) == DropEntry(b, rt', key)
  {
    var rest := Obj(rt - {key});
    assert a["_rt" := rest] == (a - {"_rt"})["_rt" := rest];
    assert b["_rt" := rest] == (b - {"_rt"})["_rt" := rest];
  }

  lemma FinishMeans(v: Visit, i: NodeInput, d: set<string>)
    requires v.Valid() && v.Inside(i, d) && d == KeySet(v.f.keys)
    ensures FinishFan(i, v.f, ProgressOf(v.out, d))
         == FinishNode(i, v.j.node.post.actionStatic, MeaningShared(v), MeaningFails(v))
  {
    CollectAnswers(v, d);
    ErrorsShow(v.out, d);
    var agg := Arr(Aggregated(v.out, v.f.keys));
    SetOutputFacts(i.shared, v.j.shared, v.j.node.post.outputKey, agg);
    assert RtOf(v.j.shared) - {v.f.key} == RtOf(v.j.shared);
    SameDrop(SetOutput(i.shared, v.j.node.post.outputKey, agg), SetOutput(v.j.shared, v.j.node.post.outputKey, agg),
      RtOf(i.shared), RtOf(v.j.shared), v.f.key);
    FanActionIsStatic(v.j.node.post, Aggregated(v.out, v.f.keys));
  }

  /** The step that finds nothing open finishes the node with the meaning of the visit. */
  lemma LastStep(v: Visit, i: NodeInput, d: set<string>, env: Env)
    requires v.Valid() && v.Inside(i, d) && d <= KeySet(v.f.keys) && v.Plan().Open(d) == 0
    ensures FanStep(i, v.f, env)
         == Some(FinishNode(i, v.j.node.post.actionStatic, MeaningShared(v), MeaningFails(v)))
  {
    ReadEntry(v, d);
    NothingOpenLeft(v.Plan(), d);
    FinishMeans(v, i, d);
  }

  // ---- the fail-fast exit -----------------------------------------------------------

  /** The successful results of the branches in d, in order and without place holders. */
  function OkValues(out: Answers, keys: seq<string>, d: set<string>): seq<Json>
    requires forall i | 0 <= i < |keys| :: keys[i] in out
  {
    if keys == [] then []
    else
      var n := |keys| - 1;
      OkValues(out, keys[..n], d) + if keys[n] in d && out[keys[n]].Ok? then [out[keys[n]].value] else []
  }

  lemma {:induction false} CollectOk(out: Answers, keys: seq<string>, d: set<string>)
    requires Settles(out, keys)
    ensures CollectDone(keys, DoneOf(out, d)) == OkValues(out, keys, d)
  {
    if keys != [] {
      CollectOk(out, keys[..|keys| - 1], d);
    }
  }

  /** A branch of batch n fails. */
  ghost predicate BatchFails(v: Visit, n: nat) {
    AnyErr(v.out, BatchKeys(v.f.keys, v.Plan().Batch(v.Plan().After(n))))
  }

  /** A concurrent fail-fast node. */
  predicate FailFastNode(node: Node) {
    node.parallelMode == "concurrent" && node.failureStrategy == "fail_fast" && node.post.outputKey != "_rt"
  }

  /** The shared state after a fail-fast exit with the branches in d settled: their results are the output, and
      their record is still there. */
  ghost predicate FailedShared(v: Visit, shared: Dict, d: set<string>)
    requires Settles(v.out, v.f.keys)
  {
    && shared - {"_rt"}
       == SetOutput(v.j.shared, v.j.node.post.outputKey, Arr(OkValues(v.out, v.f.keys, d))) - {"_rt"}
    && EntryOf(shared, v.f.key, v.Init()) == v.Entry(d)
  }

  lemma FailStored(v: Visit, i: NodeInput, d: set<string>, d': set<string>, p: Progress) returns (shared: Dict)
    requires v.Inside(i, d) && Settles(v.out, v.f.keys) && v.j.node.post.outputKey != "_rt"
    requires p == ProgressOf(v.out, d').(hadErr := true)
    ensures FailFast(i, v.f, PutEntry(i.shared, v.f.key, WriteProgress(v.Entry(d), p)), p)
         == FinishNode(i, v.j.node.post.actionStatic, shared, true)
    ensures FailedShared(v, shared, d')
  {
    var stored := PutEntry(i.shared, v.f.key, WriteProgress(v.Entry(d), p));
    Stored(v, i.shared, d, d', p);
    CollectOk(v.out, v.f.keys, d');
    var agg := OkValues(v.out, v.f.keys, d');
    FanActionIsStatic(v.j.node.post, agg);
    shared := SetOutput(stored, v.j.node.post.outputKey, Arr(agg));
    SetOutputFacts(stored, v.j.shared, v.j.node.post.outputKey, Arr(agg));
    assert RtOf(shared) == RtOf(stored);
  }

  /** The step whose batch has a failing branch ends a fail-fast node. */
  lemma FailStep(v: Visit, i: NodeInput, d: set<string>, env: Env) returns (shared: Dict)
    requires v.Valid() && v.AnsweredBy(env) && FailFastNode(v.j.node) && v.Inside(i, d) && v.Plan().Open(d) > 0
    requires AnyErr(v.out, BatchKeys(v.f.keys, v.Plan().Batch(d)))
    ensures FanStep(i, v.f, env) == Some(FinishNode(i, v.j.node.post.actionStatic, shared, true))
    ensures FailedShared(v, shared, v.Plan().Next(d))
  {
    OpenStep(v, i, d, env);
    shared := FailStored(v, i, d, v.Plan().Next(d), ProgressOf(v.out, v.Plan().Next(d)).(hadErr := true));
  }

  /** Batches without a failing branch leave no errors. */
  lemma {:induction false} NoErrYet(v: Visit, n: nat)
    requires forall i: nat | i < n :: !BatchFails(v, i)
    ensures !AnyErr(v.out, v.Plan().After(n))
  {
    if n > 0 {
      NoErrYet(v, n - 1);
      assert !BatchFails(v, n - 1);
    }
  }

  /** If a branch fails, some batch is the first with a failing branch. */
  lemma FirstFailingBatch(v: Visit) returns (k: nat)
    requires v.Valid() && AnyErr(v.out, KeySet(v.f.keys))
    ensures k < BatchesLeft(v.Plan(), {}) && BatchFails(v, k) && forall i: nat | i < k :: !BatchFails(v, i)
  {
    var total := BatchesLeft(v.Plan(), {});
    k := 0;
    while k < total && !BatchFails(v, k)
      invariant k <= total && forall i: nat | i < k :: !BatchFails(v, i)
    {
      k := k + 1;
    }
    if k == total {
      NoErrYet(v, total);
      AfterLeaves(v.Plan(), total);
      NothingOpenLeft(v.Plan(), v.Plan().After(total));
    }
  }

  // ---- distinct branches ------------------------------------------------------------

  lemma {:induction false} RemainingSuffix(keys: seq<string>, p: Progress, c: nat)
    requires c <= |keys| && forall i | 0 <= i < |keys| :: Settled(keys[i], p) <==> i < c
    ensures var rem := Remaining(keys, p);
      |rem| == |keys| - c && forall i | 0 <= i < |rem| :: rem[i] == c + i
  {
    if |keys| > 0 {
      var n := |keys| - 1;
      assert forall i | 0 <= i < n :: keys[..n][i] == keys[i];
      RemainingSuffix(keys[..n], p, if c < n then c else n);
    }
  }

  lemma PrefixSettled(p: Plan, c: nat)
    requires c <= |p.keys| && Distinct(p.keys) && p.Valid()
    ensures p.Open(KeySet(p.keys[..c])) == |p.keys| - c
    ensures forall i | 0 <= i < |p.keys| - c :: p.Remaining(KeySet(p.keys[..c]))[i] == c + i
  {
    var d := KeySet(p.keys[..c]);
    forall i | 0 <= i < |p.keys|
      ensures Settled(p.keys[i], ProgressOf(p.out, d)) <==> i < c
    {
      SettledIn(p.out, d, p.keys[i]);
      if i < c { assert p.keys[..c][i] == p.keys[i]; }
    }
    RemainingSuffix(p.keys, ProgressOf(p.out, d), c);
  }

  /** From a settled prefix the next batch extends the prefix. */
  lemma PrefixGrows(p: Plan, c: nat, c': nat)
    requires c <= |p.keys| && Distinct(p.keys) && p.Valid() && c' == c + p.Size(|p.keys| - c)
    ensures p.Next(KeySet(p.keys[..c])) == KeySet(p.keys[..c'])
    ensures BatchKeys(p.keys, p.Batch(KeySet(p.keys[..c]))) == KeySet(p.keys[c..c'])
  {
    PrefixSettled(p, c);
    var sel := p.Batch(KeySet(p.keys[..c]));
    forall a | 0 <= a < |sel| ensures p.keys[sel[a]] == p.keys[c..c'][a] { assert sel[a] == c + a; }
    assert BatchKeys(p.keys, sel) == KeySet(p.keys[c..c']) by {
      forall a | 0 <= a < |sel| ensures p.keys[c..c'][a] in BatchKeys(p.keys, sel) {
        assert p.keys[sel[a]] == p.keys[c..c'][a];
      }
    }
    SplitKeySet(p.keys, c, c');
  }

  lemma SplitKeySet(keys: seq<string>, c: nat, c': nat)
    requires c <= c' <= |keys|
    ensures KeySet(keys[..c']) == KeySet(keys[..c]) + KeySet(keys[c..c'])
  {
    var all := keys[..c'];
    forall i | 0 <= i < |all| ensures all[i] in KeySet(keys[..c]) + KeySet(keys[c..c']) {
      if i < c { assert keys[..c][i] == all[i]; } else { assert keys[c..c'][i - c] == all[i]; }
    }
    forall i | 0 <= i < c ensures keys[..c][i] in KeySet(all) { assert all[i] == keys[..c][i]; }
    forall i | 0 <= i < c' - c ensures keys[c..c'][i] in KeySet(all) { assert all[c + i] == keys[c..c'][i]; }
  }

  /** Where batch n of a concurrent node with n distinct branches begins: after n * max of them. */
  function Start(p: Plan, n: nat): (c: nat)
    ensures c <= |p.keys|
  {
    if n == 0 then 0 else Start(p, n - 1) + p.Size(|p.keys| - Start(p, n - 1))
  }

  lemma {:induction false} StartIs(p: Plan, n: nat)
    requires p.concurrent
    ensures p.max > 0 ==> Start(p, n) == if n * p.max < |p.keys| then n * p.max else |p.keys|
    ensures p.max <= 0 && n > 0 ==> Start(p, n) == |p.keys|
  {
    if n > 0 {
      StartIs(p, n - 1);
      if p.max > 0 { assert n * p.max == (n - 1) * p.max + p.max; }
    }
  }

  lemma {:induction false} AfterPrefix(p: Plan, n: nat)
    requires Distinct(p.keys) && p.Valid()
    ensures p.After(n) == KeySet(p.keys[..Start(p, n)])
    ensures BatchKeys(p.keys, p.Batch(p.After(n))) == KeySet(p.keys[Start(p, n)..Start(p, n + 1)])
  {
    if n > 0 {
      AfterPrefix(p, n - 1);
      PrefixGrows(p, Start(p, n - 1), Start(p, n));
    }
    PrefixGrows(p, Start(p, n), Start(p, n + 1));
  }

  lemma FailingKey(v: Visit, c: nat, c': nat) returns (i: nat)
    requires c <= c' <= |v.f.keys| && AnyErr(v.out, KeySet(v.f.keys[c..c']))
    ensures c <= i < c' && v.f.keys[i] in v.out && v.out[v.f.keys[i]].Err?
  {
    var part := v.f.keys[c..c'];
    var key :| key in KeySet(part) && key in v.out && v.out[key].Err?;
    var a :| 0 <= a < |part| && part[a] == key;
    i := c + a;
  }

  lemma StartsGrow(p: Plan, n: nat)
    ensures Start(p, n) <= Start(p, n + 1)
  {
  }

  lemma BranchNotBefore(v: Visit, k: nat, c: nat, x: nat)
    requires c <= |v.f.keys| && x < |v.f.keys| && v.Plan().After(k) == KeySet(v.f.keys[..c])
    requires v.f.keys[x] in v.out && v.out[v.f.keys[x]].Err? && !AnyErr(v.out, v.Plan().After(k))
    ensures c <= x
  {
    var first := v.f.keys[..c];
    assert forall a | 0 <= a < |first| :: first[a] == v.f.keys[a] && first[a] in KeySet(first);
  }

  /** With distinct branches the first failing batch is the one of the first failing branch. */
  lemma FirstFailingBranch(v: Visit, k: nat, x: nat)
    requires v.Valid() && Distinct(v.f.keys) && x < |v.f.keys| && v.out[v.f.keys[x]].Err?
    requires forall i | 0 <= i < x :: !v.out[v.f.keys[i]].Err?
    requires BatchFails(v, k) && !AnyErr(v.out, v.Plan().After(k))
    ensures Start(v.Plan(), k) <= x < Start(v.Plan(), k + 1)
  {
    var c, c' := Start(v.Plan(), k), Start(v.Plan(), k + 1);
    StartsGrow(v.Plan(), k);
    AfterPrefix(v.Plan(), k);
    var i := FailingKey(v, c, c');
    BranchNotBefore(v, k, c, x);
  }
}
