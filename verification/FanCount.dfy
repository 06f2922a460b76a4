/** Counting the batches of a fan-out node whose branches have distinct keys, as every foreach has. What the executors
    answer does not matter, and they need not answer twice alike. */
module FanCount {
  import opened Json
  import opened Util
  import opened Types
  import opened Core
  import opened Fanout
  import opened FanProgress
  import opened Step
  import opened Runs
  import FanMeaning
  import FanVisit
  import Invariants
  import Parking

  // ---- one batch --------------------------------------------------------------------

  /** The answers of a batch by branch key. */
  function BatchOut(f: Fan, sel: seq<nat>, env: Env): (out: Answers)
    requires ValidFan(f) && Distinct(f.keys) && DistinctPositions(sel)
    requires forall a | 0 <= a < |sel| :: sel[a] < |f.keys|
    ensures forall a | 0 <= a < |sel| ::
      f.keys[sel[a]] in out && out[f.keys[sel[a]]] == env.exec(a, f.calls[sel[a]])
  {
    map a | 0 <= a < |sel| :: f.keys[sel[a]] := env.exec(a, f.calls[sel[a]])
  }

  ghost predicate DistinctPositions(sel: seq<nat>) {
    forall a, b | 0 <= a < b < |sel| :: sel[a] != sel[b]
  }

  /** done and errs are disjoint and hold branch keys only. */
  ghost predicate Apart(f: Fan, p: Progress) {
    p.done.Keys !! p.errs.Keys && p.done.Keys + p.errs.Keys <= KeySet(f.keys)
  }

  lemma ReceivedApart(f: Fan, p: Progress, out: Answers, ks: set<string>)
    requires Apart(f, p) && ks <= KeySet(f.keys) && forall k | k in ks :: !Settled(k, p)
    ensures Apart(f, Received(p, out, ks))
  {
  }

  /** Whatever a batch of open branches answers, in whatever order: done and errs stay apart. */
  lemma BatchApart(f: Fan, p: Progress, sel: seq<nat>, env: Env)
    requires ValidFan(f) && Distinct(f.keys) && Apart(f, p) && sel <= Remaining(f.keys, p)
    requires forall a | 0 <= a < |sel| :: sel[a] < |f.keys|
    ensures Apart(f, ReceiveAll(p, Arrivals(f, sel, env)))
  {
    RemainingSorted(f.keys, p);
    assert forall a | 0 <= a < |sel| :: sel[a] == Remaining(f.keys, p)[a];
    var got, out := Arrivals(f, sel, env), BatchOut(f, sel, env);
    ArrivalKeys(f, sel, env);
    ReceiveAllIs(p, out, got);
    ReceivedApart(f, p, out, Keys(got));
  }

  /** No branch defers, and none ends the node early by failing. */
  ghost predicate Undisturbed(f: Fan, node: Node, env: Env) {
    forall slot: nat, a | 0 <= a < |f.calls| ::
      && !env.exec(slot, f.calls[a]).Pending?
      && (node.parallelMode == "concurrent" && node.failureStrategy == "fail_fast" ==> !env.exec(slot, f.calls[a]).Err?)
  }

  lemma {:induction false} NoneFails(p: Progress, got: seq<(string, Outcome)>)
    requires !p.hadErr && forall i | 0 <= i < |got| :: !got[i].1.Err?
    ensures !ReceiveAll(p, got).hadErr
  {
    if got != [] {
      NoneFails(p, got[..|got| - 1]);
    }
  }

  lemma BatchIsUndisturbed(f: Fan, node: Node, p: Progress, sel: seq<nat>, env: Env)
    requires ValidFan(f) && Undisturbed(f, node, env) && !p.hadErr && !p.pending
    requires forall a | 0 <= a < |sel| :: sel[a] < |f.keys|
    ensures var p' := ReceiveAll(p, Arrivals(f, sel, env));
      !p'.pending && (node.parallelMode == "concurrent" && node.failureStrategy == "fail_fast" ==> !p'.hadErr)
  {
    var got := Arrivals(f, sel, env);
    Parking.NonePending(p, got);
    if node.parallelMode == "concurrent" && node.failureStrategy == "fail_fast" {
      NoneFails(p, got);
    }
  }

  // ---- one step ---------------------------------------------------------------------

  function PlanOf(node: Node, keys: seq<string>): Plan {
    Plan(node.parallelMode == "concurrent", node.maxParallel, keys, map[])
  }

  /** How many of n open branches a step settles. */
  function Size(node: Node, n: nat): nat {
    PlanOf(node, []).Size(n)
  }

  /** The shared state of a visit that began with j, with progress p in the record. */
  ghost predicate Holds(j: NodeInput, f: Fan, shared: Dict, p: Progress) {
    && shared - {"_rt"} == j.shared - {"_rt"} && ("_rt" in shared || shared == j.shared)
    && EntryOf(shared, f.key, FreshEntry(j.node, f.extra)) == WriteProgress(FreshEntry(j.node, f.extra), p)
    && !p.hadErr && !p.pending && Apart(f, p)
  }

  ghost predicate Plain(f: Fan) {
    ValidFan(f) && Distinct(f.keys) && "done" !in f.extra && "errs" !in f.extra && "mode" !in f.extra
  }

  lemma HoldsNothing(j: NodeInput, f: Fan)
    requires Plain(f) && f.key !in RtOf(j.shared)
    ensures Holds(j, f, j.shared, Progress(map[], map[], false, false))
  {
    var init := FreshEntry(j.node, f.extra);
    assert WriteProgress(init, Progress(map[], map[], false, false)) == init;
  }

  lemma StoredProgress(j: NodeInput, f: Fan, shared: Dict, p: Progress, p': Progress)
    requires Holds(j, f, shared, p) && Apart(f, p')
    ensures Holds(j, f,
      PutEntry(shared, f.key, WriteProgress(WriteProgress(FreshEntry(j.node, f.extra), p), p')),
      Progress(p'.done, p'.errs, false, false))
  {
    var init := FreshEntry(j.node, f.extra);
    FanVisit.WriteTwice(init, p, p');
    PutEntryFacts(shared, f.key, WriteProgress(WriteProgress(init, p), p'), init);
  }

  /** Progress p' is one batch after p. */
  ghost predicate OneBatch(node: Node, keys: seq<string>, p: Progress, p': Progress) {
    var rem := Remaining(keys, p);
    && rem != [] && SettlesBatch(keys, p, p', rem[..Size(node, |rem|)])
    && |Remaining(keys, p')| == |rem| - Size(node, |rem|)
  }

  lemma ReadBack(j: NodeInput, f: Fan, p: Progress)
    requires Plain(f) && !p.hadErr && !p.pending
    ensures var entry := WriteProgress(FreshEntry(j.node, f.extra), p);
      ReadProgress(entry) == Some(p) && Get(entry, "mode") == Str(j.node.parallelMode)
  {
  }

  /** A step with open branches stays and settles exactly one batch. */
  lemma CountStep(j: NodeInput, f: Fan, i: NodeInput, p: Progress, env: Env) returns (shared: Dict, p': Progress)
    requires Plain(f) && i.node == j.node && Holds(j, f, i.shared, p) && Undisturbed(f, j.node, env)
    requires Remaining(f.keys, p) != []
    ensures FanStep(i, f, env) == Some(KeepRunning(i, shared))
    ensures Holds(j, f, shared, p') && OneBatch(j.node, f.keys, p, p')
  {
    var entry := WriteProgress(FreshEntry(j.node, f.extra), p);
    ReadBack(j, f, p);
    var rem := Remaining(f.keys, p);
    var sel := rem[..Size(j.node, |rem|)];
    assert Batch(i, entry, rem) == sel;
    assert forall a | 0 <= a < |sel| :: sel[a] == rem[a];
    var got := ReceiveAll(p, Arrivals(f, sel, env));
    BatchIsUndisturbed(f, j.node, p, sel, env);
    BatchApart(f, p, sel, env);
    BatchDecreases(f, p, sel, env);
    p' := Progress(got.done, got.errs, false, false);
    SameProgress(f.keys, got, p');
    StoredProgress(j, f, i.shared, p, got);
    shared := PutEntry(i.shared, f.key, WriteProgress(entry, got));
  }

  /** A step that finds nothing open finishes. */
  lemma FinishStep(j: NodeInput, f: Fan, i: NodeInput, p: Progress, env: Env)
    requires Plain(f) && i.node == j.node && Holds(j, f, i.shared, p) && Remaining(f.keys, p) == []
    ensures FanStep(i, f, env) == Some(FinishFan(i, f, p))
  {
    ReadBack(j, f, p);
  }

  // ---- the steps of a visit ---------------------------------------------------------

  /** A row enters a fan-out node that has no record and whose branches have distinct keys. */
  ghost predicate Enters(def: Flow, t: Task, f: Fan) {
    && FanMeaning.FanAt(InputOf(def, t)) == Some(f) && FanMeaning.InputStable(def, t)
    && f.key !in RtOf(t.shared) && Plain(f)
    && (t.status == "pending" || t.status == "running")
  }

  /** Every foreach with items has distinct keys. */
  lemma ForeachEnters(def: Flow, t: Task, f: Fan)
    requires FanMeaning.FanAt(InputOf(def, t)) == Some(f) && InputOf(def, t).node.kind == "foreach"
    ensures Plain(f)
  {
    FanMeaning.FanKeys(InputOf(def, t));
  }

  /** A row of the visit, however often it has been parked. */
  ghost predicate Resting(def: Flow, t: Task, f: Fan, r: Task, p: Progress) {
    r.cursor == t.cursor && r.params == t.params && Holds(InputOf(def, t), f, r.shared, p)
  }

  ghost predicate Row(def: Flow, t: Task, f: Fan, r: Task, p: Progress, n: nat) {
    && Resting(def, t, f, r, p) && r.steps == t.steps + n && (r.status == "pending" || r.status == "running")
  }

  lemma RowInput(def: Flow, t: Task, f: Fan, r: Task, p: Progress, env: Env) returns (i: NodeInput)
    requires Enters(def, t, f) && Resting(def, t, f, r, p) && r.status != "canceling"
    ensures i == InputOf(def, r) && i == InputOf(def, t).(task := r, shared := r.shared)
    ensures StepWrite(def, r, env) == FanStep(i, f, env)
  {
    FanMeaning.SameInput(def, t, r);
    i := InputOf(def, t).(task := r, shared := r.shared);
    FanMeaning.FanDetermined(i, InputOf(def, t));
    FanMeaning.FanStepOf(i, f, env);
  }

  lemma RowCounts(def: Flow, t: Task, f: Fan, r: Task, p: Progress, n: nat, env: Env) returns (p': Progress)
    requires Enters(def, t, f) && Row(def, t, f, r, p, n) && Remaining(f.keys, p) != []
    requires Undisturbed(f, NodeAt(def, t.cursor), env)
    ensures Row(def, t, f, Advance(def, r, env), p', n + 1) && OneBatch(NodeAt(def, t.cursor), f.keys, p, p')
    ensures StepWrite(def, r, env).Some? && StepWrite(def, r, env).value.move == Stay
  {
    var i := RowInput(def, t, f, r, p, env);
    var shared;
    shared, p' := CountStep(InputOf(def, t), f, i, p, env);
  }

  /** The number of batches for n branches. */
  function Rounds(node: Node, n: nat): nat {
    PlanOf(node, []).Rounds(n)
  }

  /** n / maxParallel rounded up in concurrent mode (1 without a bound), and n sequentially. */
  lemma RoundsAre(node: Node, n: nat)
    ensures node.parallelMode != "concurrent" ==> Rounds(node, n) == n
    ensures node.parallelMode == "concurrent" && node.maxParallel <= 0 ==> Rounds(node, n) == if n == 0 then 0 else 1
    ensures node.parallelMode == "concurrent" && node.maxParallel > 0 ==>
      n <= Rounds(node, n) * node.maxParallel < n + node.maxParallel
  {
    RoundsClosedForm(PlanOf(node, []), n);
  }

  lemma OneRoundLess(node: Node, keys: seq<string>, p: Progress, p': Progress)
    requires OneBatch(node, keys, p, p')
    ensures Rounds(node, |Remaining(keys, p)|) == 1 + Rounds(node, |Remaining(keys, p')|)
  {
  }

  ghost predicate Counted(def: Flow, t: Task, f: Fan, r: Task, p: Progress, n: nat) {
    && Row(def, t, f, r, p, n)
    && Rounds(NodeAt(def, t.cursor), |Remaining(f.keys, p)|) + n == Rounds(NodeAt(def, t.cursor), |f.keys|)
  }

  lemma CountedStep(def: Flow, t: Task, f: Fan, r: Task, p: Progress, n: nat, env: Env) returns (p': Progress)
    requires Enters(def, t, f) && Counted(def, t, f, r, p, n) && n < Rounds(NodeAt(def, t.cursor), |f.keys|)
    requires Undisturbed(f, NodeAt(def, t.cursor), env)
    ensures Counted(def, t, f, Advance(def, r, env), p', n + 1) && OneBatch(NodeAt(def, t.cursor), f.keys, p, p')
    ensures StepWrite(def, r, env).Some? && StepWrite(def, r, env).value.move == Stay
  {
    p' := RowCounts(def, t, f, r, p, n, env);
    OneRoundLess(NodeAt(def, t.cursor), f.keys, p, p');
  }

  lemma Starts(def: Flow, t: Task, f: Fan) returns (p: Progress)
    requires Enters(def, t, f)
    ensures Counted(def, t, f, t, p, 0)
  {
    p := Progress(map[], map[], false, false);
    HoldsNothing(InputOf(def, t), f);
    NothingSettled(f.keys, p);
  }

  lemma CountedNext(def: Flow, t: Task, f: Fan, envs: nat -> Env, p: Progress, n: nat, n': nat) returns (p': Progress)
    requires n' == n + 1 && Enters(def, t, f) && Counted(def, t, f, Steps(def, t, envs, n), p, n)
    requires n < Rounds(NodeAt(def, t.cursor), |f.keys|) && Undisturbed(f, NodeAt(def, t.cursor), envs(n))
    ensures Counted(def, t, f, Steps(def, t, envs, n'), p', n')
  {
    p' := CountedStep(def, t, f, Steps(def, t, envs, n), p, n, envs(n));
    StepsUnfold(def, t, envs, n);
  }

  lemma {:induction false} CountedRun(def: Flow, t: Task, f: Fan, envs: nat -> Env, n: nat) returns (p: Progress)
    requires Enters(def, t, f) && forall i: nat :: Undisturbed(f, NodeAt(def, t.cursor), envs(i))
    requires n <= Rounds(NodeAt(def, t.cursor), |f.keys|)
    ensures Counted(def, t, f, Steps(def, t, envs, n), p, n)
  {
    if n == 0 {
      p := Starts(def, t, f);
    } else {
      var m := n - 1;
      var q := CountedRun(def, t, f, envs, m);
      p := CountedNext(def, t, f, envs, q, m, n);
    }
  }

  /** The progress that the record of a row holds. */
  ghost predicate Stores(def: Flow, t: Task, f: Fan, r: Task, p: Progress) {
    && ReadProgress(EntryOf(r.shared, f.key, FreshEntry(NodeAt(def, t.cursor), f.extra))) == Some(p)
    && Apart(f, p)
  }

  /** Each step but the last stays and settles exactly one batch, min(maxParallel, remaining) of the open branches or
      one sequentially; done and errs stay disjoint and within the branch keys. */
  lemma ExactBatches(def: Flow, t: Task, f: Fan, envs: nat -> Env, n: nat) returns (p: Progress, p': Progress)
    requires Enters(def, t, f) && forall i: nat :: Undisturbed(f, NodeAt(def, t.cursor), envs(i))
    requires n < Rounds(NodeAt(def, t.cursor), |f.keys|)
    ensures var r := Steps(def, t, envs, n);
      && StepWrite(def, r, envs(n)).Some? && StepWrite(def, r, envs(n)).value.move == Stay
      && Stores(def, t, f, r, p) && Stores(def, t, f, Steps(def, t, envs, n + 1), p')
    ensures OneBatch(NodeAt(def, t.cursor), f.keys, p, p')
  {
    p := CountedRun(def, t, f, envs, n);
    p' := CountedStep(def, t, f, Steps(def, t, envs, n), p, n, envs(n));
    StepsUnfold(def, t, envs, n);
    ReadBack(InputOf(def, t), f, p);
    ReadBack(InputOf(def, t), f, p');
  }

  /** The node takes exactly one step a batch, and one to finish. */
  lemma ExactSteps(def: Flow, t: Task, f: Fan, envs: nat -> Env)
    requires Enters(def, t, f) && forall i: nat :: Undisturbed(f, NodeAt(def, t.cursor), envs(i))
    ensures var n := Rounds(NodeAt(def, t.cursor), |f.keys|);
      var r := Steps(def, t, envs, n);
      && r.cursor == t.cursor && r.steps == t.steps + n
      && StepWrite(def, r, envs(n)).Some? && StepWrite(def, r, envs(n)).value.move == Follow
      && Steps(def, t, envs, n + 1).steps == t.steps + n + 1
      && Steps(def, t, envs, n + 1).cursor == FindNext(def.edges, t.cursor, NodeAt(def, t.cursor).post.actionStatic)
  {
    var n := Rounds(NodeAt(def, t.cursor), |f.keys|);
    var p := CountedRun(def, t, f, envs, n);
    var r := Steps(def, t, envs, n);
    var i := RowInput(def, t, f, r, p, envs(n));
    FinishStep(InputOf(def, t), f, i, p, envs(n));
    FanActionIsStatic(i.node.post, Collect(f.keys, p.done));
    StepsUnfold(def, t, envs, n);
  }

  // ---- executors that defer or fail -------------------------------------------------

  predicate Lasts(w: Write) {
    w.move == Stay || w.move == Park
  }

  /** Neither a signal, nor a step that leaves the node or cancels the task. */
  ghost predicate Rests(def: Flow, r: Task, ev: Invariants.Event) {
    && !ev.Signalled?
    && (ev.Stepped? && Invariants.Steppable(r) && StepWrite(def, r, ev.env).Some? ==>
          Lasts(StepWrite(def, r, ev.env).value))
  }

  ghost predicate RestsThrough(def: Flow, r: Task, evs: seq<Invariants.Event>)
    decreases |evs|
  {
    evs != [] ==> Rests(def, r, evs[0]) && RestsThrough(def, Invariants.Apply(def, r, evs[0]), evs[1..])
  }

  /** A step that does not leave keeps done and errs apart, whatever its branches answer. */
  lemma AnyStep(j: NodeInput, f: Fan, i: NodeInput, p: Progress, env: Env) returns (p': Progress)
    requires Plain(f) && i.node == j.node && Holds(j, f, i.shared, p)
    requires FanStep(i, f, env).Some? && Lasts(FanStep(i, f, env).value)
    ensures Holds(j, f, FanStep(i, f, env).value.shared, p')
  {
    var entry := WriteProgress(FreshEntry(j.node, f.extra), p);
    ReadBack(j, f, p);
    var rem := Remaining(f.keys, p);
    var sel := Batch(i, entry, rem);
    assert forall a | 0 <= a < |sel| :: sel[a] == rem[a];
    var got := ReceiveAll(p, Arrivals(f, sel, env));
    BatchApart(f, p, sel, env);
    StoredProgress(j, f, i.shared, p, got);
    p' := if FanStep(i, f, env).value.shared == i.shared then p else Progress(got.done, got.errs, false, false);
  }

  lemma RestingStep(def: Flow, t: Task, f: Fan, r: Task, p: Progress, env: Env, w: Write) returns (p': Progress)
    requires Enters(def, t, f) && Resting(def, t, f, r, p) && r.status != "canceling"
    requires StepWrite(def, r, env) == Some(w) && Lasts(w)
    ensures Holds(InputOf(def, t), f, w.shared, p')
  {
    var i := RowInput(def, t, f, r, p, env);
    p' := AnyStep(InputOf(def, t), f, i, p, env);
  }

  lemma LastingWrite(def: Flow, r: Task, env: Env, w: Write)
    requires StepWrite(def, r, env) == Some(w) && Lasts(w)
    ensures r.status != "canceling" && w.cursor == r.cursor && Advance(def, r, env) == Land(r, w, env.Now())
  {
    Invariants.NodeStepEnds(InputOf(def, r), env);
  }

  lemma RestingEvent(def: Flow, t: Task, f: Fan, r: Task, p: Progress, ev: Invariants.Event) returns (p': Progress)
    requires Enters(def, t, f) && Resting(def, t, f, r, p) && Rests(def, r, ev)
    ensures Resting(def, t, f, Invariants.Apply(def, r, ev), p')
  {
    p' := p;
    if ev.Stepped? && Invariants.Steppable(r) && StepWrite(def, r, ev.env).Some? {
      var w := StepWrite(def, r, ev.env).value;
      LastingWrite(def, r, ev.env, w);
      p' := RestingStep(def, t, f, r, p, ev.env, w);
    }
  }

  /** Over every run on the node, with parkings, wake-ups, leases and cancel requests, and executors that defer or fail
      at will: done and errs stay disjoint and within the branch keys. */
  lemma {:induction false} AlwaysApart(def: Flow, t: Task, f: Fan, r: Task, p: Progress, evs: seq<Invariants.Event>)
    returns (p': Progress)
    requires Enters(def, t, f) && Resting(def, t, f, r, p) && RestsThrough(def, r, evs)
    ensures Resting(def, t, f, Invariants.Run(def, r, evs), p')
    decreases |evs|
  {
    if evs == [] {
      p' := p;
    } else {
      p' := RestingEvent(def, t, f, r, p, evs[0]);
      p' := AlwaysApart(def, t, f, Invariants.Apply(def, r, evs[0]), p', evs[1..]);
    }
  }

  /** The same from the row that enters the node, in terms of what is stored. */
  lemma StoredApart(def: Flow, t: Task, f: Fan, evs: seq<Invariants.Event>) returns (p: Progress)
    requires Enters(def, t, f) && RestsThrough(def, t, evs)
    ensures Stores(def, t, f, Invariants.Run(def, t, evs), p) && Invariants.Run(def, t, evs).cursor == t.cursor
  {
    p := Progress(map[], map[], false, false);
    HoldsNothing(InputOf(def, t), f);
    p := AlwaysApart(def, t, f, t, p, evs);
    ReadBack(InputOf(def, t), f, p);
  }
}
