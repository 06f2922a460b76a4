/** Acyclic flows end: every step of a task decreases a lexicographic measure or ends the run. */
module Termination {
  import opened Json
  import opened Util
  import opened Types
  import opened Core
  import opened Step
  import opened Invariants
  import opened Parking
  import opened Runs
  import opened SubflowVisit
  import Executor
  import Fanout
  import FanProgress
  import FanMeaning
  import Foreach
  import LeaseBlind
  import Parallel
  import Store
  import Subflow

  // ---- what is required of the flow -------------------------------------------------

  /** Ranks that every edge decreases; the sub-nodes of each subflow node have ranks of their own. */
  datatype Ranking = Ranking(node: string -> nat, sub: (string, string) -> nat)

  ghost predicate Acyclic(edges: seq<Edge>, rank: string -> nat) {
    forall i | 0 <= i < |edges| :: edges[i].to != "" ==> rank(edges[i].to) < rank(edges[i].from)
  }

  function SubRank(r: Ranking, key: string): string -> nat {
    sub => r.sub(key, sub)
  }

  /** Kinds that need neither the clock nor a person, with bounded retries and at least one branch. */
  ghost predicate Bounded(node: Node, key: string, params: Dict, r: Ranking) {
    && node.kind != "timer" && node.kind != "wait_event" && node.kind != "approval"
    && (node.kind == "foreach" ==> FanMeaning.PrepAvoidsRt(node.prep))
    && (node.kind == "parallel" ==> Parallel.Services(node, node.params + params) != [])
    && (node.kind == "subflow" && node.subflow.Some? ==>
          && Acyclic(node.subflow.value.edges, SubRank(r, key))
          && (node.failureStrategy == "retry" ==> node.maxRetries > 0 && node.waitMs <= 0))
  }

  ghost predicate Terminating(def: Flow, params: Dict, r: Ranking) {
    && Acyclic(def.edges, r.node) && NoRtOutputs(def)
    && forall k :: Bounded(NodeAt(def, k), k, params, r)
  }

  // ---- records ----------------------------------------------------------------------

  predicate GoodRecord(node: Node, entry: Dict) {
    && WellFormed(node, entry)
    && (node.kind == "subflow" && node.failureStrategy == "retry" ==> AsInt(Get(entry, "next_try_at")) <= 0)
  }

  /** Every record of a node of the flow has the shape its node asserts; records that a fail-fast exit left
      behind may be among them. */
  ghost predicate GoodRecords(def: Flow, shared: Dict) {
    forall k :: GoodRecordOf(def, shared, k)
  }

  predicate GoodRecordOf(def: Flow, shared: Dict, k: string) {
    var key := RecordKey(NodeAt(def, k), k);
    key.Some? && Get(RtOf(shared), key.value).Obj? ==> GoodRecord(NodeAt(def, k), RtOf(shared)[key.value].m)
  }

  lemma RecordKeysDiffer(def: Flow, k: string, k': string)
    requires RecordKey(NodeAt(def, k), k).Some? && k != k'
    ensures RecordKey(NodeAt(def, k'), k') != RecordKey(NodeAt(def, k), k)
  {
    var a, b := RecordKey(NodeAt(def, k), k), RecordKey(NodeAt(def, k'), k');
    if b.Some? {
      assert a.value[3..] == k && b.value[3..] == k';
    }
  }

  /** A shared state that differs in the record of one node only, where it has a good one or none. */
  lemma RecordReplaced(def: Flow, shared: Dict, shared': Dict, k: string)
    requires GoodRecords(def, shared) && GoodRecordOf(def, shared', k)
    requires var key := RecordKey(NodeAt(def, k), k);
      if key.Some? then RtOf(shared') - {key.value} == RtOf(shared) - {key.value} else RtOf(shared') == RtOf(shared)
    ensures GoodRecords(def, shared')
  {
    var key := RecordKey(NodeAt(def, k), k);
    forall q ensures GoodRecordOf(def, shared', q) {
      var o := RecordKey(NodeAt(def, q), q);
      assert GoodRecordOf(def, shared, q);
      if q != k && key.Some? && o.Some? {
        RecordKeysDiffer(def, k, q);
        assert Get(RtOf(shared'), o.value) == Get(RtOf(shared') - {key.value}, o.value);
        assert Get(RtOf(shared), o.value) == Get(RtOf(shared) - {key.value}, o.value);
      }
    }
  }

  lemma DropKeepsOthers(shared: Dict, rt: Dict, key: string, outputKey: string, v: Json)
    requires rt == RtOf(shared) && outputKey != "_rt"
    ensures RtOf(DropEntry(SetOutput(shared, outputKey, v), rt, key)) == rt - {key}
  {
  }

  // ---- the measure ------------------------------------------------------------------

  datatype Measure = Measure(node: nat, retries: nat, inner: nat)

  predicate Less(a: Measure, b: Measure) {
    || a.node < b.node
    || (a.node == b.node && a.retries < b.retries)
    || (a.node == b.node && a.retries == b.retries && a.inner < b.inner)
  }

  function FanMeasure(j: NodeInput, f: Fanout.Fan): nat {
    match Fanout.ReadProgress(Fanout.EntryOf(j.shared, f.key, Fanout.FreshEntry(j.node, f.extra)))
    case None => 0
    case Some(p) => |Fanout.Remaining(f.keys, p)|
  }

  function RetriesLeft(node: Node, sf: Dict): nat {
    var left := node.maxRetries - AsInt(Get(sf, "retries"));
    if left < 0 then 0 else left
  }

  /** (rank of the node, retries left, sub-node rank or branches to settle). */
  function MeasureOf(j: NodeInput, r: Ranking): Measure {
    if FanMeaning.FanAt(j).Some? then Measure(r.node(j.key), 0, FanMeasure(j, FanMeaning.FanAt(j).value))
    else if j.node.kind == "subflow" && j.node.subflow.Some? then
      var sf := SfOf(j, j.node.subflow.value);
      Measure(r.node(j.key), RetriesLeft(j.node, sf), r.sub(j.key, AsStr(Get(sf, "curr"))))
    else Measure(r.node(j.key), 0, 0)
  }

  // ---- steps that stay --------------------------------------------------------------

  /** A fan-out step that stays has settled a batch. */
  lemma FanStayIs(j: NodeInput, f: Fanout.Fan, env: Env) returns (entry: Dict, p: Fanout.Progress, p': Fanout.Progress)
    requires Fanout.ValidFan(f) && Fanout.FanStep(j, f, env).Some? && Fanout.FanStep(j, f, env).value.move == Stay
    ensures entry == Fanout.EntryOf(j.shared, f.key, Fanout.FreshEntry(j.node, f.extra))
    ensures Fanout.ReadProgress(entry) == Some(p) && Get(entry, "mode").Str?
    ensures Fanout.FanStep(j, f, env).value.shared == PutEntry(j.shared, f.key, Fanout.WriteProgress(entry, p'))
    ensures |Fanout.Remaining(f.keys, p')| < |Fanout.Remaining(f.keys, p)|
  {
    entry := Fanout.EntryOf(j.shared, f.key, Fanout.FreshEntry(j.node, f.extra));
    p := Fanout.ReadProgress(entry).value;
    var sel := Fanout.Batch(j, entry, Fanout.Remaining(f.keys, p));
    assert forall i | 0 <= i < |sel| :: sel[i] == Fanout.Remaining(f.keys, p)[i];
    p' := Fanout.ReceiveAll(p, Fanout.Arrivals(f, sel, env));
    FanProgress.BatchDecreases(f, p, sel, env);
  }

  /** A fan-out step that stays leaves a good record with fewer open branches. */
  lemma FanStays(j: NodeInput, f: Fanout.Fan, env: Env)
    requires Fanout.ValidFan(f) && IsFan(j.node)
    requires Fanout.FanStep(j, f, env).Some? && Fanout.FanStep(j, f, env).value.move == Stay
    ensures var shared := Fanout.FanStep(j, f, env).value.shared;
      && shared - {"_rt"} == j.shared - {"_rt"} && "_rt" in shared
      && RtOf(shared) - {f.key} == RtOf(j.shared) - {f.key}
      && Get(RtOf(shared), f.key).Obj? && WellFormed(j.node, RtOf(shared)[f.key].m)
      && FanMeasure(j.(shared := shared), f) < FanMeasure(j, f)
  {
    var entry, p, p' := FanStayIs(j, f, env);
    Fanout.PutEntryFacts(j.shared, f.key, Fanout.WriteProgress(entry, p'), Fanout.FreshEntry(j.node, f.extra));
    FanProgress.SameProgress(f.keys, p', Fanout.Progress(p'.done, p'.errs, false, false));
  }

  lemma RankDrops(edges: seq<Edge>, rank: string -> nat, from: string, action: string)
    requires Acyclic(edges, rank)
    ensures FindNext(edges, from, action) != "" ==> rank(FindNext(edges, from, action)) < rank(from)
  {
    FindNextIsFirstEdge(edges, from, action);
  }

  function SubflowCall(j: NodeInput, flow: Flow): ExecIn {
    Subflow.SubCall(j, flow, AsStr(Get(SfOf(j, flow), "curr")), AsObj(Get(SfOf(j, flow), "shared")))
  }

  /** A subflow step that stays has counted a retry or moved on to the next sub-node. */
  lemma SubflowStayIs(j: NodeInput, flow: Flow, env: Env) returns (sf: Dict)
    requires j.node.kind == "subflow" && j.node.subflow == Some(flow) && Tries(j, flow, env)
    requires Get(SfOf(j, flow), "shared").Obj?
    requires Subflow.SubflowStep(j, env).Some? && Subflow.SubflowStep(j, env).value.move == Stay
    ensures Subflow.SubflowStep(j, env).value.shared == PutEntry(j.shared, "sf:" + j.key, sf)
    ensures var curr, out := AsStr(Get(SfOf(j, flow), "curr")), env.exec(0, SubflowCall(j, flow));
      if out.Err? then sf == Subflow.CountRetry(j.node, SfOf(j, flow), env.nowMs) && Subflow.MayRetry(j.node, sf)
      else
        && out.Ok?
        && var next := FindNext(flow.edges, curr, Executor.ActionOf(NodeAt(flow, curr).post, out.value));
           next != "" && exists sub :: sf == SfOf(j, flow)["curr" := Str(next)]["shared" := Obj(sub)]
  {
    var curr, out := AsStr(Get(SfOf(j, flow), "curr")), env.exec(0, SubflowCall(j, flow));
    if out.Err? {
      sf := Subflow.CountRetry(j.node, SfOf(j, flow), env.nowMs);
    } else {
      var post := NodeAt(flow, curr).post;
      var sub := Executor.WithOutputs(post, out.value, Get(SfOf(j, flow), "shared").m);
      var next := FindNext(flow.edges, curr, Executor.ActionOf(post, out.value));
      sf := SfOf(j, flow)["curr" := Str(next)]["shared" := Obj(sub)];
    }
  }

  /** Fewer retries are left, or as many and the sub-cursor has a lower rank. */
  predicate RecordDecreases(j: NodeInput, flow: Flow, r: Ranking, sf: Dict) {
    var was := SfOf(j, flow);
    var left, left' := RetriesLeft(j.node, was), RetriesLeft(j.node, sf);
    left' < left || (left' == left && r.sub(j.key, AsStr(Get(sf, "curr"))) < r.sub(j.key, AsStr(Get(was, "curr"))))
  }

  lemma CountedRecord(j: NodeInput, flow: Flow, r: Ranking, nowMs: int)
    requires j.node.kind == "subflow" && j.node.subflow == Some(flow) && j.node.waitMs <= 0 && j.node.maxRetries > 0
    requires Get(SfOf(j, flow), "shared").Obj? && AsInt(Get(SfOf(j, flow), "next_try_at")) <= 0
    requires Subflow.MayRetry(j.node, Subflow.CountRetry(j.node, SfOf(j, flow), nowMs))
    ensures var sf := Subflow.CountRetry(j.node, SfOf(j, flow), nowMs);
      RecordDecreases(j, flow, r, sf) && (AsStr(Get(SfOf(j, flow), "curr")) != "" ==> GoodRecord(j.node, sf))
  {
    IntRoundTrip(AsInt(Get(SfOf(j, flow), "retries")) + 1);
  }

  lemma MovedRecord(j: NodeInput, flow: Flow, r: Ranking, next: string, sub: Dict)
    requires j.node.kind == "subflow" && j.node.subflow == Some(flow) && next != ""
    requires j.node.failureStrategy == "retry" ==> AsInt(Get(SfOf(j, flow), "next_try_at")) <= 0
    requires r.sub(j.key, next) < r.sub(j.key, AsStr(Get(SfOf(j, flow), "curr")))
    ensures var sf := SfOf(j, flow)["curr" := Str(next)]["shared" := Obj(sub)];
      RecordDecreases(j, flow, r, sf) && GoodRecord(j.node, sf)
  {
  }

  /** A stay uses up a retry or moves to a sub-node of lower rank, and leaves a good record. */
  lemma SubflowStays(j: NodeInput, flow: Flow, env: Env, r: Ranking, params: Dict) returns (sf: Dict)
    requires j.node.kind == "subflow" && j.node.subflow == Some(flow) && Bounded(j.node, j.key, params, r)
    requires Get(SfOf(j, flow), "shared").Obj?
    requires j.node.failureStrategy == "retry" ==> AsInt(Get(SfOf(j, flow), "next_try_at")) <= 0
    requires Subflow.SubflowStep(j, env).Some? && Subflow.SubflowStep(j, env).value.move == Stay
    ensures Subflow.SubflowStep(j, env).value.shared == PutEntry(j.shared, "sf:" + j.key, sf)
    ensures AsStr(Get(SfOf(j, flow), "curr")) != "" ==> GoodRecord(j.node, sf)
    ensures RecordDecreases(j, flow, r, sf)
  {
    sf := SubflowStayIs(j, flow, env);
    var curr, out := AsStr(Get(SfOf(j, flow), "curr")), env.exec(0, SubflowCall(j, flow));
    if out.Err? {
      CountedRecord(j, flow, r, env.nowMs);
    } else {
      var next := FindNext(flow.edges, curr, Executor.ActionOf(NodeAt(flow, curr).post, out.value));
      RankDrops(flow.edges, SubRank(r, j.key), curr, Executor.ActionOf(NodeAt(flow, curr).post, out.value));
      var sub :| sf == SfOf(j, flow)["curr" := Str(next)]["shared" := Obj(sub)];
      MovedRecord(j, flow, r, next, sub);
    }
  }

  // ---- steps that leave -------------------------------------------------------------

  /** Nothing but the record of this node has changed, and what is there of it is good. */
  ghost predicate NodeKeeps(j: NodeInput, shared: Dict) {
    var key := RecordKey(j.node, j.key);
    if key.None? then RtOf(shared) == RtOf(j.shared)
    else
      && RtOf(shared) - {key.value} == RtOf(j.shared) - {key.value}
      && (Get(RtOf(shared), key.value).Obj? ==> GoodRecord(j.node, RtOf(shared)[key.value].m))
  }

  lemma OutputKeepsRt(shared: Dict, outputKey: string, v: Json)
    requires outputKey != "_rt"
    ensures RtOf(SetOutput(shared, outputKey, v)) == RtOf(shared)
  {
  }

  lemma DropKeeps(j: NodeInput, key: string, v: Json)
    requires RecordKey(j.node, j.key) == Some(key) && KeepsOutRt(j.node.post)
    ensures NodeKeeps(j, DropEntry(SetOutput(j.shared, j.node.post.outputKey, v), RtOf(j.shared), key))
  {
    DropKeepsOthers(j.shared, RtOf(j.shared), key, j.node.post.outputKey, v);
  }

  lemma ExecutorLeaves(j: NodeInput, env: Env)
    requires KeepsOutRt(j.node.post) && RecordKey(j.node, j.key).None?
    ensures NodeKeeps(j, Executor.ExecutorStep(j, env).shared)
    ensures Executor.ExecutorStep(j, env).move != Stay
  {
    var out := Executor.RetryLoop(env.exec, Executor.CallOf(j), j.node.maxRetries, 1).out;
    var w := Executor.EndOf(j, out);
    assert w.move != Stay;
    assert "_rt" in w.shared <==> "_rt" in j.shared;
    assert "_rt" in j.shared ==> w.shared["_rt"] == j.shared["_rt"];
  }

  lemma FailFastKeeps(j: NodeInput, f: Fanout.Fan, entry: Dict, p: Fanout.Progress)
    requires IsFan(j.node) && RecordKey(j.node, j.key) == Some(f.key) && KeepsOutRt(j.node.post)
    requires Get(entry, "mode").Str?
    ensures NodeKeeps(j, Fanout.FailFast(j, f, PutEntry(j.shared, f.key, Fanout.WriteProgress(entry, p)), p).shared)
  {
    var stored := PutEntry(j.shared, f.key, Fanout.WriteProgress(entry, p));
    Fanout.PutEntryFacts(j.shared, f.key, Fanout.WriteProgress(entry, p), map[]);
    OutputKeepsRt(stored, j.node.post.outputKey, Arr(Fanout.CollectDone(f.keys, p.done)));
  }

  lemma FanLeaves(j: NodeInput, f: Fanout.Fan, env: Env)
    requires Fanout.ValidFan(f) && IsFan(j.node) && RecordKey(j.node, j.key) == Some(f.key) && KeepsOutRt(j.node.post)
    requires Fanout.FanStep(j, f, env).Some? && Fanout.FanStep(j, f, env).value.move == Follow
    ensures NodeKeeps(j, Fanout.FanStep(j, f, env).value.shared)
  {
    var entry := Fanout.EntryOf(j.shared, f.key, Fanout.FreshEntry(j.node, f.extra));
    var p := Fanout.ReadProgress(entry).value;
    var rem := Fanout.Remaining(f.keys, p);
    if rem == [] {
      DropKeeps(j, f.key, Arr(Fanout.Collect(f.keys, p.done)));
    } else {
      var sel := Fanout.Batch(j, entry, rem);
      assert forall i | 0 <= i < |sel| :: sel[i] == rem[i];
      FailFastKeeps(j, f, entry, Fanout.ReceiveAll(p, Fanout.Arrivals(f, sel, env)));
    }
  }

  lemma SubflowLeaves(j: NodeInput, env: Env)
    requires j.node.kind == "subflow" && j.node.subflow.Some? && KeepsOutRt(j.node.post)
    requires Subflow.SubflowStep(j, env).Some? && Subflow.SubflowStep(j, env).value.move == Follow
    requires Get(RtOf(j.shared), "sf:" + j.key).Obj? ==> GoodRecord(j.node, RtOf(j.shared)["sf:" + j.key].m)
    ensures NodeKeeps(j, Subflow.SubflowStep(j, env).value.shared)
  {
    var key := "sf:" + j.key;
    var flow, sf := j.node.subflow.value, SfOf(j, j.node.subflow.value);
    if AsStr(Get(sf, "curr")) != "" {
      var w := Subflow.SubflowStep(j, env).value;
      if w.shared != j.shared {
        var sub := Subflow.MapOrNull(Get(sf, "shared"));
        DropKeeps(j, key, sub);
        var out := env.exec(0, Subflow.SubCall(j, flow, AsStr(Get(sf, "curr")), AsObj(sub)));
        if out.Ok? {
          var post := NodeAt(flow, AsStr(Get(sf, "curr"))).post;
          DropKeeps(j, key, Subflow.SubOutputs(post, out.value, sub).value);
        }
      }
    }
  }

  // ---- the step theorem -------------------------------------------------------------

  /** A row the scheduler goes on with. */
  ghost predicate Going(def: Flow, t: Task, r: Ranking) {
    && (t.status == "pending" || t.status == "running") && t.cursor != ""
    && GoodRecords(def, t.shared) && Terminating(def, t.params, r)
  }

  predicate Stopped(status: string) {
    status == "completed" || status == "failed" || status == "waiting_queue"
  }

  predicate RecordGood(j: NodeInput) {
    var key := RecordKey(j.node, j.key);
    key.Some? && Get(RtOf(j.shared), key.value).Obj? ==> GoodRecord(j.node, RtOf(j.shared)[key.value].m)
  }

  lemma GoodInput(def: Flow, t: Task, r: Ranking) returns (j: NodeInput)
    requires Going(def, t, r)
    ensures j == InputOf(def, t) && j.node == NodeAt(def, t.cursor) && Bounded(j.node, j.key, t.params, r)
    ensures KeepsOutRt(j.node.post) && RecordGood(j)
  {
    j := InputOf(def, t);
    assert GoodRecordOf(def, t.shared, t.cursor);
  }

  /** The outcome of a step as far as the run is concerned. */
  ghost predicate Decreases(j: NodeInput, w: Write, r: Ranking) {
    || Stopped(w.status)
    || (w.move == Follow && w.status == "running" && w.cursor != ""
        && r.node(w.cursor) < r.node(j.key) && NodeKeeps(j, w.shared))
    || (w.move == Stay && w.status == "running" && w.cursor == j.key && NodeKeeps(j, w.shared)
        && w.shared - {"_rt"} == j.shared - {"_rt"} && "_rt" in w.shared
        && Less(MeasureOf(j.(shared := w.shared), r), MeasureOf(j, r)))
  }

  lemma LeavingDecreases(j: NodeInput, w: Write, r: Ranking)
    requires ProperEnd(j, w) && w.move != Stay && (w.move == Follow ==> NodeKeeps(j, w.shared))
    requires Acyclic(j.def.edges, r.node)
    ensures Decreases(j, w, r)
  {
    if w.move == Follow {
      RankDrops(j.def.edges, r.node, j.key, w.action);
    }
  }

  lemma FanDecreases(j: NodeInput, f: Fanout.Fan, env: Env, r: Ranking)
    requires FanMeaning.FanAt(j) == Some(f) && KeepsOutRt(j.node.post) && RecordGood(j) && Acyclic(j.def.edges, r.node)
    ensures Fanout.FanStep(j, f, env).Some? && Decreases(j, Fanout.FanStep(j, f, env).value, r)
  {
    assert WellFormed(j.node, Fanout.EntryOf(j.shared, f.key, Fanout.FreshEntry(j.node, f.extra)));
    var w := Fanout.FanStep(j, f, env).value;
    FanStepEnds(j, f, env);
    if w.move == Stay {
      FanStays(j, f, env);
      var j' := j.(shared := w.shared);
      FanMeaning.FanDetermined(j, j');
    } else {
      if w.move == Follow { FanLeaves(j, f, env); }
      LeavingDecreases(j, w, r);
    }
  }

  lemma SubflowDecreases(j: NodeInput, env: Env, r: Ranking, params: Dict)
    requires j.node.kind == "subflow" && j.node.subflow.Some? && Bounded(j.node, j.key, params, r)
    requires KeepsOutRt(j.node.post) && RecordGood(j) && Acyclic(j.def.edges, r.node)
    ensures Subflow.SubflowStep(j, env).Some? && Decreases(j, Subflow.SubflowStep(j, env).value, r)
  {
    var flow := j.node.subflow.value;
    assert Get(SfOf(j, flow), "shared").Obj?;
    var w := Subflow.SubflowStep(j, env).value;
    SubflowStepEnds(j, env);
    if w.move == Stay {
      var sf := SubflowStays(j, flow, env, r, params);
      Fanout.PutEntryFacts(j.shared, "sf:" + j.key, sf, Subflow.FreshSub(flow));
      assert AsStr(Get(SfOf(j, flow), "curr")) != "";
    } else {
      if w.move == Follow { SubflowLeaves(j, env); }
      LeavingDecreases(j, w, r);
    }
  }

  lemma PlainDecreases(j: NodeInput, env: Env, r: Ranking)
    requires RecordKey(j.node, j.key).None? && KeepsOutRt(j.node.post) && Acyclic(j.def.edges, r.node)
    ensures NodeStep(j, env).Some? && Decreases(j, NodeStep(j, env).value, r)
  {
    NodeStepEnds(j, env);
    if j.node.kind == "choice" {
      OutputKeepsRt(j.shared, j.node.post.outputKey, j.input);
    } else {
      ExecutorLeaves(j, env);
    }
    LeavingDecreases(j, NodeStep(j, env).value, r);
  }

  lemma EmptyListDecreases(j: NodeInput, env: Env, r: Ranking)
    requires j.node.kind == "foreach" && Foreach.Items(j.input) == [] && RecordGood(j) && Acyclic(j.def.edges, r.node)
    ensures Foreach.ForeachStep(j, env).Some? && Decreases(j, Foreach.ForeachStep(j, env).value, r)
  {
    var w := Foreach.ForeachStep(j, env).value;
    FinishIsProper(j, j.node.post.actionStatic, j.shared, false);
    LeavingDecreases(j, w, r);
  }

  lemma NodeDecreases(j: NodeInput, env: Env, r: Ranking, params: Dict)
    requires Bounded(j.node, j.key, params, r) && j.params == j.node.params + params
    requires KeepsOutRt(j.node.post) && RecordGood(j) && Acyclic(j.def.edges, r.node)
    ensures NodeStep(j, env).Some? && Decreases(j, NodeStep(j, env).value, r)
  {
    if FanMeaning.FanAt(j).Some? {
      FanMeaning.FanStepOf(j, FanMeaning.FanAt(j).value, env);
      FanDecreases(j, FanMeaning.FanAt(j).value, env, r);
    } else if j.node.kind == "foreach" {
      EmptyListDecreases(j, env, r);
    } else if j.node.kind == "subflow" && j.node.subflow.Some? {
      SubflowDecreases(j, env, r, params);
    } else {
      PlainDecreases(j, env, r);
    }
  }

  /** The measure looks at the input only to list the items of a foreach. */
  lemma MeasureIgnoresInput(j: NodeInput, j': NodeInput, r: Ranking)
    requires j.node == j'.node && j.key == j'.key && j.params == j'.params && j.shared == j'.shared
    requires j.node.kind == "foreach" ==> j.input == j'.input
    ensures MeasureOf(j, r) == MeasureOf(j', r)
  {
    if j.node.kind == "foreach" {
      FanMeaning.FanDetermined(j, j');
    } else if j.node.kind == "parallel" && FanMeaning.FanAt(j).Some? {
      var f, f' := FanMeaning.FanAt(j).value, FanMeaning.FanAt(j').value;
      assert f.keys == f'.keys && f.key == f'.key && f.extra == f'.extra;
    }
  }

  lemma StayedInput(def: Flow, t: Task, t': Task, r: Ranking)
    requires t'.cursor == t.cursor && t'.params == t.params
    requires Bounded(NodeAt(def, t.cursor), t.cursor, t.params, r)
    requires t'.shared - {"_rt"} == t.shared - {"_rt"} && "_rt" in t'.shared
    ensures MeasureOf(InputOf(def, t'), r) == MeasureOf(InputOf(def, t).(shared := t'.shared), r)
  {
    if NodeAt(def, t.cursor).kind == "foreach" {
      FanMeaning.PrepIsStable(def, t);
      FanMeaning.SameInput(def, t, t');
    }
    MeasureIgnoresInput(InputOf(def, t'), InputOf(def, t).(shared := t'.shared), r);
  }

  lemma MeasureNode(j: NodeInput, r: Ranking)
    ensures MeasureOf(j, r).node == r.node(j.key)
  {
  }

  /** The row after a write that goes on is one the scheduler goes on with, and has a smaller measure. */
  lemma GoesOnSmaller(def: Flow, t: Task, t': Task, w: Write, r: Ranking)
    requires Going(def, t, r) && Decreases(InputOf(def, t), w, r) && !Stopped(w.status)
    requires t'.cursor == w.cursor && t'.status == w.status && t'.shared == w.shared && t'.params == t.params
    ensures Going(def, t', r) && Less(MeasureOf(InputOf(def, t'), r), MeasureOf(InputOf(def, t), r))
  {
    assert GoodRecordOf(def, w.shared, t.cursor);
    RecordReplaced(def, t.shared, w.shared, t.cursor);
    MeasureNode(InputOf(def, t), r);
    MeasureNode(InputOf(def, t'), r);
    if w.move == Stay {
      StayedInput(def, t, t', r);
    }
  }

  /** Each step of a terminating flow stops the task or goes on with a smaller measure; it never panics. */
  lemma StepDecreases(def: Flow, t: Task, env: Env, r: Ranking)
    requires Going(def, t, r)
    ensures StepWrite(def, t, env).Some?
    ensures var t' := Advance(def, t, env);
      Stopped(t'.status) || (Going(def, t', r) && Less(MeasureOf(InputOf(def, t'), r), MeasureOf(InputOf(def, t), r)))
  {
    var j := GoodInput(def, t, r);
    NodeDecreases(j, env, r, t.params);
    var w := NodeStep(j, env).value;
    if !Stopped(w.status) {
      GoesOnSmaller(def, t, Land(t, w, env.Now()), w, r);
    }
  }

  // ---- the scheduler's inner loop ---------------------------------------------------

  lemma PromptStep(def: Flow, t: Task, env: Env)
    requires Prompt(env) && t.status != "canceling" && t.status != "waiting_queue"
    ensures Advance(def, t, env).status != "waiting_queue"
  {
    var j := InputOf(def, t);
    if NodeStep(j, env).Some? {
      NeverParks(j, env);
      NodeStepEnds(j, env);
    }
  }

  ghost predicate Runnable(tasks: map<string, Task>, flows: map<string, Flow>, id: string, r: Ranking) {
    && id in tasks && tasks[id].id == id && tasks[id].flowId in flows
    && Going(flows[tasks[id].flowId], tasks[id], r)
  }

  ghost function TaskMeasure(tasks: map<string, Task>, flows: map<string, Flow>, id: string, r: Ranking): Measure
    requires Runnable(tasks, flows, id, r)
  {
    MeasureOf(InputOf(flows[tasks[id].flowId], tasks[id]), r)
  }

  lemma RoundStep(def: Flow, t: Task, t1: Task, env: Env, r: Ranking)
    requires t1 == t.(leaseExpiry := t1.leaseExpiry) && Going(def, t, r)
    ensures StepWrite(def, t1, env).Some? && t1.status != "canceling"
    ensures var t' := Advance(def, t1, env);
      && t'.id == t.id && t'.flowId == t.flowId
      && (Stopped(t'.status)
          || (Going(def, t', r) && Less(MeasureOf(InputOf(def, t'), r), MeasureOf(InputOf(def, t), r))))
      && (Prompt(env) ==> t'.status != "waiting_queue")
  {
    LeaseIsNotRead(def, t, t1, r);
    StepDecreases(def, t1, env, r);
    if Prompt(env) {
      PromptStep(def, t1, env);
    }
  }

  /** The row after a round: its lease is extended if the engine has it, and then it takes its step if the engine may
      write it. */
  function RoundRow(def: Flow, t: Task, owner: string, ttl: int, env: Env): Task {
    var t1 := Store.Extended(t, owner, ttl, env.Now());
    if MayWrite(t1, owner, env.Now()) then Advance(def, t1, env) else Store.WithStatus(t1, "failed", env.Now())
  }

  /** One round of the inner loop: extend the lease, step, look whether to go on. An engine without the lease fails the
      task instead of taking the step; the task is parked only if an executor defers. */
  method Round(e: Engine, id: string, ttl: int, ghost r: Ranking, env: Env) returns (on: bool)
    requires Runnable(e.db.tasks, e.db.flows, id, r)
    modifies e.db`tasks, e.db`runs
    ensures id in e.db.tasks && e.db.tasks - {id} == old(e.db.tasks) - {id}
    ensures var t := old(e.db.tasks)[id];
      e.db.tasks[id] == RoundRow(e.db.flows[t.flowId], t, e.owner, ttl, env)
    ensures on ==> Runnable(e.db.tasks, e.db.flows, id, r)
    ensures on ==>
      Less(TaskMeasure(e.db.tasks, e.db.flows, id, r), TaskMeasure(old(e.db.tasks), e.db.flows, id, r))
    ensures !on ==> Stopped(e.db.tasks[id].status)
    ensures !on && Prompt(env) ==> e.db.tasks[id].status in ["completed", "failed"]
  {
    ghost var def, t := e.db.flows[e.db.tasks[id].flowId], e.db.tasks[id];
    e.db.ExtendLease(id, e.owner, ttl, env.Now());
    ghost var t1 := e.db.tasks[id];
    RoundStep(def, t, t1, env, r);
    var res := RunOnce(e, id, env);
    if res != Done {
      e.db.UpdateTaskStatus(id, "failed", env.Now());
      return false;
    }
    var t2 := e.db.tasks[id];
    on := !(t2.status == "completed" || t2.status == "failed" || t2.status == "waiting_queue" || t2.cursor == "");
  }

  /** The engine needs no lease, or has it and extends it into the future. */
  predicate MayGoOn(owner: string, t: Task, ttl: int) {
    owner == "" || (t.leaseOwner == owner && ttl > 0)
  }

  /** The row is that of the run after n steps, as long as the engine may go on. */
  predicate Follows(def: Flow, t: Task, envs: nat -> Env, n: nat, row: Task, owner: string, ttl: int) {
    && row.flowId == t.flowId && row.leaseOwner == t.leaseOwner
    && (MayGoOn(owner, t, ttl) ==> LeaseBlind.SameBut(Steps(def, t, envs, n), row))
  }

  lemma RoundFollows(def: Flow, t: Task, envs: nat -> Env, n: nat, n': nat, row: Task, owner: string, ttl: int)
    requires n' == n + 1 && Follows(def, t, envs, n, row, owner, ttl)
    ensures Follows(def, t, envs, n', RoundRow(def, row, owner, ttl, envs(n)), owner, ttl)
  {
    StepsUnfold(def, t, envs, n);
    var row1 := Store.Extended(row, owner, ttl, envs(n).Now());
    if MayGoOn(owner, t, ttl) {
      LeaseBlind.StepIsBlind(def, Steps(def, t, envs, n), row1, envs(n));
    }
  }

  /** Advances one task until it is completed, failed or, if executors defer, parked; no other row changes. The n steps
      are those of the run of the flow from its row, unless the engine is not the owner of the lease. */
  method RunTask(e: Engine, id: string, ttl: int, ghost r: Ranking, envs: nat -> Env) returns (n: nat)
    requires Runnable(e.db.tasks, e.db.flows, id, r)
    modifies e.db`tasks, e.db`runs
    ensures id in e.db.tasks && Stopped(e.db.tasks[id].status)
    ensures (forall k: nat :: Prompt(envs(k))) ==> e.db.tasks[id].status in ["completed", "failed"]
    ensures e.db.tasks - {id} == old(e.db.tasks) - {id}
    ensures var t := old(e.db.tasks)[id];
      Follows(e.db.flows[t.flowId], t, envs, n, e.db.tasks[id], e.owner, ttl)
  {
    ghost var t := e.db.tasks[id];
    ghost var def := e.db.flows[t.flowId];
    n := 0;
    var on := true;
    while on
      invariant id in e.db.tasks && e.db.tasks - {id} == old(e.db.tasks) - {id}
      invariant on ==> Runnable(e.db.tasks, e.db.flows, id, r)
      invariant Follows(def, t, envs, n, e.db.tasks[id], e.owner, ttl)
      invariant !on ==> Stopped(e.db.tasks[id].status)
      invariant !on && (forall k: nat :: Prompt(envs(k))) ==> e.db.tasks[id].status in ["completed", "failed"]
      decreases on,
        if on then TaskMeasure(e.db.tasks, e.db.flows, id, r).node else 0,
        if on then TaskMeasure(e.db.tasks, e.db.flows, id, r).retries else 0,
        if on then TaskMeasure(e.db.tasks, e.db.flows, id, r).inner else 0
    {
      ghost var row := e.db.tasks[id];
      on := Round(e, id, ttl, r, envs(n));
      RoundFollows(def, t, envs, n, n + 1, row, e.owner, ttl);
      n := n + 1;
    }
  }

  /** A parallel node without services never ends: every step stays on the node and changes nothing but the count. */
  lemma NoServicesNeverEnds(def: Flow, t: Task, envs: nat -> Env, n: nat)
    requires InputOf(def, t).node.kind == "parallel" && t.status != "canceling"
    requires Parallel.Services(InputOf(def, t).node, InputOf(def, t).params) == []
    ensures Idles(t, Steps(def, t, envs, n), n)
  {
    var at := (r: Task, i: nat) => Idles(t, r, i);
    forall r, i: nat | at(r, i) && i < n ensures at(Advance(def, r, envs(i)), i + 1) {
      NoServicesStep(def, t, r, i, envs(i));
    }
    ClimbSteps(def, envs, at, t, n);
  }

  predicate Idles(t: Task, r: Task, n: nat) {
    && r.cursor == t.cursor && r.shared == t.shared && r.params == t.params && r.steps == t.steps + n
    && r.status == if n == 0 then t.status else "running"
  }

  lemma NoServicesStep(def: Flow, t: Task, r: Task, n: nat, env: Env)
    requires InputOf(def, t).node.kind == "parallel" && t.status != "canceling"
    requires Parallel.Services(InputOf(def, t).node, InputOf(def, t).params) == [] && Idles(t, r, n)
    ensures Idles(t, Advance(def, r, env), n + 1)
  {
    var j := InputOf(def, r);
    assert NodeStep(j, env) == Some(KeepRunning(j, r.shared));
  }

  lemma LeaseIsNotRead(def: Flow, t: Task, t1: Task, r: Ranking)
    requires t1 == t.(leaseExpiry := t1.leaseExpiry) && Going(def, t, r)
    ensures Going(def, t1, r) && MeasureOf(InputOf(def, t1), r) == MeasureOf(InputOf(def, t), r)
  {
    if NodeAt(def, t.cursor).kind == "foreach" {
      assert InputOf(def, t1).input == InputOf(def, t).input;
    }
    MeasureIgnoresInput(InputOf(def, t1), InputOf(def, t), r);
  }
}
