/** What every run of one task keeps: the runtime record of the current node only, and agreement of
    cursor and status, over engine steps, leases, queue wake-ups, signals and cancellations. */
module Invariants {
  import opened Json
  import opened Util
  import opened Types
  import opened Store
  import opened Core
  import opened Step
  import Executor
  import Fanout
  import Foreach
  import Parallel
  import Subflow
  import Waiting

  // ---- runs -------------------------------------------------------------------------

  predicate Finished(status: string) {
    status == "completed" || status == "failed" || status == "canceled"
  }

  predicate Steppable(t: Task) {
    t.status == "pending" || t.status == "running" || t.status == "canceling"
  }

  datatype Event =
    | Stepped(env: Env)
    | LeasedTo(owner: string, ttl: int, now: int)
    | Woken(now: int)
    | Signalled(key: string, value: Json, now: int)
    | CancelRequested(now: int)

  /** Steps are taken on pending, running and canceling rows, wake-ups come for parked rows and
      cancellations for unfinished ones; an event out of place changes nothing. */
  function Apply(def: Flow, t: Task, ev: Event): Task {
    match ev
    case Stepped(env) => if Steppable(t) then Advance(def, t, env) else t
    case LeasedTo(owner, ttl, now) => if Leasable(t, now) then Leased(t, owner, ttl, now) else t
    case Woken(now) => if t.status == "waiting_queue" then WithStatus(t, "pending", now) else t
    case Signalled(key, value, now) => WithProgress(t, t.cursor, "", t.shared[key := value], t.steps, now)
    case CancelRequested(now) => if Finished(t.status) then t else WithStatus(t, "canceling", now)
  }

  function Run(def: Flow, t: Task, evs: seq<Event>): Task
    decreases |evs|
  {
    if evs == [] then t else Run(def, Apply(def, t, evs[0]), evs[1..])
  }

  // ---- cursor and status ------------------------------------------------------------

  predicate Agree(t: Task) {
    t.cursor == "" <==> Finished(t.status)
  }

  /** One link of the cursor path: the cursor rests, follows the first matching edge, or is cleared by a cancel. */
  ghost predicate Link(def: Flow, t: Task, t': Task) {
    || t'.cursor == t.cursor
    || FirstEdge(def.edges, t.cursor, t'.lastAction, t'.cursor)
    || (t'.cursor == "" && t'.status == "canceled" && t.status == "canceling")
  }

  ghost predicate CursorPath(def: Flow, t: Task, evs: seq<Event>)
    decreases |evs|
  {
    evs != [] ==> Link(def, t, Apply(def, t, evs[0])) && CursorPath(def, Apply(def, t, evs[0]), evs[1..])
  }

  /** Every way a step ends: it stays on the node, follows an edge chosen by the action it stores, or parks. */
  predicate ProperEnd(j: NodeInput, w: Write) {
    match w.move
    case Stay => w.status == "running" && w.cursor == j.key && w.steps == j.task.steps + 1
    case Follow =>
      && w.cursor == FindNext(j.def.edges, j.key, w.action)
      && w.steps == j.task.steps + 1
      && w.status in (if w.cursor == "" then {"completed", "failed"} else {"running"})
    case Park =>
      && w.status == "waiting_queue" && w.cursor == j.task.cursor
      && w.action == j.task.lastAction && w.steps == j.task.steps
    case Cancel => false
  }

  lemma FinishIsProper(j: NodeInput, action: string, shared: Dict, failed: bool)
    ensures ProperEnd(j, FinishNode(j, action, shared, failed))
  {
  }

  lemma FanEndsAreProper(j: NodeInput, f: Fanout.Fan, entry: Dict, p: Fanout.Progress)
    ensures ProperEnd(j, Fanout.FinishFan(j, f, p))
    ensures ProperEnd(j, Fanout.SequentialEnd(j, f, entry, p))
    ensures ProperEnd(j, Fanout.ConcurrentEnd(j, f, entry, p))
  {
  }

  lemma FanStepEnds(j: NodeInput, f: Fanout.Fan, env: Env)
    requires Fanout.ValidFan(f) && Fanout.FanStep(j, f, env).Some?
    ensures ProperEnd(j, Fanout.FanStep(j, f, env).value)
  {
    var entry := Fanout.EntryOf(j.shared, f.key, Fanout.FreshEntry(j.node, f.extra));
    var p := Fanout.ReadProgress(entry).value;
    var rem := Fanout.Remaining(f.keys, p);
    if rem == [] {
      FanEndsAreProper(j, f, entry, p);
    } else {
      var sel := Fanout.Batch(j, entry, rem);
      assert forall i | 0 <= i < |sel| :: sel[i] == rem[i];
      FanEndsAreProper(j, f, entry, Fanout.ReceiveAll(p, Fanout.Arrivals(f, sel, env)));
    }
  }

  lemma SubflowEndIsProper(j: NodeInput, sub: Json, failed: bool)
    ensures ProperEnd(j, Subflow.EndSubflow(j, sub, failed))
  {
  }

  lemma SubflowStepEnds(j: NodeInput, env: Env)
    requires j.node.subflow.Some? && Subflow.SubflowStep(j, env).Some?
    ensures ProperEnd(j, Subflow.SubflowStep(j, env).value)
  {
    var flow := j.node.subflow.value;
    var sf := Fanout.EntryOf(j.shared, "sf:" + j.key, Subflow.FreshSub(flow));
    var curr, sub := AsStr(Get(sf, "curr")), Subflow.MapOrNull(Get(sf, "shared"));
    var out := env.exec(0, Subflow.SubCall(j, flow, curr, AsObj(sub)));
    FinishIsProper(j, j.node.post.actionStatic, j.shared, false);
    if out.Err? {
      SubflowEndIsProper(j, sub, j.node.failureStrategy != "continue");
    } else if out.Ok? && Subflow.SubOutputs(NodeAt(flow, curr).post, out.value, sub).Some? {
      SubflowEndIsProper(j, Subflow.SubOutputs(NodeAt(flow, curr).post, out.value, sub).value, false);
    }
  }

  lemma ExecutorStepEnds(j: NodeInput, env: Env)
    ensures ProperEnd(j, Executor.ExecutorStep(j, env))
  {
    var out := Executor.RetryLoop(env.exec, Executor.CallOf(j), j.node.maxRetries, 1).out;
    assert ProperEnd(j, Executor.EndOf(j, out));
  }

  lemma TimerStepEnds(j: NodeInput, env: Env)
    ensures ProperEnd(j, Waiting.TimerStep(j, env))
  {
  }

  lemma WaitEventStepEnds(j: NodeInput, env: Env)
    ensures ProperEnd(j, Waiting.WaitEventStep(j, env))
  {
    FinishIsProper(j, j.node.post.actionStatic, DropEntry(j.shared, RtOf(j.shared), "we:" + j.key),
      j.node.failureStrategy != "continue");
  }

  lemma ApprovalStepEnds(j: NodeInput)
    ensures ProperEnd(j, Waiting.ApprovalStep(j))
  {
  }

  lemma NodeStepEnds(j: NodeInput, env: Env)
    requires NodeStep(j, env).Some?
    ensures ProperEnd(j, NodeStep(j, env).value)
  {
    var kind := j.node.kind;
    if kind == "parallel" {
      if Parallel.Services(j.node, j.params) != [] { FanStepEnds(j, Parallel.FanOf(j), env); }
    } else if kind == "foreach" {
      if Foreach.Items(j.input) != [] { FanStepEnds(j, Foreach.FanOf(j), env); }
    } else if kind == "subflow" && j.node.subflow.Some? {
      SubflowStepEnds(j, env);
    } else if kind == "choice" {
      assert NodeStep(j, env).value.move == Follow;
    } else if kind == "timer" {
      TimerStepEnds(j, env);
    } else if kind == "wait_event" {
      WaitEventStepEnds(j, env);
    } else if kind == "approval" {
      ApprovalStepEnds(j);
    } else {
      ExecutorStepEnds(j, env);
    }
  }

  lemma StepAgrees(def: Flow, t: Task, env: Env)
    requires Agree(t) && Steppable(t)
    ensures Agree(Advance(def, t, env)) && Link(def, t, Advance(def, t, env))
  {
    if t.status != "canceling" && NodeStep(InputOf(def, t), env).Some? {
      var j := InputOf(def, t);
      NodeStepEnds(j, env);
      FindNextIsFirstEdge(def.edges, t.cursor, NodeStep(j, env).value.action);
    }
  }

  lemma AgreeStep(def: Flow, t: Task, ev: Event)
    requires Agree(t)
    ensures Agree(Apply(def, t, ev))
    ensures Link(def, t, Apply(def, t, ev))
  {
    if ev.Stepped? && Steppable(t) {
      StepAgrees(def, t, ev.env);
    }
  }

  /** Over every run the cursor moves only along first matching edges, and it is empty exactly when the
      task is completed, failed or canceled. */
  lemma {:induction false} CursorStatusAgreement(def: Flow, t: Task, evs: seq<Event>)
    requires Agree(t)
    ensures Agree(Run(def, t, evs)) && CursorPath(def, t, evs)
    decreases |evs|
  {
    if evs != [] {
      AgreeStep(def, t, evs[0]);
      CursorStatusAgreement(def, Apply(def, t, evs[0]), evs[1..]);
    }
  }

  // ---- runtime records --------------------------------------------------------------

  /** The key a node keeps its record under; executor and choice nodes keep none. */
  function RecordKey(node: Node, key: string): Option<string> {
    if node.kind == "parallel" then Some("pl:" + key)
    else if node.kind == "subflow" && node.subflow.Some? then Some("sf:" + key)
    else if node.kind == "timer" then Some("tm:" + key)
    else if node.kind == "foreach" then Some("fe:" + key)
    else if node.kind == "wait_event" then Some("we:" + key)
    else if node.kind == "approval" then Some("ap:" + key)
    else None
  }

  predicate IsFan(node: Node) {
    node.kind == "parallel" || node.kind == "foreach"
  }

  /** The record has the shape its node asserts, so reading it can not panic. */
  predicate WellFormed(node: Node, entry: Dict) {
    && (IsFan(node) ==> Fanout.ReadProgress(entry).Some? && Get(entry, "mode").Str?)
    && (node.kind == "subflow" ==> Get(entry, "shared").Obj? && AsStr(Get(entry, "curr")) != "")
  }

  /** shared holds no record, or just the well-formed one of this node. */
  predicate RecordOnly(node: Node, key: string, shared: Dict) {
    "_rt" in shared ==>
      var k := RecordKey(node, key);
      && k.Some?
      && shared["_rt"].Obj? && shared["_rt"].m.Keys == {k.value}
      && shared["_rt"].m[k.value].Obj? && WellFormed(node, shared["_rt"].m[k.value].m)
  }

  /** A row has at most the record of its current node, and none once it is completed or failed. A canceled
      row keeps what it had. */
  predicate Clean(def: Flow, t: Task) {
    || t.status == "canceled"
    || (RecordOnly(NodeAt(def, t.cursor), t.cursor, t.shared) && (Finished(t.status) ==> "_rt" !in t.shared))
  }

  predicate KeepsOutRt(post: Post) {
    post.outputKey != "_rt" && (post.outputMap.Some? ==> "_rt" !in post.outputMap.value)
  }

  predicate NoRtOutputs(def: Flow) {
    forall k | k in def.nodes :: KeepsOutRt(def.nodes[k].post)
  }

  predicate FailsFast(j: NodeInput, f: Fanout.Fan, env: Env)
    requires Fanout.ValidFan(f)
  {
    var entry := Fanout.EntryOf(j.shared, f.key, Fanout.FreshEntry(j.node, f.extra));
    match Fanout.ReadProgress(entry)
    case None => false
    case Some(p) =>
      var rem := Fanout.Remaining(f.keys, p);
      var p' := Fanout.ReceiveAll(p, Fanout.Arrivals(f, Fanout.Batch(j, entry, rem), env));
      && rem != [] && Get(entry, "mode") == Str("concurrent") && j.node.failureStrategy == "fail_fast"
      && p'.hadErr && !p'.pending
  }

  /** The steps that leave a record behind: a concurrent fail-fast exit, and a foreach whose list turned
      empty while it had progress. */
  predicate LeavesRecord(j: NodeInput, env: Env) {
    || (j.node.kind == "foreach" && Foreach.Items(j.input) == [] && "_rt" in j.shared)
    || (j.node.kind == "foreach" && Foreach.Items(j.input) != [] && FailsFast(j, Foreach.FanOf(j), env))
    || (j.node.kind == "parallel" && Parallel.Services(j.node, j.params) != [] && FailsFast(j, Parallel.FanOf(j), env))
  }

  /** What a step does to the record: leaving the node drops it except on the two exits above, staying keeps
      it alone and well-formed. */
  predicate RecordKept(j: NodeInput, w: Write, leaves: bool) {
    if w.move == Follow then "_rt" in w.shared <==> leaves else RecordOnly(j.node, j.key, w.shared)
  }

  lemma DropsRecord(j: NodeInput, key: string, v: Json)
    requires RecordOnly(j.node, j.key, j.shared) && RecordKey(j.node, j.key) == Some(key)
    requires KeepsOutRt(j.node.post)
    ensures "_rt" !in DropEntry(SetOutput(j.shared, j.node.post.outputKey, v), RtOf(j.shared), key)
    ensures "_rt" !in DropEntry(j.shared, RtOf(j.shared), key)
  {
    assert RtOf(j.shared) - {key} == map[];
  }

  lemma PutsRecord(j: NodeInput, key: string, entry: Dict)
    requires RecordOnly(j.node, j.key, j.shared) && RecordKey(j.node, j.key) == Some(key)
    requires WellFormed(j.node, entry)
    ensures RecordOnly(j.node, j.key, PutEntry(j.shared, key, entry))
  {
    assert PutEntry(j.shared, key, entry)["_rt"].m.Keys == {key};
  }

  lemma FanKeepsRecord(j: NodeInput, f: Fanout.Fan, env: Env)
    requires IsFan(j.node) && RecordKey(j.node, j.key) == Some(f.key) && Fanout.ValidFan(f)
    requires RecordOnly(j.node, j.key, j.shared) && KeepsOutRt(j.node.post)
    requires "done" !in f.extra && "errs" !in f.extra && "mode" !in f.extra
    ensures Fanout.FanStep(j, f, env).Some?
    ensures RecordKept(j, Fanout.FanStep(j, f, env).value, FailsFast(j, f, env))
  {
    var entry := Fanout.EntryOf(j.shared, f.key, Fanout.FreshEntry(j.node, f.extra));
    assert WellFormed(j.node, entry);
    var p := Fanout.ReadProgress(entry).value;
    var rem := Fanout.Remaining(f.keys, p);
    if rem == [] {
      DropsRecord(j, f.key, Arr(Fanout.Collect(f.keys, p.done)));
    } else {
      var p' := Fanout.ReceiveAll(p, Fanout.Arrivals(f, Fanout.Batch(j, entry, rem), env));
      PutsRecord(j, f.key, Fanout.WriteProgress(entry, p'));
    }
  }

  lemma SubflowKeepsRecord(j: NodeInput, env: Env)
    requires j.node.kind == "subflow" && j.node.subflow.Some?
    requires RecordOnly(j.node, j.key, j.shared) && KeepsOutRt(j.node.post)
    ensures Subflow.SubflowStep(j, env).Some?
    ensures RecordKept(j, Subflow.SubflowStep(j, env).value, false)
  {
    var flow := j.node.subflow.value;
    var key := "sf:" + j.key;
    var sf := Fanout.EntryOf(j.shared, key, Subflow.FreshSub(flow));
    var curr, sub := AsStr(Get(sf, "curr")), Subflow.MapOrNull(Get(sf, "shared"));
    if "_rt" in j.shared || curr != "" {
      assert WellFormed(j.node, sf);
      PutsRecord(j, key, sf);
      PutsRecord(j, key, Subflow.CountRetry(j.node, sf, env.nowMs));
      DropsRecord(j, key, sub);
      var out := env.exec(0, Subflow.SubCall(j, flow, curr, AsObj(sub)));
      if out.Ok? {
        var post := NodeAt(flow, curr).post;
        var sub' := Subflow.SubOutputs(post, out.value, sub).value;
        var next := FindNext(flow.edges, curr, Executor.ActionOf(post, out.value));
        DropsRecord(j, key, sub');
        if next != "" {
          PutsRecord(j, key, sf["curr" := Str(next)]["shared" := sub']);
        }
      }
    }
  }

  lemma ExecutorKeepsRecord(j: NodeInput, env: Env)
    requires "_rt" !in j.shared && KeepsOutRt(j.node.post)
    ensures "_rt" !in Executor.ExecutorStep(j, env).shared
  {
    var out := Executor.RetryLoop(env.exec, Executor.CallOf(j), j.node.maxRetries, 1).out;
    assert "_rt" !in Executor.EndOf(j, out).shared;
  }

  lemma WaitingKeepsRecord(j: NodeInput, env: Env)
    requires RecordOnly(j.node, j.key, j.shared) && KeepsOutRt(j.node.post)
    ensures j.node.kind == "timer" ==> RecordKept(j, Waiting.TimerStep(j, env), false)
    ensures j.node.kind == "wait_event" ==> RecordKept(j, Waiting.WaitEventStep(j, env), false)
    ensures j.node.kind == "approval" ==> RecordKept(j, Waiting.ApprovalStep(j), false)
  {
    if j.node.kind == "timer" {
      DropsRecord(j, "tm:" + j.key, j.input);
      PutsRecord(j, "tm:" + j.key, Waiting.StartEntry(env.nowMs));
    } else if j.node.kind == "wait_event" {
      var key := "we:" + j.key;
      var we := if Get(RtOf(j.shared), key).Obj? then RtOf(j.shared)[key].m else Waiting.StartEntry(env.nowMs);
      DropsRecord(j, key, Waiting.Signal(j));
      PutsRecord(j, key, we);
      PutsRecord(j, key, we["start" := Num(env.nowMs as real)]);
    } else if j.node.kind == "approval" {
      DropsRecord(j, "ap:" + j.key, Waiting.ApprovalValue(j));
      PutsRecord(j, "ap:" + j.key, AsObj(Get(RtOf(j.shared), "ap:" + j.key)));
    }
  }

  /** From a row with at most the record of its node, the step does not panic, and it leaves a record behind
      exactly when it takes one of the two exits. */
  lemma NodeKeepsRecord(j: NodeInput, env: Env)
    requires RecordOnly(j.node, j.key, j.shared) && KeepsOutRt(j.node.post)
    ensures NodeStep(j, env).Some?
    ensures RecordKept(j, NodeStep(j, env).value, LeavesRecord(j, env))
  {
    var kind := j.node.kind;
    if kind == "parallel" {
      if Parallel.Services(j.node, j.params) != [] { FanKeepsRecord(j, Parallel.FanOf(j), env); }
    } else if kind == "foreach" {
      if Foreach.Items(j.input) != [] { FanKeepsRecord(j, Foreach.FanOf(j), env); }
    } else if kind == "subflow" && j.node.subflow.Some? {
      SubflowKeepsRecord(j, env);
    } else if kind == "choice" {
      assert NodeStep(j, env).value.move == Follow;
    } else if kind == "timer" || kind == "wait_event" || kind == "approval" {
      WaitingKeepsRecord(j, env);
    } else {
      ExecutorKeepsRecord(j, env);
      ExecutorStepEnds(j, env);
    }
  }

  predicate EventLeaves(def: Flow, t: Task, ev: Event) {
    || (ev.Stepped? && t.status != "canceling" && LeavesRecord(InputOf(def, t), ev.env))
    || (ev.Signalled? && ev.key == "_rt")
  }

  ghost predicate NoneLeaves(def: Flow, t: Task, evs: seq<Event>)
    decreases |evs|
  {
    evs != [] ==> !EventLeaves(def, t, evs[0]) && NoneLeaves(def, Apply(def, t, evs[0]), evs[1..])
  }

  lemma CleanStep(def: Flow, t: Task, ev: Event)
    requires Agree(t) && Clean(def, t) && NoRtOutputs(def) && !EventLeaves(def, t, ev)
    ensures Clean(def, Apply(def, t, ev))
  {
    if ev.Stepped? && Steppable(t) && t.status != "canceling" {
      var j := InputOf(def, t);
      NodeKeepsRecord(j, ev.env);
      NodeStepEnds(j, ev.env);
    } else if ev.Signalled? {
      assert "_rt" in Apply(def, t, ev).shared <==> "_rt" in t.shared;
    }
  }

  /** Over every run in which no step takes one of the two exits and no signal writes "_rt", cycles allowed,
      only the current node has a record, no step ever panics, and finished tasks have none. */
  lemma {:induction false} NoLeakedRecords(def: Flow, t: Task, evs: seq<Event>)
    requires Agree(t) && Clean(def, t) && NoRtOutputs(def) && NoneLeaves(def, t, evs)
    ensures Clean(def, Run(def, t, evs))
    decreases |evs|
  {
    if evs != [] {
      AgreeStep(def, t, evs[0]);
      CleanStep(def, t, evs[0]);
      NoLeakedRecords(def, Apply(def, t, evs[0]), evs[1..]);
    }
  }

  /** A node that is entered along an edge starts from an empty record. */
  lemma RevisitStartsEmpty(def: Flow, t: Task, env: Env, init: Dict)
    requires Clean(def, t) && NoRtOutputs(def) && Steppable(t) && t.status != "canceling"
    requires !LeavesRecord(InputOf(def, t), env)
    ensures StepWrite(def, t, env).Some?
    ensures StepWrite(def, t, env).value.move == Follow ==>
      var t' := Advance(def, t, env);
      var key := RecordKey(NodeAt(def, t'.cursor), t'.cursor);
      key.Some? ==> Fanout.EntryOf(t'.shared, key.value, init) == init
  {
    NodeKeepsRecord(InputOf(def, t), env);
  }

  /** A one-branch fail-fast node whose branch fails: it follows its edge and its record stays. */
  lemma OneBranchFails(j: NodeInput, f: Fanout.Fan, env: Env) returns (entry: Dict)
    requires Fanout.ValidFan(f) && f.keys == ["s"] && f.extra == map[] && "_rt" !in j.shared
    requires j.node.parallelMode == "concurrent" && j.node.failureStrategy == "fail_fast"
    requires j.node.post == Post("", None, "", "")
    requires env.exec(0, f.calls[0]) == Err("down", false)
    ensures FailsFast(j, f, env)
    ensures entry == Fanout.FreshEntry(j.node, f.extra)["errs" := Obj(map["s" := Str("down")])]
    ensures Fanout.FanStep(j, f, env) == Some(FinishNode(j, "", PutEntry(j.shared, f.key, entry), true))
  {
    var blank := Fanout.FreshEntry(j.node, f.extra);
    var p := Fanout.Progress(map[], map[], false, false);
    assert Fanout.EntryOf(j.shared, f.key, blank) == blank && Fanout.ReadProgress(blank) == Some(p);
    Fanout.OneRemaining("s", p);
    assert Fanout.Batch(j, blank, [0]) == [0];
    Fanout.OneArrival(f, [0], env, p);
    var p' := Fanout.Progress(map[], map["s" := Str("down")], true, false);
    assert Fanout.ReceiveAll(p, Fanout.Arrivals(f, [0], env)) == p';
    entry := Fanout.WriteProgress(blank, p');
    OneFailureEnds(j, f, blank, p');
    OneFailureStep(j, f, env, blank, p, p');
  }

  lemma OneFailureStep(j: NodeInput, f: Fanout.Fan, env: Env, entry: Dict, p: Fanout.Progress, p': Fanout.Progress)
    requires Fanout.ValidFan(f) && f.keys == ["s"] && Get(entry, "mode") == Str("concurrent")
    requires Fanout.EntryOf(j.shared, f.key, Fanout.FreshEntry(j.node, f.extra)) == entry
    requires Fanout.ReadProgress(entry) == Some(p) && Fanout.Remaining(f.keys, p) == [0]
    requires Fanout.Batch(j, entry, [0]) == [0] && Fanout.ReceiveAll(p, Fanout.Arrivals(f, [0], env)) == p'
    requires j.node.failureStrategy == "fail_fast" && p'.hadErr && !p'.pending
    ensures FailsFast(j, f, env) && Fanout.FanStep(j, f, env) == Some(Fanout.ConcurrentEnd(j, f, entry, p'))
  {
  }

  lemma OneFailureEnds(j: NodeInput, f: Fanout.Fan, blank: Dict, p: Fanout.Progress)
    requires p == Fanout.Progress(map[], map["s" := Str("down")], true, false)
    requires j.node.failureStrategy == "fail_fast" && j.node.post == Post("", None, "", "")
    ensures Fanout.ConcurrentEnd(j, f, blank, p)
         == FinishNode(j, "", PutEntry(j.shared, f.key, Fanout.WriteProgress(blank, p)), true)
  {
  }

  /** A record in which every branch is settled ends the node at once: no branch is called. */
  lemma StaleRecord(j: NodeInput, f: Fanout.Fan, env: Env, entry: Dict)
    requires Fanout.ValidFan(f) && f.keys == ["s"] && f.extra == map[]
    requires j.shared == map["_rt" := Obj(map[f.key := Obj(entry)])]
    requires entry == Fanout.FreshEntry(j.node, f.extra)["errs" := Obj(map["s" := Str("down")])]
    requires j.node.failureStrategy == "fail_fast" && j.node.post == Post("", None, "", "")
    ensures Fanout.FanStep(j, f, env) == Some(FinishNode(j, "", map[], true))
  {
    var p := Fanout.ReadProgress(entry).value;
    Fanout.OneRemaining("s", p);
    assert RtOf(j.shared) - {f.key} == map[];
    assert j.shared - {"_rt"} == map[];
  }

  const FAIL_FAST_NODE := ZERO_NODE.(kind := "parallel", parallelServices := ["s"],
    parallelMode := "concurrent", failureStrategy := "fail_fast")
  const FAIL_FAST_LOOP := Flow("p", map["p" := FAIL_FAST_NODE], [Edge("p", "default", "p")])

  lemma FailFastInput(t: Task, env: Env) returns (j: NodeInput, f: Fanout.Fan)
    requires t.cursor == "p" && t.status == "running"
    ensures j == InputOf(FAIL_FAST_LOOP, t) && j.node == FAIL_FAST_NODE && j.shared == t.shared && j.task == t
    ensures Fanout.ValidFan(f) && f == Parallel.FanOf(j) && f.keys == ["s"] && f.extra == map[] && f.key == "pl:p"
    ensures f.calls[0] == Parallel.BranchCall(j, "s")
    ensures StepWrite(FAIL_FAST_LOOP, t, env) == Fanout.FanStep(j, f, env)
    ensures forall shared, failed ::
      FinishNode(j, "", shared, failed) == Write(Follow, "running", "p", "", shared, t.steps + 1)
  {
    j := InputOf(FAIL_FAST_LOOP, t);
    f := Parallel.FanOf(j);
    assert Parallel.Services(j.node, j.params) == ["s"];
  }

  /** The fail-fast exit does leave its record: a one-branch parallel node with an edge to itself fails once,
      and its second visit calls nothing and reports the old error again, whatever the branch would do now. */
  lemma FailFastRevisit(t: Task, env: Env, later: Env)
    requires t.cursor == "p" && t.status == "running" && t.shared == map[]
    requires env.exec(0, Parallel.BranchCall(InputOf(FAIL_FAST_LOOP, t), "s")) == Err("down", false)
    ensures LeavesRecord(InputOf(FAIL_FAST_LOOP, t), env)
    ensures Advance(FAIL_FAST_LOOP, t, env).cursor == "p" && "_rt" in Advance(FAIL_FAST_LOOP, t, env).shared
    ensures StepWrite(FAIL_FAST_LOOP, Advance(FAIL_FAST_LOOP, t, env), later)
         == Some(Write(Follow, "running", "p", "", map[], t.steps + 2))
  {
    var j, f := FailFastInput(t, env);
    var entry := OneBranchFails(j, f, env);
    var j', f' := FailFastInput(Advance(FAIL_FAST_LOOP, t, env), later);
    StaleRecord(j', f', later, entry);
  }

  // ---- a list that turns empty ------------------------------------------------------

  const LIST_NODE := ZERO_NODE.(kind := "foreach", prep := Prep("items", None), post := Post("out", None, "", ""))
  const LIST_LOOP := Flow("f", map["f" := LIST_NODE], [Edge("f", "default", "f")])

  lemma ListInput(t: Task, xs: seq<Json>, env: Env) returns (j: NodeInput)
    requires t.cursor == "f" && t.status == "running" && Get(t.shared, "items") == Arr(xs)
    ensures j == InputOf(LIST_LOOP, t) && j.node == LIST_NODE && j.shared == t.shared && j.task == t && j.key == "f"
    ensures j.input == Arr(xs) && StepWrite(LIST_LOOP, t, env) == Foreach.ForeachStep(j, env)
    ensures forall shared :: FinishNode(j, "", shared, false) == Write(Follow, "running", "f", "", shared, t.steps + 1)
  {
    j := InputOf(LIST_LOOP, t);
    assert Matches(LIST_LOOP.edges[0], "f", "");
    PlainPath(Obj(t.shared), "items");
  }

  /** The empty-list exit leaves its record, too: a foreach whose list turns empty in mid-visit follows its edge, and
      the progress stays behind. */
  lemma EmptyListExit(t: Task, env: Env)
    requires t.cursor == "f" && t.status == "running" && Get(t.shared, "items") == Arr([]) && "_rt" in t.shared
    ensures LeavesRecord(InputOf(LIST_LOOP, t), env)
    ensures StepWrite(LIST_LOOP, t, env) == Some(Write(Follow, "running", "f", "", t.shared, t.steps + 1))
  {
    var j := ListInput(t, [], env);
  }

  /** The record after the first of two items. */
  function OneDone(v: Json): Dict {
    Fanout.FreshEntry(LIST_NODE, map["idx" := Num(0.0)])["done" := Obj(map["0" := v])]
  }

  lemma TwoOpen(p: Fanout.Progress)
    requires p.done == map[] && p.errs == map[]
    ensures Fanout.Remaining(["0", "1"], p) == [0, 1]
  {
    Fanout.OneRemaining("0", p);
    assert ["0", "1"][..1] == ["0"];
  }

  lemma FirstOfTwo(j: NodeInput, f: Fanout.Fan, v: Json, env: Env)
    requires Fanout.ValidFan(f) && f.keys == ["0", "1"] && f.extra == map["idx" := Num(0.0)] && j.node == LIST_NODE
    requires "_rt" !in j.shared && env.exec(0, f.calls[0]) == Ok(v)
    ensures Fanout.FanStep(j, f, env) == Some(KeepRunning(j, PutEntry(j.shared, f.key, OneDone(v))))
  {
    var p, p' := Fanout.Progress(map[], map[], false, false), Fanout.Progress(map["0" := v], map[], false, false);
    var blank := Fanout.FreshEntry(j.node, f.extra);
    TwoOpen(p);
    assert Fanout.EntryOf(j.shared, f.key, blank) == blank && Fanout.ReadProgress(blank) == Some(p);
    assert Fanout.Batch(j, blank, [0, 1]) == [0];
    Fanout.OneArrival(f, [0], env, p);
    assert Fanout.ReceiveAll(p, Fanout.Arrivals(f, [0], env)) == p';
    assert Fanout.WriteProgress(blank, p') == OneDone(v);
  }

  lemma FirstItem(j: NodeInput, x: Json, y: Json, v: Json, env: Env)
    requires j.node == LIST_NODE && j.input == Arr([x, y]) && "_rt" !in j.shared
    requires env.exec(0, Foreach.ItemCall(j, 0, x)) == Ok(v)
    ensures Foreach.ForeachStep(j, env) == Some(KeepRunning(j, PutEntry(j.shared, "fe:" + j.key, OneDone(v))))
  {
    var f := Foreach.FanOf(j);
    assert f.keys == ["0", "1"];
    FirstOfTwo(j, f, v, env);
  }

  lemma StaleItem(j: NodeInput, z: Json, v: Json, env: Env)
    requires j.node == LIST_NODE && j.input == Arr([z]) && Get(RtOf(j.shared), "fe:" + j.key) == Obj(OneDone(v))
    requires RtOf(j.shared).Keys == {"fe:" + j.key}
    ensures Foreach.ForeachStep(j, env) == Some(FinishNode(j, "", j.shared["out" := Arr([v])] - {"_rt"}, false))
  {
    var f := Foreach.FanOf(j);
    assert f.keys == ["0"];
    var p := Fanout.Progress(map["0" := v], map[], false, false);
    assert Fanout.EntryOf(j.shared, f.key, Fanout.FreshEntry(j.node, f.extra)) == OneDone(v);
    assert Fanout.ReadProgress(OneDone(v)) == Some(p);
    Fanout.OneRemaining("0", p);
    assert Fanout.Collect(f.keys, p.done) == [v];
    assert RtOf(j.shared) - {f.key} == map[];
    Fanout.FanActionIsStatic(j.node.post, [v]);
  }

  /** A running row at the foreach with this list, and the record of its first item. */
  predicate WithRecord(t: Task, xs: seq<Json>, v: Json) {
    && t.cursor == "f" && t.status == "running"
    && t.shared == map["items" := Arr(xs), "_rt" := Obj(map["fe:f" := Obj(OneDone(v))])]
  }

  lemma ListAdvances(t: Task, xs: seq<Json>, env: Env, j: NodeInput, w: Write)
    requires t.cursor == "f" && t.status == "running" && Get(t.shared, "items") == Arr(xs)
    requires j == InputOf(LIST_LOOP, t) && Foreach.ForeachStep(j, env) == Some(w)
    ensures var t' := Advance(LIST_LOOP, t, env);
      t'.cursor == w.cursor && t'.status == w.status && t'.shared == w.shared
  {
    var _ := ListInput(t, xs, env);
  }

  lemma RecordPut(shared: Dict, xs: seq<Json>, v: Json)
    requires shared == map["items" := Arr(xs)]
    ensures PutEntry(shared, "fe:f", OneDone(v))
         == map["items" := Arr(xs), "_rt" := Obj(map["fe:f" := Obj(OneDone(v))])]
  {
    assert RtOf(shared) == map[];
  }

  lemma FirstListStep(t: Task, x: Json, y: Json, v: Json, env: Env)
    requires t.cursor == "f" && t.status == "running" && t.shared == map["items" := Arr([x, y])]
    requires env.exec(0, Foreach.ItemCall(InputOf(LIST_LOOP, t), 0, x)) == Ok(v)
    ensures WithRecord(Advance(LIST_LOOP, t, env), [x, y], v)
  {
    var j := ListInput(t, [x, y], env);
    assert "fe:" + j.key == "fe:f";
    FirstItem(j, x, y, v, env);
    RecordPut(t.shared, [x, y], v);
    ListAdvances(t, [x, y], env, j, KeepRunning(j, PutEntry(t.shared, "fe:f", OneDone(v))));
  }

  lemma ListReplaced(t: Task, xs: seq<Json>, ys: seq<Json>, v: Json, now: int)
    requires WithRecord(t, xs, v)
    ensures WithRecord(Apply(LIST_LOOP, t, Signalled("items", Arr(ys), now)), ys, v)
  {
    assert t.shared["items" := Arr(ys)] == map["items" := Arr(ys), "_rt" := Obj(map["fe:f" := Obj(OneDone(v))])];
  }

  lemma EmptyListStep(t: Task, v: Json, env: Env)
    requires WithRecord(t, [], v)
    ensures WithRecord(Advance(LIST_LOOP, t, env), [], v) && Advance(LIST_LOOP, t, env).steps == t.steps + 1
    ensures StepWrite(LIST_LOOP, t, env).Some? && StepWrite(LIST_LOOP, t, env).value.move == Follow
  {
    EmptyListExit(t, env);
  }

  lemma RecordDropped(shared: Dict, z: Json, v: Json)
    requires shared == map["items" := Arr([z]), "_rt" := Obj(map["fe:f" := Obj(OneDone(v))])]
    ensures RtOf(shared).Keys == {"fe:f"} && Get(RtOf(shared), "fe:f") == Obj(OneDone(v))
    ensures shared["out" := Arr([v])] - {"_rt"} == map["items" := Arr([z]), "out" := Arr([v])]
  {
  }

  lemma StaleListStep(t: Task, z: Json, v: Json, env: Env)
    requires WithRecord(t, [z], v)
    ensures var t' := Advance(LIST_LOOP, t, env);
      t'.cursor == "f" && t'.shared == map["items" := Arr([z]), "out" := Arr([v])]
  {
    var j := ListInput(t, [z], env);
    RecordDropped(t.shared, z, v);
    assert "fe:" + j.key == "fe:f";
    StaleItem(j, z, v, env);
    ListAdvances(t, [z], env, j, FinishNode(j, "", t.shared["out" := Arr([v])] - {"_rt"}, false));
  }

  /** A list of two items turns empty after the first was done, then the node is visited again with one new item: the
      record of the first visit is still there, so the new item is not called and the old result is delivered for it. */
  lemma EmptyListRevisit(t: Task, x: Json, y: Json, z: Json, v: Json, env: Env, env': Env, env'': Env, now: int)
    returns (left: Task, again: Task)
    requires t.cursor == "f" && t.status == "running" && t.shared == map["items" := Arr([x, y])]
    requires env.exec(0, Foreach.ItemCall(InputOf(LIST_LOOP, t), 0, x)) == Ok(v)
    ensures left == Advance(LIST_LOOP,
      Apply(LIST_LOOP, Advance(LIST_LOOP, t, env), Signalled("items", Arr([]), now)), env')
    ensures again == Advance(LIST_LOOP, Apply(LIST_LOOP, left, Signalled("items", Arr([z]), now)), env'')
    ensures WithRecord(left, [], v)
    ensures again.cursor == "f" && again.shared == map["items" := Arr([z]), "out" := Arr([v])]
  {
    FirstListStep(t, x, y, v, env);
    var t1 := Advance(LIST_LOOP, t, env);
    ListReplaced(t1, [x, y], [], v, now);
    var t2 := Apply(LIST_LOOP, t1, Signalled("items", Arr([]), now));
    EmptyListStep(t2, v, env');
    left := Advance(LIST_LOOP, t2, env');
    ListReplaced(left, [], [z], v, now);
    var t4 := Apply(LIST_LOOP, left, Signalled("items", Arr([z]), now));
    StaleListStep(t4, z, v, env'');
    again := Advance(LIST_LOOP, t4, env'');
  }
}
