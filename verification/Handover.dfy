/** Several engines that share a task amount to one: whatever the interleaving of their leases, steps and crashes, the
    progress stored for the task is a stuttering copy of the run of a single engine. */
module Handover {
  import opened Json
  import opened Types
  import opened Store
  import opened Core
  import opened Step
  import opened Runs
  import opened Lease
  import opened SameStep
  import opened Expr
  import Invariants

  /** What a progress update stores. */
  datatype Progress = Progress(cursor: string, action: string, shared: Dict, steps: int)

  function ProgressOf(t: Task): Progress {
    Progress(t.cursor, t.lastAction, t.shared, t.steps)
  }

  function Written(w: Write): Progress {
    Progress(w.cursor, w.action, w.shared, w.steps)
  }

  predicate Ended(status: string) {
    status == "completed" || status == "failed"
  }

  // ---- the single-engine run --------------------------------------------------------

  /** The run of one engine from row t, and its rows; the executors answer like those of all the other engines. */
  datatype Single = Single(
    def: Flow, t: Task, envs: nat -> Env, rows: nat -> Task, oracle: ExecIn -> Outcome, go: Runtime)
  {
    /** Step n of the run meets no clock-driven node. */
    ghost predicate Plain(n: nat) {
      rows(n).cursor != "" ==> ClockFree(InputOf(def, rows(n)))
    }

    ghost predicate IsRow(n: nat) {
      rows(n) == Steps(def, t, envs, n)
    }

    ghost predicate Valid() {
      && t.status != "canceling" && t.cursor != ""
      && (forall n: nat :: Answers(envs(n), oracle, go)) && (forall n: nat :: IsRow(n))
    }

    /** How many steps of the run row r has behind it. */
    function Place(r: Task): nat
      requires r.steps >= t.steps
    {
      r.steps - t.steps
    }

    /** The step from row r is plain. */
    ghost predicate PlainFrom(r: Task) {
      r.steps >= t.steps ==> Plain(Place(r))
    }

    /** A row whose progress is that of the run after the same number of steps. */
    ghost predicate At(r: Task) {
      && r.params == t.params && r.flowId == t.flowId && r.steps >= t.steps
      && ProgressOf(r) == ProgressOf(rows(Place(r)))
    }

    /** The row of the run after one step from r. */
    function After(r: Task): Task
      requires r.steps >= t.steps
    {
      rows(Place(r) + 1)
    }

    /** A row left by a step that parked: it has the progress of that step, which does not count as one. */
    ghost predicate ParkedAt(r: Task) {
      && r.params == t.params && r.flowId == t.flowId && r.steps >= t.steps
      && ProgressOf(r) == ProgressOf(After(r)) && (r.status == "waiting_queue" || r.status == "failed")
    }
  }

  lemma AdvanceKeeps(def: Flow, t: Task, env: Env)
    requires t.status != "canceling"
    ensures Advance(def, t, env).status != "canceling" && Advance(def, t, env).params == t.params
  {
    var j := InputOf(def, t);
    if NodeStep(j, env).Some? {
      Invariants.NodeStepEnds(j, env);
    }
  }

  lemma NextRow(run: Single, n: nat)
    requires run.Valid()
    ensures run.rows(n + 1) == Advance(run.def, run.rows(n), run.envs(n))
  {
    assert run.IsRow(n) && run.IsRow(n + 1);
    StepsUnfold(run.def, run.t, run.envs, n);
  }

  lemma {:induction false} RowKeeps(run: Single, n: nat)
    requires run.Valid()
    ensures run.rows(n).status != "canceling" && run.rows(n).params == run.t.params
  {
    if n == 0 {
      assert run.IsRow(0);
    } else {
      var m := n - 1;
      RowKeeps(run, m);
      NextRow(run, m);
      AdvanceKeeps(run.def, run.rows(m), run.envs(m));
    }
  }

  /** What is true of the write of any step from a row that is not over: only a parking one does not count. */
  predicate Proper(snap: Task, w: Write) {
    && w.steps == snap.steps + (if w.move == Park then 0 else 1) && w.status != "canceling"
    && (w.cursor == "" ==> Ended(w.status)) && (w.move == Park ==> w.status == "waiting_queue")
  }

  /** The write that takes the row snap of the run to the next one. */
  ghost predicate NextWrite(run: Single, snap: Task, w: Write) {
    Proper(snap, w) && snap.steps >= run.t.steps && Written(w) == ProgressOf(run.After(snap))
  }

  lemma ProperWrite(def: Flow, t: Task, env: Env, w: Write)
    requires StepWrite(def, t, env) == Some(w) && t.status != "canceling" && t.cursor != ""
    ensures Proper(t, w)
  {
    Invariants.NodeStepEnds(InputOf(def, t), env);
  }

  lemma SameStepWrite(run: Single, n: nat, snap: Task, env: Env)
    requires run.Valid() && run.Plain(n) && snap.status != "canceling" && Answers(env, run.oracle, run.go)
    requires snap.params == run.t.params && ProgressOf(snap) == ProgressOf(run.rows(n)) && snap.cursor != ""
    ensures StepWrite(run.def, snap, env) == StepWrite(run.def, run.rows(n), run.envs(n))
  {
    RowKeeps(run, n);
    StepSame(InputOf(run.def, run.rows(n)), InputOf(run.def, snap), run.oracle, run.go, run.envs(n), env);
  }

  lemma RowAfter(run: Single, n: nat, w: Write)
    requires run.Valid() && StepWrite(run.def, run.rows(n), run.envs(n)) == Some(w)
    ensures ProgressOf(run.rows(n + 1)) == Written(w)
  {
    NextRow(run, n);
  }

  lemma WriteAfter(run: Single, n: nat, snap: Task, env: Env, w: Write)
    requires run.Valid() && run.Plain(n) && snap.params == run.t.params && ProgressOf(snap) == ProgressOf(run.rows(n))
    requires snap.status != "canceling" && snap.cursor != "" && Answers(env, run.oracle, run.go)
    requires StepWrite(run.def, snap, env) == Some(w)
    ensures Written(w) == ProgressOf(run.rows(n + 1)) && Proper(snap, w)
  {
    SameStepWrite(run, n, snap, env);
    ProperWrite(run.def, snap, env, w);
    RowAfter(run, n, w);
  }

  /** What any engine writes from a row of the run is the next row of the run, parking steps included. */
  lemma WriteIsNext(run: Single, snap: Task, env: Env, w: Write)
    requires run.Valid() && run.At(snap) && run.PlainFrom(snap) && snap.status != "canceling" && snap.cursor != ""
    requires Answers(env, run.oracle, run.go) && StepWrite(run.def, snap, env) == Some(w)
    ensures NextWrite(run, snap, w)
  {
    WriteAfter(run, run.Place(snap), snap, env, w);
  }

  // ---- the invariant ----------------------------------------------------------------

  /** What an owner carries is on the run, and up to date as long as the owner has the lease. */
  ghost predicate Carries(run: Single, id: string, t: Task, now: int, o: string, l: Local) {
    match l
    case Holding(i) => i == id && t.leaseOwner == o ==> t.cursor != ""
    case Ready(i, snap) => i == id ==>
      && run.At(snap) && snap.status != "canceling" && snap.cursor != ""
      && (t.leaseOwner == o ==> ProgressOf(snap) == ProgressOf(t))
    case Half(i, snap, w) => i == id ==>
      && run.At(snap) && NextWrite(run, snap, w) && (t.leaseOwner == o ==> ProgressOf(snap) == ProgressOf(t))
      && (Owns(t, o, now) && w.cursor == "" ==> Ended(t.status))
      && (Owns(t, o, now) && w.move == Park ==> t.status == "waiting_queue" || t.status == "failed")
    case _ => true
  }

  ghost predicate RowOk(run: Single, t: Task) {
    run.At(t) && t.status != "canceling" && (t.cursor == "" ==> Ended(t.status))
  }

  ghost predicate Running(run: Single, c: Setting, s: Sys, id: string) {
    && id in s.tasks && FlowOf(c.flows, s.tasks[id]) == run.def
    && RowOk(run, s.tasks[id])
    && forall o :: Carries(run, id, s.tasks[id], s.now, o, s.Of(o))
  }

  predicate Engaged(l: Local, id: string) {
    Busy(l, id) || l == Holding(id)
  }

  /** The task is parked, and nobody who has its lease is at work on it. */
  ghost predicate Parked(run: Single, s: Sys, id: string) {
    && id in s.tasks && run.ParkedAt(s.tasks[id])
    && !Engaged(s.Of(s.tasks[id].leaseOwner), id)
  }

  ghost predicate Inv(run: Single, c: Setting, s: Sys, id: string) {
    Running(run, c, s, id) || Parked(run, s, id)
  }

  /** How an action of another owner may change a row. */
  predicate Elsewhere(t: Task, t': Task, now: int, now': int, o: string) {
    && (t'.leaseOwner == o ==> t.leaseOwner == o && ProgressOf(t') == ProgressOf(t))
    && (Owns(t', o, now') ==> Owns(t, o, now))
    && (Owns(t', o, now') ==> t'.status == t.status || t'.status == "failed")
  }

  lemma CarriesOn(run: Single, id: string, t: Task, t': Task, now: int, now': int, o: string, l: Local)
    requires Carries(run, id, t, now, o, l) && Elsewhere(t, t', now, now', o)
    ensures Carries(run, id, t', now', o, l)
  {
  }

  /** A step of the task is plain, and its executors answer as in the single run. */
  ghost predicate Agrees(run: Single, s: Sys, a: Action, id: string) {
    a.WriteStatus? && s.Of(a.o).Ready? && s.Of(a.o).id == id ==>
      Answers(a.env, run.oracle, run.go) && run.PlainFrom(s.Of(a.o).snap)
  }

  lemma OthersCarryOn(run: Single, c: Setting, s: Sys, a: Action, id: string, o: string)
    requires id in s.tasks && Carries(run, id, s.tasks[id], s.now, o, s.Of(o)) && Actor(a) != Some(o)
    ensures id in Do(c, s, a).tasks && Carries(run, id, Do(c, s, a).tasks[id], Do(c, s, a).now, o, Do(c, s, a).Of(o))
  {
    var s' := Do(c, s, a);
    assert s'.Of(o) == s.Of(o);
    CarriesOn(run, id, s.tasks[id], s'.tasks[id], s.now, s'.now, o, s.Of(o));
  }

  lemma StatusRow(run: Single, t: Task, status: string, now: int)
    requires RowOk(run, t) && status != "canceling" && (t.cursor == "" ==> Ended(status))
    ensures RowOk(run, WithStatus(t, status, now))
  {
  }

  lemma StatusOwner(run: Single, id: string, t: Task, now: int, o: string, snap: Task, w: Write)
    requires Carries(run, id, t, now, o, Ready(id, snap)) && NextWrite(run, snap, w)
    ensures var t' := if Owns(t, o, now) then WithStatus(t, w.status, now) else t;
      Carries(run, id, t', now, o, Half(id, snap, w))
  {
    assert run.At(snap);
  }

  /** The row and the owner after a status update of a write that is next on the run. */
  lemma StatusWritten(run: Single, id: string, t: Task, now: int, o: string, snap: Task, w: Write)
    requires RowOk(run, t) && Carries(run, id, t, now, o, Ready(id, snap)) && NextWrite(run, snap, w)
    ensures var t' := if Owns(t, o, now) then WithStatus(t, w.status, now) else t;
      RowOk(run, t') && Carries(run, id, t', now, o, Half(id, snap, w))
  {
    StatusOwner(run, id, t, now, o, snap, w);
    if Owns(t, o, now) {
      assert ProgressOf(snap) == ProgressOf(t);
      StatusRow(run, t, w.status, now);
    }
  }

  lemma ReadyWrites(run: Single, c: Setting, s: Sys, a: Action, id: string)
    requires run.Valid() && Running(run, c, s, id) && Agrees(run, s, a, id)
    requires a.WriteStatus? && s.Of(a.o).Ready? && s.Of(a.o).id == id && Enabled(c, s, a)
    ensures NextWrite(run, s.Of(a.o).snap, WriteOf(c, s.Of(a.o).snap, a.env).value)
  {
    assert Carries(run, id, s.tasks[id], s.now, a.o, s.Of(a.o));
    WriteIsNext(run, s.Of(a.o).snap, a.env, WriteOf(c, s.Of(a.o).snap, a.env).value);
  }

  lemma StatusStep(run: Single, c: Setting, s: Sys, a: Action, id: string)
    requires run.Valid() && Running(run, c, s, id) && Agrees(run, s, a, id)
    requires a.WriteStatus? && s.Of(a.o).Ready? && s.Of(a.o).id == id && Enabled(c, s, a)
    ensures Carries(run, id, Do(c, s, a).tasks[id], s.now, a.o, Do(c, s, a).Of(a.o))
    ensures RowOk(run, Do(c, s, a).tasks[id]) && ProgressOf(Do(c, s, a).tasks[id]) == ProgressOf(s.tasks[id])
  {
    var Ready(_, snap) := s.Of(a.o);
    ReadyWrites(run, c, s, a, id);
    assert Carries(run, id, s.tasks[id], s.now, a.o, s.Of(a.o));
    StatusWritten(run, id, s.tasks[id], s.now, a.o, snap, WriteOf(c, snap, a.env).value);
  }

  /** The progress stays, or becomes that of the next row of the run. */
  ghost predicate Moves(run: Single, t: Task, t': Task) {
    ProgressOf(t') == ProgressOf(t) || (run.At(t) && ProgressOf(t') == ProgressOf(run.After(t)))
  }

  lemma ParkingRow(run: Single, t: Task, w: Write, now: int)
    requires run.At(t) && w.steps == t.steps && Written(w) == ProgressOf(run.After(t))
    requires t.status == "waiting_queue" || t.status == "failed"
    ensures run.ParkedAt(WithProgress(t, w.cursor, w.action, w.shared, w.steps, now))
  {
  }

  lemma MovingRow(run: Single, t: Task, w: Write, now: int)
    requires RowOk(run, t) && w.steps == t.steps + 1 && Written(w) == ProgressOf(run.After(t))
    requires w.cursor == "" ==> Ended(t.status)
    ensures RowOk(run, WithProgress(t, w.cursor, w.action, w.shared, w.steps, now))
  {
    var t' := WithProgress(t, w.cursor, w.action, w.shared, w.steps, now);
    assert run.Place(t') == run.Place(t) + 1;
  }

  lemma ProgressWritten(run: Single, id: string, t: Task, now: int, o: string, snap: Task, w: Write)
    requires RowOk(run, t) && Carries(run, id, t, now, o, Half(id, snap, w)) && Owns(t, o, now)
    ensures var t' := WithProgress(t, w.cursor, w.action, w.shared, w.steps, now);
      Moves(run, t, t') && if w.move == Park then run.ParkedAt(t') else RowOk(run, t')
  {
    assert run.After(snap) == run.After(t);
    if w.move == Park {
      ParkingRow(run, t, w, now);
    } else {
      MovingRow(run, t, w, now);
    }
  }

  /** The owner has just parked the task. */
  ghost predicate JustParked(run: Single, s: Sys, id: string, o: string) {
    id in s.tasks && run.ParkedAt(s.tasks[id]) && s.tasks[id].leaseOwner == o && s.Of(o) == Looking(id)
  }

  ghost predicate GoesOn(run: Single, s: Sys, id: string, o: string) {
    id in s.tasks && RowOk(run, s.tasks[id]) && Carries(run, id, s.tasks[id], s.now, o, s.Of(o))
  }

  lemma ProgressStep(run: Single, c: Setting, s: Sys, a: Action, id: string)
    requires Running(run, c, s, id) && a.WriteProgress? && s.Of(a.o).Half? && s.Of(a.o).id == id
    ensures GoesOn(run, Do(c, s, a), id, a.o) || JustParked(run, Do(c, s, a), id, a.o)
    ensures Moves(run, s.tasks[id], Do(c, s, a).tasks[id])
  {
    var Half(_, snap, w) := s.Of(a.o);
    assert Carries(run, id, s.tasks[id], s.now, a.o, s.Of(a.o));
    if Owns(s.tasks[id], a.o, s.now) {
      ProgressWritten(run, id, s.tasks[id], s.now, a.o, snap, w);
    }
  }

  /** Apart from the writes of a step, actions change the status of a row only, to running or failed. */
  lemma OtherRow(c: Setting, s: Sys, a: Action, id: string)
    requires id in s.tasks
    requires a.WriteProgress? || a.WriteStatus? ==> !(Enabled(c, s, a) && s.Of(a.o).id == id)
    ensures id in Do(c, s, a).tasks
    ensures var t, t' := s.tasks[id], Do(c, s, a).tasks[id];
      && ProgressOf(t') == ProgressOf(t) && t'.params == t.params && t'.flowId == t.flowId
      && (t'.status == t.status || t'.status == "failed" || (t'.status == "running" && Leasable(t, s.now)))
  {
  }

  lemma SameRow(run: Single, t: Task, t': Task, now: int)
    requires RowOk(run, t) && ProgressOf(t') == ProgressOf(t) && t'.params == t.params && t'.flowId == t.flowId
    requires t'.status == t.status || t'.status == "failed" || (t'.status == "running" && Leasable(t, now))
    ensures RowOk(run, t')
  {
  }

  lemma OtherOwner(run: Single, c: Setting, s: Sys, a: Action, id: string, o: string)
    requires Running(run, c, s, id) && Actor(a) == Some(o) && id in Do(c, s, a).tasks
    requires a.WriteProgress? || a.WriteStatus? ==> !(Enabled(c, s, a) && s.Of(o).id == id)
    ensures Carries(run, id, Do(c, s, a).tasks[id], s.now, o, Do(c, s, a).Of(o))
  {
    assert Carries(run, id, s.tasks[id], s.now, o, s.Of(o));
  }

  lemma OtherStep(run: Single, c: Setting, s: Sys, a: Action, id: string, o: string)
    requires Running(run, c, s, id) && Actor(a) == Some(o)
    requires a.WriteProgress? || a.WriteStatus? ==> !(Enabled(c, s, a) && s.Of(o).id == id)
    ensures GoesOn(run, Do(c, s, a), id, o) && ProgressOf(Do(c, s, a).tasks[id]) == ProgressOf(s.tasks[id])
  {
    OtherRow(c, s, a, id);
    SameRow(run, s.tasks[id], Do(c, s, a).tasks[id], s.now);
    OtherOwner(run, c, s, a, id, o);
  }

  lemma ActorStep(run: Single, c: Setting, s: Sys, a: Action, id: string, o: string)
    requires run.Valid() && Running(run, c, s, id) && Actor(a) == Some(o) && Agrees(run, s, a, id)
    ensures GoesOn(run, Do(c, s, a), id, o) || JustParked(run, Do(c, s, a), id, o)
    ensures Moves(run, s.tasks[id], Do(c, s, a).tasks[id])
  {
    if a.WriteProgress? && Enabled(c, s, a) && s.Of(o).id == id {
      ProgressStep(run, c, s, a, id);
    } else if a.WriteStatus? && Enabled(c, s, a) && s.Of(o).id == id {
      StatusStep(run, c, s, a, id);
    } else {
      OtherStep(run, c, s, a, id, o);
    }
  }

  lemma RunningStep(run: Single, c: Setting, s: Sys, a: Action, id: string)
    requires run.Valid() && Running(run, c, s, id) && Agrees(run, s, a, id)
    ensures Inv(run, c, Do(c, s, a), id) && Moves(run, s.tasks[id], Do(c, s, a).tasks[id])
  {
    var s' := Do(c, s, a);
    if Actor(a).Some? {
      ActorStep(run, c, s, a, id, Actor(a).value);
    }
    if Actor(a).None? || !JustParked(run, s', id, Actor(a).value) {
      forall o ensures Carries(run, id, s'.tasks[id], s'.now, o, s'.Of(o)) {
        assert Carries(run, id, s.tasks[id], s.now, o, s.Of(o));
        if Actor(a) != Some(o) {
          OthersCarryOn(run, c, s, a, id, o);
        }
      }
    }
  }

  predicate AtRest(s: Sys, id: string) {
    && id in s.tasks && (s.tasks[id].status == "waiting_queue" || s.tasks[id].status == "failed")
    && !Engaged(s.Of(s.tasks[id].leaseOwner), id)
  }

  /** A task at rest is not leased, so it keeps its progress. */
  lemma RestStep(c: Setting, s: Sys, a: Action, id: string)
    requires AtRest(s, id)
    ensures AtRest(Do(c, s, a), id)
    ensures var t, t' := s.tasks[id], Do(c, s, a).tasks[id];
      ProgressOf(t') == ProgressOf(t) && t'.params == t.params && t'.flowId == t.flowId
  {
    OwnerChanges(c, s, a, id);
  }

  lemma ParkedStep(run: Single, c: Setting, s: Sys, a: Action, id: string)
    requires Parked(run, s, id)
    ensures Parked(run, Do(c, s, a), id) && ProgressOf(Do(c, s, a).tasks[id]) == ProgressOf(s.tasks[id])
  {
    var s' := Do(c, s, a);
    RestStep(c, s, a, id);
    assert run.After(s'.tasks[id]) == run.After(s.tasks[id]);
  }

  lemma InvStep(run: Single, c: Setting, s: Sys, a: Action, id: string)
    requires run.Valid() && Inv(run, c, s, id) && Agrees(run, s, a, id)
    ensures Inv(run, c, Do(c, s, a), id) && Moves(run, s.tasks[id], Do(c, s, a).tasks[id])
  {
    if Running(run, c, s, id) {
      RunningStep(run, c, s, a, id);
    } else {
      ParkedStep(run, c, s, a, id);
    }
  }

  // ---- the theorem ------------------------------------------------------------------

  /** The engines start with nobody working on the task, and up to state k they take plain steps of it only. */
  ghost predicate Shares(tr: Trace, run: Single, id: string, k: nat) {
    && tr.Valid() && run.Valid() && k < |tr.states|
    && id in tr.states[0].tasks && tr.states[0].tasks[id] == run.t && FlowOf(tr.c.flows, run.t) == run.def
    && (forall o :: !Busy(tr.states[0].Of(o), id) && tr.states[0].Of(o) != Holding(id))
    && (forall i | 0 <= i < k :: Agrees(run, tr.states[i], tr.acts[i], id))
  }

  lemma {:induction false} InvHolds(tr: Trace, run: Single, id: string, k: nat)
    requires Shares(tr, run, id, k)
    ensures Inv(run, tr.c, tr.states[k], id)
  {
    if k == 0 {
      var s := tr.states[0];
      assert run.IsRow(0);
      forall o ensures Carries(run, id, s.tasks[id], s.now, o, s.Of(o)) {
        assert !Busy(s.Of(o), id);
      }
    } else {
      InvHolds(tr, run, id, k - 1);
      assert Agrees(run, tr.states[k - 1], tr.acts[k - 1], id);
      InvStep(run, tr.c, tr.states[k - 1], tr.acts[k - 1], id);
    }
  }

  /** Handover refinement: in every state of every interleaving that is reached by plain steps of the task, the stored
      progress is that of the single-engine run after as many steps, or after one more if the task is parked, and every
      action leaves it alone or takes it to the next row of that run. */
  lemma HandoverRefinement(tr: Trace, run: Single, id: string, k: nat)
    requires Shares(tr, run, id, k)
    ensures id in tr.states[k].tasks && (run.At(tr.states[k].tasks[id]) || run.ParkedAt(tr.states[k].tasks[id]))
    ensures k > 0 && id in tr.states[k - 1].tasks ==>
      Moves(run, tr.states[k - 1].tasks[id], tr.states[k].tasks[id])
  {
    InvHolds(tr, run, id, k);
    if k > 0 {
      InvHolds(tr, run, id, k - 1);
      assert Agrees(run, tr.states[k - 1], tr.acts[k - 1], id);
      InvStep(run, tr.c, tr.states[k - 1], tr.acts[k - 1], id);
    }
  }
}
