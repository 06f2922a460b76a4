/** What the pull protocol promises over all its runs: one entry a node, results stored before the task wakes, delivery
    of what was posted, and claims in order. */
module QueueRuns {
  import opened Json
  import opened Util
  import opened Types
  import opened Store
  import opened Core
  import opened Step
  import opened Queue
  import opened QueueProtocol
  import Invariants
  import Executor

  datatype Trace = Trace(c: Config, states: seq<Net>, acts: seq<Action>) {
    ghost predicate Valid() {
      && |states| == |acts| + 1 && Init(c, states[0])
      && forall k | 0 <= k < |acts| :: states[k + 1] == Do(c, states[k], acts[k])
    }
  }

  /** Acyclic flows, and no task that waits, has history or is being canceled. */
  ghost predicate Init(c: Config, s: Net) {
    && Ranked(c) && s.runs == [] && s.queue == [] && s.posts == map[]
    && forall id | id in s.tasks ::
      && s.tasks[id].id == id && Invariants.Agree(s.tasks[id])
      && s.tasks[id].status != "waiting_queue" && s.tasks[id].status != "canceling"
  }

  lemma {:induction false} InvHolds(tr: Trace, k: nat)
    requires tr.Valid() && k < |tr.states|
    ensures Inv(tr.c, tr.states[k])
  {
    if k > 0 {
      InvHolds(tr, k - 1);
      InvStep(tr.c, tr.states[k - 1], tr.acts[k - 1]);
    }
  }

  // ---- one entry a node -------------------------------------------------------------

  /** A waiting task has one entry for its current node, and only one: unclaimed, claimed, or in the middle of a
      completion. */
  lemma WaitingHasOneEntry(tr: Trace, k: nat, id: string) returns (q: nat)
    requires tr.Valid() && k < |tr.states| && id in tr.states[k].tasks
    requires tr.states[k].tasks[id].status == "waiting_queue"
    ensures var s := tr.states[k]; var key := s.tasks[id].cursor;
      && q < |s.queue| && AtNode(s.queue[q], id, key)
      && (forall p | 0 <= p < |s.queue| && AtNode(s.queue[p], id, key) :: p == q)
      && if q in s.posts then s.queue[q].status == "completed" && s.posts[q].stage != Resumed
         else s.queue[q].status == "pending" || s.queue[q].status == "claimed"
  {
    InvHolds(tr, k);
    var s := tr.states[k];
    assert TaskOk(tr.c, s, id);
    q :| q < |s.queue| && AtNode(s.queue[q], id, s.tasks[id].cursor);
    assert EntryOk(tr.c, s, q);
    forall p: nat | p < |s.queue| && AtNode(s.queue[p], id, s.tasks[id].cursor) ensures p == q {
      SameEntry(s, p, q);
    }
  }

  /** Over a whole run a node of a task is enqueued at most once. */
  lemma EnqueuedOnce(tr: Trace, k: nat, p: nat, q: nat)
    requires tr.Valid() && k < |tr.states| && p < |tr.states[k].queue| && q < |tr.states[k].queue|
    requires AtNode(tr.states[k].queue[p], tr.states[k].queue[q].taskId, tr.states[k].queue[q].nodeKey)
    ensures p == q
  {
    InvHolds(tr, k);
    SameEntry(tr.states[k], p, q);
  }

  /** When a task can be leased, the run of every entry it ever had holds the result that was posted for it. */
  lemma StoredBeforeLeasable(tr: Trace, k: nat, q: nat)
    requires tr.Valid() && k < |tr.states| && q < |tr.states[k].queue|
    requires tr.states[k].queue[q].taskId in tr.states[k].tasks
    requires Leasable(tr.states[k].tasks[tr.states[k].queue[q].taskId], tr.states[k].now)
    ensures var s := tr.states[k];
      q in s.posts && s.queue[q].runId < |s.runs| && Holds(s.runs[s.queue[q].runId], s.posts[q])
  {
    InvHolds(tr, k);
    assert EntryOk(tr.c, tr.states[k], q);
  }

  /** The three steps of a completion together are what the handler does to the tables. */
  lemma CompletionIsTheHandler(s: Net, q: nat, result: Json, error: string)
    requires q < |s.queue| && s.queue[q].runId < |s.runs| && s.queue[q].taskId in s.tasks
    ensures var s' := Handled(s, q, result, error);
      var e := s.queue[q];
      && s'.queue == s.queue[q := e.(status := "completed")]
      && s'.runs == s.runs[e.runId := Resulted(s.runs[e.runId], result, error)]
      && s'.tasks == s.tasks[e.taskId := WithStatus(s.tasks[e.taskId], "pending", s.now)]
      && s'.posts == s.posts[q := Posting(result, error, Resumed)]
  {
    var marked: map<nat, Posting> := s.posts[q := Posting(result, error, Marked)];
    assert marked[q := Posting(result, error, Stored)][q := Posting(result, error, Resumed)]
        == s.posts[q := Posting(result, error, Resumed)];
  }

  // ---- delivery ---------------------------------------------------------------------

  /** Entries and postings are never rewritten, and a claimed entry is never pending again. */
  predicate Persists(s: Net, s': Net, q: nat) {
    && (q < |s.queue| ==>
          && q < |s'.queue|
          && s'.queue[q].createdAt == s.queue[q].createdAt && s'.queue[q].service == s.queue[q].service
          && AtNode(s'.queue[q], s.queue[q].taskId, s.queue[q].nodeKey)
          && s'.queue[q].input == s.queue[q].input && s'.queue[q].params == s.queue[q].params
          && s'.queue[q].runId == s.queue[q].runId
          && (s.queue[q].status != "pending" ==>
                s'.queue[q].status != "pending" && s'.queue[q].workerId == s.queue[q].workerId))
    && (q in s.posts ==>
          q in s'.posts && s'.posts[q].result == s.posts[q].result && s'.posts[q].error == s.posts[q].error)
  }

  lemma QueueStepPersists(s: Net, id: string, j: NodeInput, q: nat)
    requires id in s.tasks
    ensures Persists(s, QueueStep(s, id, j), q)
  {
  }

  lemma WorkPersists(s: Net, p: nat, worker: string, result: Json, error: string, q: nat)
    requires p < |s.queue|
    ensures s.queue[p].status == "pending" ==> Persists(s, Polled(s, p, worker), q)
    ensures p !in s.posts ==> Persists(s, Completed(s, p, result, error), q)
  {
  }

  lemma HandlerPersists(s: Net, p: nat, q: nat)
    requires p < |s.queue| && p in s.posts
    ensures s.queue[p].runId < |s.runs| ==> Persists(s, Saved(s, p), q)
    ensures s.queue[p].taskId in s.tasks ==> Persists(s, WokenUp(s, p), q)
  {
  }

  lemma PersistsStep(c: Config, s: Net, a: Action, q: nat)
    requires Inv(c, s)
    ensures Persists(s, Do(c, s, a), q)
  {
    if Enabled(c, s, a) {
      match a
      case Poll(worker, _, p) => WorkPersists(s, p, worker, Null, "", q);
      case MarkDone(p, result, error) =>
        assert EntryOk(c, s, p);
        WorkPersists(s, p, "", result, error, q);
      case Save(p) => HandlerPersists(s, p, q);
      case Wake(p) => HandlerPersists(s, p, q);
      case StepTask(id, env, audit) =>
        var t := s.tasks[id];
        if QueueNode(NodeOf(c, t, t.cursor)) {
          QueueStepPersists(s, id, InputOf(FlowOf(c.flows, t), t), q);
        }
      case _ =>
    }
  }

  lemma PersistsOn(s: Net, s': Net, s'': Net, q: nat)
    requires Persists(s, s', q) && Persists(s', s'', q)
    ensures Persists(s, s'', q)
  {
  }

  lemma PersistsNext(tr: Trace, i: nat, k: nat, k': nat, q: nat)
    requires tr.Valid() && i <= k && k' == k + 1 < |tr.states| && Persists(tr.states[i], tr.states[k], q)
    ensures Persists(tr.states[i], tr.states[k'], q)
  {
    InvHolds(tr, k);
    var s, s' := tr.states[k], tr.states[k'];
    assert s' == Do(tr.c, s, tr.acts[k]);
    PersistsStep(tr.c, s, tr.acts[k], q);
    PersistsOn(tr.states[i], s, s', q);
  }

  lemma {:induction false} PersistsRun(tr: Trace, i: nat, k: nat, q: nat)
    requires tr.Valid() && i <= k < |tr.states|
    ensures Persists(tr.states[i], tr.states[k], q)
  {
    if i < k {
      var m := k - 1;
      PersistsRun(tr, i, m, q);
      PersistsNext(tr, i, m, k, q);
    }
  }

  /** What the worker that claims an entry is given: the service of the node, its input and its parameters, as they were
      when the entry was made; whatever has happened since, the entry still says so. */
  lemma Dispatch(tr: Trace, i: nat, k: nat, id: string, env: Env, audit: seq<NodeRun>)
    requires tr.Valid() && i < k < |tr.states|
    requires tr.acts[i] == StepTask(id, env, audit) && Enabled(tr.c, tr.states[i], tr.acts[i])
    requires |tr.states[i + 1].queue| > |tr.states[i].queue|
    ensures |tr.states[i + 1].queue| == |tr.states[i].queue| + 1
    ensures var q, t := |tr.states[i].queue|, tr.states[i].tasks[id];
      var def := FlowOf(tr.c.flows, t);
      && q < |tr.states[k].queue|
      && var e := tr.states[k].queue[q];
         && AtNode(e, id, t.cursor) && e.service == NodeAt(def, t.cursor).use.service
         && e.input == InputOf(def, t).input && e.params == NodeAt(def, t.cursor).params + t.params
         && e.runId == |tr.states[i].runs|
  {
    InvHolds(tr, i);
    assert TaskOk(tr.c, tr.states[i], id);
    PersistsRun(tr, i + 1, k, |tr.states[i].queue|);
  }

  /** The row a queue node leaves after an answer: a result under the output key and along the edge of its action,
      an error along the default edge with the state unchanged. */
  predicate Continues(j: NodeInput, t': Task, result: Json, error: string) {
    if error == "" then
      && t'.shared == Executor.WithOutputs(j.node.post, OutputOf(result), j.shared)
      && (j.node.post.outputKey != "" ==> Get(t'.shared, j.node.post.outputKey) == OutputOf(result))
      && t'.cursor == FindNext(j.def.edges, j.key, Executor.ActionOf(j.node.post, OutputOf(result)))
      && t'.status == (if t'.cursor == "" then "completed" else "running")
    else
      && t'.shared == j.shared
      && t'.cursor == FindNext(j.def.edges, j.key, "")
      && t'.status == (if t'.cursor == "" then "failed" else "running")
  }

  lemma AnswerContinues(s: Net, id: string, j: NodeInput, result: Json, error: string)
    requires id in s.tasks && s.tasks[id] == j.task && Answer(s.runs, j) == Some(Delivered(result, error))
    ensures var s' := QueueStep(s, id, j);
      && Continues(j, s'.tasks[id], result, error)
      && s'.queue == s.queue && s'.runs == s.runs && s'.tasks[id].steps == j.task.steps + 1
  {
    var w := WriteFor(s.runs, j);
    assert s.runs + [] == s.runs;
    assert QueueStep(s, id, j) == Moved(s, id, w, []);
  }

  lemma StepDelivers(c: Config, s: Net, q: nat, env: Env, audit: seq<NodeRun>)
    requires Inv(c, s) && q < |s.queue| && Enabled(c, s, StepTask(s.queue[q].taskId, env, audit))
    requires s.tasks[s.queue[q].taskId].cursor == s.queue[q].nodeKey
    ensures q in s.posts
    ensures var id, s' := s.queue[q].taskId, Do(c, s, StepTask(s.queue[q].taskId, env, audit));
      && Continues(InputOf(FlowOf(c.flows, s.tasks[id]), s.tasks[id]), s'.tasks[id],
           s.posts[q].result, s.posts[q].error)
      && s'.queue == s.queue && s'.runs == s.runs
  {
    var id := s.queue[q].taskId;
    var j := InputOf(FlowOf(c.flows, s.tasks[id]), s.tasks[id]);
    assert EntryOk(c, s, q) && TaskOk(c, s, id);
    AnswerIs(c, s, j);
    assert AtNode(s.queue[q], j.task.id, j.key);
    AnswerContinues(s, id, j, s.posts[q].result, s.posts[q].error);
  }

  /** What a worker posts for an entry is what the step that resumes the node uses, whatever happens in between: null
      becomes an empty object, a posted error takes the error branch, and nothing is enqueued again. */
  lemma Delivery(tr: Trace, i: nat, k: nat, q: nat, result: Json, error: string, env: Env, audit: seq<NodeRun>)
    requires tr.Valid() && i < k < |tr.acts|
    requires tr.acts[i] == MarkDone(q, result, error) && Enabled(tr.c, tr.states[i], tr.acts[i])
    requires q < |tr.states[k].queue|
    requires tr.acts[k] == StepTask(tr.states[k].queue[q].taskId, env, audit) && Enabled(tr.c, tr.states[k], tr.acts[k])
    requires tr.states[k].tasks[tr.states[k].queue[q].taskId].cursor == tr.states[k].queue[q].nodeKey
    ensures var s, s' := tr.states[k], tr.states[k + 1];
      var t := s.tasks[s.queue[q].taskId];
      && t.id in s'.tasks && Continues(InputOf(FlowOf(tr.c.flows, t), t), s'.tasks[t.id], result, error)
      && s'.queue == s.queue && s'.runs == s.runs
  {
    InvHolds(tr, k);
    PersistsRun(tr, i + 1, k, q);
    assert q in tr.states[i + 1].posts;
    StepDelivers(tr.c, tr.states[k], q, env, audit);
    assert TaskOk(tr.c, tr.states[k], tr.states[k].queue[q].taskId);
  }

  // ---- claims -----------------------------------------------------------------------

  /** An entry is claimed by at most one worker, and stays its own. */
  lemma ClaimedOnce(tr: Trace, i: nat, k: nat, q: nat, worker: string, services: seq<string>)
    requires tr.Valid() && i < k < |tr.states| && tr.acts[i] == Poll(worker, services, q)
    requires Enabled(tr.c, tr.states[i], tr.acts[i])
    ensures q < |tr.states[k].queue| && tr.states[k].queue[q].workerId == worker
    ensures forall other, svcs :: !Enabled(tr.c, tr.states[k], Poll(other, svcs, q))
  {
    PersistsRun(tr, i + 1, k, q);
  }

  /** Entries of a service leave the pending state in the order they were created. */
  predicate InOrder(s: Net) {
    && (forall q | 0 <= q < |s.queue| :: s.queue[q].createdAt <= s.now)
    && forall p, q | 0 <= p < |s.queue| && 0 <= q < |s.queue|
         && s.queue[p].service == s.queue[q].service && s.queue[p].createdAt < s.queue[q].createdAt
         && s.queue[p].status == "pending" :: s.queue[q].status == "pending"
  }

  /** The action does not complete an entry that nobody has claimed. */
  predicate ClaimsFirst(s: Net, a: Action) {
    a.MarkDone? && a.q < |s.queue| ==> s.queue[a.q].status != "pending"
  }

  lemma OrderStep(c: Config, s: Net, a: Action)
    requires InOrder(s) && ClaimsFirst(s, a)
    ensures InOrder(Do(c, s, a))
  {
    if Enabled(c, s, a) {
      match a
      case Poll(worker, services, q) => PollInOrder(s, q, worker, services);
      case MarkDone(q, result, error) => CompletedInOrder(s, q, result, error);
      case StepTask(id, env, audit) =>
        var t := s.tasks[id];
        if QueueNode(NodeOf(c, t, t.cursor)) {
          QueueStepInOrder(s, id, InputOf(FlowOf(c.flows, t), t));
        }
      case _ =>
    }
  }

  /** CompleteQueueTask has no guard: it keeps the order exactly if the entry is claimed already, or no strictly older
      entry of its service is pending. */
  lemma CompletedInOrder(s: Net, q: nat, result: Json, error: string)
    requires InOrder(s) && q < |s.queue|
    ensures InOrder(Completed(s, q, result, error)) <==>
      (s.queue[q].status == "pending" ==> forall p | 0 <= p < |s.queue|
        && s.queue[p].service == s.queue[q].service && s.queue[p].createdAt < s.queue[q].createdAt ::
        s.queue[p].status != "pending")
  {
    var s' := Completed(s, q, result, error);
    if InOrder(s') && s.queue[q].status == "pending" {
      forall p | 0 <= p < |s.queue| && s.queue[p].service == s.queue[q].service
          && s.queue[p].createdAt < s.queue[q].createdAt
        ensures s.queue[p].status != "pending"
      {
        assert s'.queue[p] == s.queue[p] && s'.queue[q].service == s.queue[q].service;
        assert s'.queue[q].createdAt == s.queue[q].createdAt && s'.queue[q].status == "completed";
      }
    }
  }

  lemma QueueStepInOrder(s: Net, id: string, j: NodeInput)
    requires InOrder(s) && id in s.tasks
    ensures InOrder(QueueStep(s, id, j))
  {
  }

  lemma PollInOrder(s: Net, q: nat, worker: string, services: seq<string>)
    requires InOrder(s) && ClaimTarget(s.queue, services, q)
    ensures InOrder(Polled(s, q, worker))
  {
    var s' := Polled(s, q, worker);
    forall p | 0 <= p < |s.queue| && s.queue[p].service == s.queue[q].service
        && s.queue[p].createdAt < s.queue[q].createdAt
      ensures s.queue[p].status != "pending"
    {
      assert !Claimable(s.queue[p], services);
    }
  }

  /** If entries are completed only after a claim, an entry is never claimed while a strictly older one of the same
      service is pending, and this stays so. */
  lemma {:induction false} ClaimOrder(tr: Trace, k: nat)
    requires tr.Valid() && k < |tr.states| && forall i | 0 <= i < k :: ClaimsFirst(tr.states[i], tr.acts[i])
    ensures InOrder(tr.states[k])
  {
    if k > 0 {
      ClaimOrder(tr, k - 1);
      assert ClaimsFirst(tr.states[k - 1], tr.acts[k - 1]);
      OrderStep(tr.c, tr.states[k - 1], tr.acts[k - 1]);
    }
  }

  // ---- why the flows must be acyclic ------------------------------------------------

  /** The history is matched by node key alone: a revisited node takes the result of its earlier visit at once, and
      only a node whose latest run is missing or of unknown status is enqueued. */
  lemma HistoryDecides(runs: seq<NodeRun>, j: NodeInput, i: nat)
    requires Latest(runs, j.task.id, j.key, i)
    ensures Answer(runs, j).None? <==> runs[i].status !in ["ok", "error", "queued", "running"]
    ensures runs[i].status == "ok" ==> WriteFor(runs, j) == Executor.EndOf(j, Ok(runs[i].output))
    ensures runs[i].status == "error" ==> WriteFor(runs, j) == Executor.EndOf(j, Err(runs[i].errorText, false))
    ensures OpenRun(runs[i]) ==> WriteFor(runs, j) == Suspend(j, j.shared)
  {
    ScanFindsLatest(runs, j.task.id, j.key, i);
  }

  const QUEUE_NODE := ZERO_NODE.(kind := "executor", use := Use("svc", "queue", "", NO_SCRIPT, 0),
    post := Post("out", None, "", ""))
  const QUEUE_LOOP := Flow("q", map["q" := QUEUE_NODE], [Edge("q", "default", "q")])

  /** The row after a step of the loop. */
  function Looped(s: Net, id: string): (r: Net)
    requires id in s.tasks
    ensures id in r.tasks
  {
    QueueStep(s, id, InputOf(QUEUE_LOOP, s.tasks[id]))
  }

  lemma LoopedOnce(s: Net, id: string, i: nat)
    requires id in s.tasks && s.tasks[id].id == id && s.tasks[id].cursor == "q"
    requires Latest(s.runs, id, "q", i) && s.runs[i].status == "ok"
    ensures var s' := Looped(s, id);
      && s'.runs == s.runs && s'.queue == s.queue && id in s'.tasks && s'.tasks[id].id == id
      && s'.tasks[id].cursor == "q" && s'.tasks[id].steps == s.tasks[id].steps + 1
      && Get(s'.tasks[id].shared, "out") == s.runs[i].output
  {
    var j := InputOf(QUEUE_LOOP, s.tasks[id]);
    HistoryDecides(s.runs, j, i);
    assert s.runs + [] == s.runs;
    assert Matches(QUEUE_LOOP.edges[0], "q", "default");
  }

  /** The state after n visits of the loop. */
  function Visited(s: Net, id: string, n: nat): (r: Net)
    requires id in s.tasks
    ensures id in r.tasks
  {
    if n == 0 then s else Looped(Visited(s, id, n - 1), id)
  }

  /** On a cyclic flow the queue is asked once and for all: after a result the node visits itself again and again, takes
      the old result on every visit, and enqueues nothing. */
  lemma {:induction false} RevisitTakesOldResult(s: Net, id: string, i: nat, n: nat)
    requires id in s.tasks && s.tasks[id].id == id && s.tasks[id].cursor == "q"
    requires Latest(s.runs, id, "q", i) && s.runs[i].status == "ok"
    ensures var s' := Visited(s, id, n);
      && s'.runs == s.runs && s'.queue == s.queue && s'.tasks[id].id == id
      && s'.tasks[id].cursor == "q" && s'.tasks[id].steps == s.tasks[id].steps + n
      && (n > 0 ==> Get(s'.tasks[id].shared, "out") == s.runs[i].output)
  {
    if n > 0 {
      RevisitTakesOldResult(s, id, i, n - 1);
      LoopedOnce(Visited(s, id, n - 1), id, i);
    }
  }
}
