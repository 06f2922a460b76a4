/** The pull protocol as a state machine: engines step tasks, workers claim queue entries, and completions run as three
    store steps, interleaved in any order. RunOnce is atomic, an entry is completed once, and workers pass the run id
    of the entry. */
module QueueProtocol {
  import opened Json
  import opened Util
  import opened Types
  import opened Store
  import opened Core
  import opened Step
  import opened Queue
  import opened Invariants

  // ---- states and actions -----------------------------------------------------------

  datatype Stage = Marked | Stored | Resumed

  /** A posted result and how far its completion has come; it is remembered after the completion. */
  datatype Posting = Posting(result: Json, error: string, stage: Stage)

  datatype Net = Net(
    tasks: map<string, Task>, runs: seq<NodeRun>, queue: seq<QueueTask>, posts: map<nat, Posting>, now: int)

  /** The flows, and ranks that every edge decreases. */
  datatype Config = Config(flows: map<string, Flow>, rank: (string, string) -> nat)

  datatype Action =
    | Tick(d: nat)
    | Lease(id: string, owner: string, ttl: int)
    | StepTask(id: string, env: Env, audit: seq<NodeRun>)
    | Poll(worker: string, services: seq<string>, q: nat)
    | Report(q: nat, status: string)
    | MarkDone(q: nat, result: Json, error: string)
    | Save(q: nat)
    | Wake(q: nat)

  predicate QueueNode(n: Node) {
    PlainKind(n.kind) && n.use.execType == "queue"
  }

  function NodeOf(c: Config, t: Task, key: string): Node {
    NodeAt(FlowOf(c.flows, t), key)
  }

  predicate Live(t: Task) {
    t.status == "pending" || t.status == "running"
  }

  predicate OpenRun(r: NodeRun) {
    r.status == "queued" || r.status == "running"
  }

  /** A step of a node that is not a queue executor: it does not park, and records rows for its own node only. */
  predicate OrdinaryStep(c: Config, t: Task, env: Env, audit: seq<NodeRun>) {
    && StepWrite(FlowOf(c.flows, t), t, env).Some? && StepWrite(FlowOf(c.flows, t), t, env).value.move != Park
    && forall i | 0 <= i < |audit| :: Concerns(audit[i], t.id, t.cursor)
  }

  /** No result of the entry is stored yet. */
  predicate Unfinished(s: Net, q: nat) {
    q in s.posts ==> s.posts[q].stage == Marked
  }

  /** Workers may report at any time before the result is stored, and complete an entry once, claimed or not. */
  predicate Enabled(c: Config, s: Net, a: Action) {
    match a
    case Tick(_) => true
    case Lease(id, owner, ttl) => id in s.tasks && Leasable(s.tasks[id], s.now)
    case StepTask(id, env, audit) =>
      && id in s.tasks && Live(s.tasks[id]) && s.tasks[id].flowId in c.flows
      && (QueueNode(NodeOf(c, s.tasks[id], s.tasks[id].cursor)) || OrdinaryStep(c, s.tasks[id], env, audit))
    case Poll(worker, services, q) => ClaimTarget(s.queue, services, q)
    case Report(q, status) =>
      && q < |s.queue| && s.queue[q].runId < |s.runs| && Unfinished(s, q)
      && (status == "queued" || status == "running")
    case MarkDone(q, result, error) => q < |s.queue| && q !in s.posts
    case Save(q) => q < |s.queue| && q in s.posts && s.posts[q].stage == Marked && s.queue[q].runId < |s.runs|
    case Wake(q) => q < |s.queue| && q in s.posts && s.posts[q].stage == Stored && s.queue[q].taskId in s.tasks
  }

  function Moved(s: Net, id: string, w: Write, audit: seq<NodeRun>): Net
    requires id in s.tasks
  {
    s.(tasks := s.tasks[id := Land(s.tasks[id], w, s.now)], runs := s.runs + audit)
  }

  function Enqueued(s: Net, id: string, w: Write, run: NodeRun, entry: QueueTask): Net
    requires id in s.tasks
  {
    Moved(s, id, w, [run]).(queue := s.queue + [entry])
  }

  function QueueStep(s: Net, id: string, j: NodeInput): Net
    requires id in s.tasks
  {
    var w := WriteFor(s.runs, j);
    if Answer(s.runs, j).Some? then Moved(s, id, w, [])
    else Enqueued(s, id, w, NewRun(j), NewEntry(j, |s.runs|, s.now))
  }

  function Staged(s: Net, q: nat, stage: Stage): Net
    requires q in s.posts
  {
    s.(posts := s.posts[q := s.posts[q].(stage := stage)])
  }

  function LeasedTo(s: Net, id: string, owner: string, ttl: int): Net
    requires id in s.tasks
  {
    s.(tasks := s.tasks[id := Leased(s.tasks[id], owner, ttl, s.now)])
  }

  function Polled(s: Net, q: nat, worker: string): Net
    requires q < |s.queue|
  {
    s.(queue := s.queue[q := Claimed(s.queue[q], worker)])
  }

  function Reported(s: Net, q: nat, status: string): Net
    requires q < |s.queue| && s.queue[q].runId < |s.runs|
  {
    s.(runs := s.runs[s.queue[q].runId := RunUpdated(s.runs[s.queue[q].runId], status, None)])
  }

  function Completed(s: Net, q: nat, result: Json, error: string): Net
    requires q < |s.queue|
  {
    s.(queue := s.queue[q := s.queue[q].(status := "completed")], posts := s.posts[q := Posting(result, error, Marked)])
  }

  function Saved(s: Net, q: nat): Net
    requires q < |s.queue| && q in s.posts && s.queue[q].runId < |s.runs|
  {
    var i := s.queue[q].runId;
    Staged(s, q, Stored).(runs := s.runs[i := Resulted(s.runs[i], s.posts[q].result, s.posts[q].error)])
  }

  function WokenUp(s: Net, q: nat): Net
    requires q < |s.queue| && q in s.posts && s.queue[q].taskId in s.tasks
  {
    var id := s.queue[q].taskId;
    Staged(s, q, Resumed).(tasks := s.tasks[id := WithStatus(s.tasks[id], "pending", s.now)])
  }

  function Do(c: Config, s: Net, a: Action): Net {
    if !Enabled(c, s, a) then s
    else
      match a
      case Tick(d) => s.(now := s.now + d)
      case Lease(id, owner, ttl) => LeasedTo(s, id, owner, ttl)
      case StepTask(id, env, audit) =>
        var t := s.tasks[id];
        if QueueNode(NodeOf(c, t, t.cursor)) then QueueStep(s, id, InputOf(FlowOf(c.flows, t), t))
        else Moved(s, id, StepWrite(FlowOf(c.flows, t), t, env).value, audit)
      case Poll(worker, _, q) => Polled(s, q, worker)
      case Report(q, status) => Reported(s, q, status)
      case MarkDone(q, result, error) => Completed(s, q, result, error)
      case Save(q) => Saved(s, q)
      case Wake(q) => WokenUp(s, q)
  }

  // ---- the invariant ----------------------------------------------------------------

  predicate Waits(t: Task, key: string) {
    t.status == "waiting_queue" && t.cursor == key
  }

  predicate Holds(r: NodeRun, p: Posting) {
    r.status == StatusOf(p.error) && r.output == OutputOf(p.result) && r.errorText == p.error
  }

  predicate AtNode(e: QueueTask, id: string, key: string) {
    e.taskId == id && e.nodeKey == key
  }

  /** An entry, its run and its task in the same phase. */
  predicate InPhase(e: QueueTask, r: NodeRun, t: Task, post: Option<Posting>) {
    match post
    case None => (e.status == "pending" || e.status == "claimed") && OpenRun(r) && Waits(t, e.nodeKey)
    case Some(p) =>
      && e.status == "completed"
      && (if p.stage == Marked then OpenRun(r) else Holds(r, p))
      && (if p.stage == Resumed then t.cursor == e.nodeKey ==> Live(t) else Waits(t, e.nodeKey))
  }

  function PostOf(s: Net, q: nat): Option<Posting> {
    if q in s.posts then Some(s.posts[q]) else None
  }

  predicate EntryOk(c: Config, s: Net, q: nat)
    requires q < |s.queue|
  {
    var e := s.queue[q];
    && e.taskId in s.tasks && e.runId < |s.runs|
    && Concerns(s.runs[e.runId], e.taskId, e.nodeKey)
    && e.nodeKey != "" && QueueNode(NodeOf(c, s.tasks[e.taskId], e.nodeKey))
    && InPhase(e, s.runs[e.runId], s.tasks[e.taskId], PostOf(s, q))
  }

  /** The cursor is at the node or has passed it for good. */
  predicate Reached(c: Config, t: Task, key: string) {
    key == t.cursor || t.cursor == "" || c.rank(t.flowId, t.cursor) < c.rank(t.flowId, key)
  }

  ghost predicate HasEntry(s: Net, i: nat) {
    exists q | 0 <= q < |s.queue| :: s.queue[q].runId == i
  }

  ghost predicate RunOk(c: Config, s: Net, i: nat)
    requires i < |s.runs|
  {
    var r := s.runs[i];
    && r.taskId in s.tasks && Reached(c, s.tasks[r.taskId], r.nodeKey)
    && (QueueNode(NodeOf(c, s.tasks[r.taskId], r.nodeKey)) ==> HasEntry(s, i))
  }

  ghost predicate HasEntryAt(s: Net, id: string, key: string) {
    exists q | 0 <= q < |s.queue| :: AtNode(s.queue[q], id, key)
  }

  ghost predicate TaskOk(c: Config, s: Net, id: string)
    requires id in s.tasks
  {
    var t := s.tasks[id];
    && t.id == id && Agree(t) && t.status != "canceling"
    && (t.status == "waiting_queue" ==> HasEntryAt(s, id, t.cursor))
  }

  ghost predicate Unique(s: Net) {
    forall p: nat, q: nat | p < q < |s.queue| :: !AtNode(s.queue[p], s.queue[q].taskId, s.queue[q].nodeKey)
  }

  ghost predicate Ranked(c: Config) {
    forall f, i | f in c.flows && 0 <= i < |c.flows[f].edges| && c.flows[f].edges[i].to != "" ::
      c.rank(f, c.flows[f].edges[i].to) < c.rank(f, c.flows[f].edges[i].from)
  }

  ghost predicate Inv(c: Config, s: Net) {
    && Ranked(c)
    && (forall id | id in s.tasks :: TaskOk(c, s, id))
    && (forall i: nat | i < |s.runs| :: RunOk(c, s, i))
    && (forall q: nat | q < |s.queue| :: EntryOk(c, s, q))
    && (forall q | q in s.posts :: q < |s.queue|)
    && Unique(s)
  }

  // ---- steps of the engines ---------------------------------------------------------

  /** A cursor change of a step goes down in rank. */
  lemma CursorFalls(c: Config, t: Task, action: string)
    requires Ranked(c)
    ensures var next := FindNext(FlowOf(c.flows, t).edges, t.cursor, action);
      next == "" || c.rank(t.flowId, next) < c.rank(t.flowId, t.cursor)
  {
    var edges := FlowOf(c.flows, t).edges;
    FindNextIsFirstEdge(edges, t.cursor, action);
  }

  /** What a step that does not park does to the row. */
  predicate Advances(c: Config, t: Task, t': Task) {
    && t'.id == t.id && t'.flowId == t.flowId && Agree(t') && (t'.cursor == "" || Live(t'))
    && (t'.cursor == t.cursor || t'.cursor == "" || c.rank(t.flowId, t'.cursor) < c.rank(t.flowId, t.cursor))
  }

  lemma WriteAdvances(c: Config, t: Task, j: NodeInput, w: Write, now: int)
    requires Ranked(c) && Live(t) && Agree(t) && j.def == FlowOf(c.flows, t) && j.key == t.cursor
    requires ProperEnd(j, w) && w.move != Park
    ensures Advances(c, t, Land(t, w, now))
  {
    CursorFalls(c, t, w.action);
  }

  /** While a task is live the completions of its entries are over. */
  lemma LiveMeansResumed(c: Config, s: Net, q: nat)
    requires Inv(c, s) && q < |s.queue| && s.queue[q].taskId in s.tasks && Live(s.tasks[s.queue[q].taskId])
    ensures q in s.posts && s.posts[q].stage == Resumed
    ensures Reached(c, s.tasks[s.queue[q].taskId], s.queue[q].nodeKey)
  {
    assert EntryOk(c, s, q);
    assert RunOk(c, s, s.queue[q].runId);
  }

  lemma StillReached(c: Config, t: Task, t': Task, key: string)
    requires Advances(c, t, t') && t.cursor != "" && Reached(c, t, key)
    ensures Reached(c, t', key)
  {
  }

  ghost predicate MayMove(c: Config, s: Net, id: string, w: Write, audit: seq<NodeRun>) {
    && Inv(c, s) && id in s.tasks && Live(s.tasks[id])
    && Advances(c, s.tasks[id], Land(s.tasks[id], w, s.now))
    && (QueueNode(NodeOf(c, s.tasks[id], s.tasks[id].cursor)) ==> audit == [])
    && forall i | 0 <= i < |audit| :: Concerns(audit[i], id, s.tasks[id].cursor)
  }

  lemma MovedRun(c: Config, s: Net, id: string, w: Write, audit: seq<NodeRun>, i: nat)
    requires MayMove(c, s, id, w, audit) && i < |s.runs + audit|
    ensures RunOk(c, Moved(s, id, w, audit), i)
  {
    var s' := Moved(s, id, w, audit);
    assert TaskOk(c, s, id);
    if i < |s.runs| {
      assert RunOk(c, s, i);
      assert HasEntry(s', i) <==> HasEntry(s, i);
      if s.runs[i].taskId == id { StillReached(c, s.tasks[id], s'.tasks[id], s.runs[i].nodeKey); }
    } else {
      assert Concerns(audit[i - |s.runs|], id, s.tasks[id].cursor);
    }
  }

  lemma MovedEntry(c: Config, s: Net, id: string, w: Write, audit: seq<NodeRun>, q: nat)
    requires MayMove(c, s, id, w, audit) && q < |s.queue|
    ensures EntryOk(c, Moved(s, id, w, audit), q)
  {
    assert EntryOk(c, s, q) && TaskOk(c, s, id);
    if s.queue[q].taskId == id { LiveMeansResumed(c, s, q); }
  }

  /** A step that does not park keeps the invariant; its rows are for the node under the cursor. */
  lemma MovedKeeps(c: Config, s: Net, id: string, w: Write, audit: seq<NodeRun>)
    requires MayMove(c, s, id, w, audit)
    ensures Inv(c, Moved(s, id, w, audit))
  {
    var s' := Moved(s, id, w, audit);
    forall k | k in s'.tasks ensures TaskOk(c, s', k) {
      assert TaskOk(c, s, k);
      if k != id && s.tasks[k].status == "waiting_queue" {
        assert HasEntryAt(s', k, s.tasks[k].cursor) <==> HasEntryAt(s, k, s.tasks[k].cursor);
      }
    }
    forall i: nat | i < |s'.runs| ensures RunOk(c, s', i) {
      MovedRun(c, s, id, w, audit, i);
    }
    forall q: nat | q < |s'.queue| ensures EntryOk(c, s', q) {
      MovedEntry(c, s, id, w, audit, q);
    }
  }

  // ---- steps of queue nodes ---------------------------------------------------------

  lemma SameEntry(s: Net, p: nat, q: nat)
    requires Unique(s) && p < |s.queue| && q < |s.queue| && AtNode(s.queue[p], s.queue[q].taskId, s.queue[q].nodeKey)
    ensures p == q
  {
    assert AtNode(s.queue[q], s.queue[p].taskId, s.queue[p].nodeKey);
  }

  /** The run of an entry is the only one of its node. */
  lemma EntryRunIsLatest(c: Config, s: Net, q: nat)
    requires Inv(c, s) && q < |s.queue|
    ensures var e := s.queue[q]; Latest(s.runs, e.taskId, e.nodeKey, e.runId)
  {
    assert EntryOk(c, s, q);
    var e := s.queue[q];
    forall k: nat | e.runId < k < |s.runs| ensures !Concerns(s.runs[k], e.taskId, e.nodeKey) {
      assert RunOk(c, s, k);
      if Concerns(s.runs[k], e.taskId, e.nodeKey) {
        var p: nat :| p < |s.queue| && s.queue[p].runId == k;
        assert EntryOk(c, s, p);
        SameEntry(s, p, q);
      }
    }
  }

  lemma NoEntryNoRun(c: Config, s: Net, id: string, key: string)
    requires Inv(c, s) && id in s.tasks && QueueNode(NodeOf(c, s.tasks[id], key)) && !HasEntryAt(s, id, key)
    ensures forall k | 0 <= k < |s.runs| :: !Concerns(s.runs[k], id, key)
  {
    forall k: nat | k < |s.runs| ensures !Concerns(s.runs[k], id, key) {
      assert RunOk(c, s, k);
      if Concerns(s.runs[k], id, key) {
        var p: nat :| p < |s.queue| && s.queue[p].runId == k;
        assert EntryOk(c, s, p);
        assert AtNode(s.queue[p], id, key);
      }
    }
  }

  /** What the history answers at a queue node under the cursor: the posted result if the node has an entry, and
      nothing if it has none. */
  lemma AnswerIs(c: Config, s: Net, j: NodeInput)
    requires Inv(c, s) && j.task.id in s.tasks && s.tasks[j.task.id] == j.task && j.key == j.task.cursor && Live(j.task)
    requires QueueNode(NodeOf(c, j.task, j.key))
    ensures Answer(s.runs, j).None? <==> !HasEntryAt(s, j.task.id, j.key)
    ensures forall q: nat | q < |s.queue| && AtNode(s.queue[q], j.task.id, j.key) ::
      && q in s.posts && s.posts[q].stage == Resumed
      && Answer(s.runs, j) == Some(Delivered(s.posts[q].result, s.posts[q].error))
  {
    if !HasEntryAt(s, j.task.id, j.key) {
      NoEntryNoRun(c, s, j.task.id, j.key);
      ScanFindsNothing(s.runs, j.task.id, j.key);
    }
    forall q: nat | q < |s.queue| && AtNode(s.queue[q], j.task.id, j.key)
      ensures q in s.posts && s.posts[q].stage == Resumed
      ensures Answer(s.runs, j) == Some(Delivered(s.posts[q].result, s.posts[q].error))
    {
      EntryRunIsLatest(c, s, q);
      ScanFindsLatest(s.runs, j.task.id, j.key, s.queue[q].runId);
      LiveMeansResumed(c, s, q);
      assert EntryOk(c, s, q);
    }
  }

  /** A new entry: its task parks at the node, which had none. */
  ghost predicate MayEnqueue(c: Config, s: Net, id: string, j: NodeInput, w: Write) {
    && Inv(c, s) && id in s.tasks && s.tasks[id] == j.task && j.key == j.task.cursor && Live(j.task)
    && QueueNode(NodeOf(c, j.task, j.key)) && !HasEntryAt(s, id, j.key)
    && w == Suspend(j, j.shared)
  }

  function Parked(s: Net, id: string, j: NodeInput, w: Write): Net
    requires id in s.tasks
  {
    Enqueued(s, id, w, NewRun(j), NewEntry(j, |s.runs|, s.now))
  }

  lemma ParkedEntry(c: Config, s: Net, id: string, j: NodeInput, w: Write, q: nat)
    requires MayEnqueue(c, s, id, j, w) && q <= |s.queue|
    ensures EntryOk(c, Parked(s, id, j, w), q)
  {
    assert TaskOk(c, s, id);
    if q < |s.queue| {
      assert EntryOk(c, s, q);
      if s.queue[q].taskId == id {
        LiveMeansResumed(c, s, q);
        assert !AtNode(s.queue[q], id, j.key);
      }
    } else {
      assert q !in s.posts;
    }
  }

  lemma ParkedRun(c: Config, s: Net, id: string, j: NodeInput, w: Write, i: nat)
    requires MayEnqueue(c, s, id, j, w) && i <= |s.runs|
    ensures RunOk(c, Parked(s, id, j, w), i)
  {
    var s' := Parked(s, id, j, w);
    assert TaskOk(c, s, id);
    if i < |s.runs| {
      assert RunOk(c, s, i);
      if HasEntry(s, i) {
        var q: nat :| q < |s.queue| && s.queue[q].runId == i;
        assert s'.queue[q].runId == i;
      }
    } else {
      assert s'.queue[|s.queue|].runId == i;
    }
  }

  lemma ParkedTask(c: Config, s: Net, id: string, j: NodeInput, w: Write, k: string)
    requires MayEnqueue(c, s, id, j, w) && k in s.tasks
    ensures TaskOk(c, Parked(s, id, j, w), k)
  {
    var s' := Parked(s, id, j, w);
    assert TaskOk(c, s, k);
    if k == id {
      assert AtNode(s'.queue[|s.queue|], id, j.key);
    } else if s.tasks[k].status == "waiting_queue" {
      var q: nat :| q < |s.queue| && AtNode(s.queue[q], k, s.tasks[k].cursor);
      assert AtNode(s'.queue[q], k, s.tasks[k].cursor);
    }
  }

  lemma ParkedKeeps(c: Config, s: Net, id: string, j: NodeInput, w: Write)
    requires MayEnqueue(c, s, id, j, w)
    ensures Inv(c, Parked(s, id, j, w))
  {
    var s' := Parked(s, id, j, w);
    assert TaskOk(c, s, id);
    forall k | k in s'.tasks ensures TaskOk(c, s', k) { ParkedTask(c, s, id, j, w, k); }
    forall i: nat | i < |s'.runs| ensures RunOk(c, s', i) { ParkedRun(c, s, id, j, w, i); }
    forall q: nat | q < |s'.queue| ensures EntryOk(c, s', q) { ParkedEntry(c, s, id, j, w, q); }
    forall p: nat, q: nat | p < q < |s'.queue| ensures !AtNode(s'.queue[p], s'.queue[q].taskId, s'.queue[q].nodeKey) {
      assert s'.queue[p] == s.queue[p];
      if q == |s.queue| {
        assert !AtNode(s.queue[p], id, j.key);
      }
    }
  }

  lemma QueueStepKeeps(c: Config, s: Net, id: string, j: NodeInput)
    requires Inv(c, s) && id in s.tasks && s.tasks[id] == j.task && j.key == j.task.cursor && Live(j.task)
    requires QueueNode(NodeOf(c, j.task, j.key)) && j.def == FlowOf(c.flows, j.task)
    ensures Inv(c, QueueStep(s, id, j))
  {
    assert TaskOk(c, s, id);
    AnswerIs(c, s, j);
    var w := WriteFor(s.runs, j);
    if Answer(s.runs, j).Some? {
      var q: nat :| q < |s.queue| && AtNode(s.queue[q], id, j.key);
      WriteAdvances(c, j.task, j, w, s.now);
      MovedKeeps(c, s, id, w, []);
    } else {
      ParkedKeeps(c, s, id, j, w);
    }
  }

  lemma OrdinaryStepKeeps(c: Config, s: Net, id: string, env: Env, audit: seq<NodeRun>)
    requires Inv(c, s) && id in s.tasks && Live(s.tasks[id]) && OrdinaryStep(c, s.tasks[id], env, audit)
    requires !QueueNode(NodeOf(c, s.tasks[id], s.tasks[id].cursor))
    ensures Inv(c, Moved(s, id, StepWrite(FlowOf(c.flows, s.tasks[id]), s.tasks[id], env).value, audit))
  {
    var t := s.tasks[id];
    var j := InputOf(FlowOf(c.flows, t), t);
    assert TaskOk(c, s, id);
    var w := StepWrite(FlowOf(c.flows, t), t, env).value;
    NodeStepEnds(j, env);
    WriteAdvances(c, t, j, w, s.now);
    MovedKeeps(c, s, id, w, audit);
  }

  // ---- steps of the workers and the server ------------------------------------------

  /** A change of rows that leaves every cursor, flow, key and run id alone. */
  predicate SameShape(s: Net, s': Net) {
    && s'.tasks.Keys == s.tasks.Keys && |s'.runs| == |s.runs| && |s'.queue| == |s.queue|
    && (forall id | id in s.tasks ::
          && s'.tasks[id].id == s.tasks[id].id && s'.tasks[id].flowId == s.tasks[id].flowId
          && s'.tasks[id].cursor == s.tasks[id].cursor)
    && (forall i | 0 <= i < |s.runs| ::
          s'.runs[i].taskId == s.runs[i].taskId && s'.runs[i].nodeKey == s.runs[i].nodeKey)
    && (forall q | 0 <= q < |s.queue| ::
          && s'.queue[q].taskId == s.queue[q].taskId && s'.queue[q].nodeKey == s.queue[q].nodeKey
          && s'.queue[q].runId == s.queue[q].runId)
  }

  predicate PhaseAt(s: Net, q: nat)
    requires q < |s.queue| && s.queue[q].taskId in s.tasks && s.queue[q].runId < |s.runs|
  {
    InPhase(s.queue[q], s.runs[s.queue[q].runId], s.tasks[s.queue[q].taskId], PostOf(s, q))
  }

  predicate Settled(t: Task, t': Task) {
    && t'.status != "canceling" && Agree(t')
    && (t'.status == "waiting_queue" ==> t.status == "waiting_queue")
  }

  /** For such a change only the phases and the statuses are left to check. */
  lemma ShapeKeeps(c: Config, s: Net, s': Net)
    requires Inv(c, s) && SameShape(s, s')
    requires forall id | id in s.tasks :: Settled(s.tasks[id], s'.tasks[id])
    requires forall q: nat | q < |s.queue| && s.queue[q].taskId in s.tasks && s.queue[q].runId < |s.runs| ::
      PhaseAt(s', q)
    requires forall q | q in s'.posts :: q < |s.queue|
    ensures Inv(c, s')
  {
    forall id | id in s'.tasks ensures TaskOk(c, s', id) {
      assert TaskOk(c, s, id) && Settled(s.tasks[id], s'.tasks[id]);
      if s'.tasks[id].status == "waiting_queue" {
        var q: nat :| q < |s.queue| && AtNode(s.queue[q], id, s.tasks[id].cursor);
        assert AtNode(s'.queue[q], id, s.tasks[id].cursor);
      }
    }
    forall i: nat | i < |s'.runs| ensures RunOk(c, s', i) {
      assert RunOk(c, s, i);
      if HasEntry(s, i) {
        var q: nat :| q < |s.queue| && s.queue[q].runId == i;
        assert s'.queue[q].runId == i;
      }
    }
    forall q: nat | q < |s'.queue| ensures EntryOk(c, s', q) {
      assert EntryOk(c, s, q) && PhaseAt(s', q);
    }
    forall p: nat, q: nat | p < q < |s'.queue| ensures !AtNode(s'.queue[p], s'.queue[q].taskId, s'.queue[q].nodeKey) {
      assert !AtNode(s.queue[p], s.queue[q].taskId, s.queue[q].nodeKey);
    }
  }

  /** Entries do not share runs. */
  lemma OwnRuns(c: Config, s: Net, p: nat, q: nat)
    requires Inv(c, s) && p < |s.queue| && q < |s.queue| && s.queue[p].runId == s.queue[q].runId
    ensures p == q
  {
    assert EntryOk(c, s, p) && EntryOk(c, s, q);
    SameEntry(s, p, q);
  }

  lemma PollKeeps(c: Config, s: Net, worker: string, q0: nat)
    requires Inv(c, s) && q0 < |s.queue| && s.queue[q0].status == "pending"
    ensures Inv(c, Polled(s, q0, worker))
  {
    assert EntryOk(c, s, q0);
    var s' := Polled(s, q0, worker);
    forall id | id in s.tasks ensures Settled(s.tasks[id], s'.tasks[id]) {
      assert TaskOk(c, s, id);
    }
    forall q: nat | q < |s.queue| && s.queue[q].taskId in s.tasks && s.queue[q].runId < |s.runs|
      ensures PhaseAt(s', q)
    {
      assert EntryOk(c, s, q);
    }
    ShapeKeeps(c, s, s');
  }

  /** A status reported for the run of an entry fits its phase: an open status as long as no result is stored, and the
      stored one afterwards. */
  predicate ReportFits(s: Net, q: nat, status: string) {
    if Unfinished(s, q) then status == "queued" || status == "running" else status == StatusOf(s.posts[q].error)
  }

  lemma NotOk(c: Config, s: Net, q: nat)
    requires q < |s.queue| && !EntryOk(c, s, q)
    ensures !Inv(c, s)
  {
  }

  lemma MisfitReport(c: Config, s: Net, q0: nat, status: string)
    requires q0 < |s.queue| && EntryOk(c, s, q0) && !ReportFits(s, q0, status)
    ensures !EntryOk(c, Reported(s, q0, status), q0)
  {
  }

  lemma SecondCompletion(c: Config, s: Net, q0: nat, result: Json, error: string)
    requires q0 < |s.queue| && EntryOk(c, s, q0) && !Unfinished(s, q0)
    ensures !EntryOk(c, Completed(s, q0, result, error), q0)
  {
  }

  /** handleQueueUpdateRun has no guard: a report keeps the invariant exactly if it fits. */
  lemma ReportKeeps(c: Config, s: Net, q0: nat, status: string)
    requires Inv(c, s) && q0 < |s.queue| && s.queue[q0].runId < |s.runs|
    ensures Inv(c, Reported(s, q0, status)) <==> ReportFits(s, q0, status)
  {
    assert EntryOk(c, s, q0);
    if ReportFits(s, q0, status) {
      FittingReport(c, s, q0, status);
    } else {
      MisfitReport(c, s, q0, status);
      NotOk(c, Reported(s, q0, status), q0);
    }
  }

  lemma FittingReport(c: Config, s: Net, q0: nat, status: string)
    requires Inv(c, s) && q0 < |s.queue| && s.queue[q0].runId < |s.runs| && ReportFits(s, q0, status)
    ensures Inv(c, Reported(s, q0, status))
  {
    assert EntryOk(c, s, q0);
    var s' := Reported(s, q0, status);
    forall id | id in s.tasks ensures Settled(s.tasks[id], s'.tasks[id]) {
      assert TaskOk(c, s, id);
    }
    forall q: nat | q < |s.queue| && s.queue[q].taskId in s.tasks && s.queue[q].runId < |s.runs|
      ensures PhaseAt(s', q)
    {
      assert EntryOk(c, s, q);
      if s.queue[q].runId == s.queue[q0].runId { OwnRuns(c, s, q, q0); }
    }
    ShapeKeeps(c, s, s');
  }

  /** The first step of a completion alone: after the mark of an entry, claimed or not, the stages fit exactly if no
      result of it was stored before. HandlerKeeps is about the completion as a whole. */
  lemma CompleteKeeps(c: Config, s: Net, q0: nat, result: Json, error: string)
    requires Inv(c, s) && q0 < |s.queue|
    ensures Inv(c, Completed(s, q0, result, error)) <==> Unfinished(s, q0)
  {
    assert EntryOk(c, s, q0);
    if Unfinished(s, q0) {
      FirstCompletion(c, s, q0, result, error);
    } else {
      SecondCompletion(c, s, q0, result, error);
      NotOk(c, Completed(s, q0, result, error), q0);
    }
  }

  lemma FirstCompletion(c: Config, s: Net, q0: nat, result: Json, error: string)
    requires Inv(c, s) && q0 < |s.queue| && Unfinished(s, q0)
    ensures Inv(c, Completed(s, q0, result, error))
  {
    assert EntryOk(c, s, q0);
    var s' := Completed(s, q0, result, error);
    forall id | id in s.tasks ensures Settled(s.tasks[id], s'.tasks[id]) {
      assert TaskOk(c, s, id);
    }
    forall q: nat | q < |s.queue| && s.queue[q].taskId in s.tasks && s.queue[q].runId < |s.runs|
      ensures PhaseAt(s', q)
    {
      assert EntryOk(c, s, q);
    }
    ShapeKeeps(c, s, s');
  }

  lemma SaveKeeps(c: Config, s: Net, q0: nat)
    requires Inv(c, s) && q0 < |s.queue| && q0 in s.posts && s.posts[q0].stage == Marked && s.queue[q0].runId < |s.runs|
    ensures Inv(c, Saved(s, q0))
  {
    assert EntryOk(c, s, q0);
    var s' := Saved(s, q0);
    forall id | id in s.tasks ensures Settled(s.tasks[id], s'.tasks[id]) {
      assert TaskOk(c, s, id);
    }
    forall q: nat | q < |s.queue| && s.queue[q].taskId in s.tasks && s.queue[q].runId < |s.runs|
      ensures PhaseAt(s', q)
    {
      assert EntryOk(c, s, q);
      if s.queue[q].runId == s.queue[q0].runId { OwnRuns(c, s, q, q0); }
    }
    ShapeKeeps(c, s, s');
  }

  /** Waking the task for node key takes no other node's answer away: the flow has not ended, and the task does not wait
      at another node. */
  predicate Resumable(t: Task, key: string) {
    t.cursor != "" && (t.status == "waiting_queue" ==> t.cursor == key)
  }

  predicate Placed(s: Net, q: nat) {
    q < |s.queue| && s.queue[q].taskId in s.tasks && s.queue[q].runId < |s.runs|
  }

  function TaskFor(s: Net, q: nat): Task
    requires Placed(s, q)
  {
    s.tasks[s.queue[q].taskId]
  }

  /** The task of entry q is pending again, the entry holds its result, and all other rows are as before. */
  predicate Woken(s: Net, s': Net, q: nat)
    requires Placed(s, q)
  {
    var e := s.queue[q];
    && SameShape(s, s')
    && s'.tasks == s.tasks[e.taskId := WithStatus(TaskFor(s, q), "pending", s.now)]
    && (forall p: nat | p < |s.queue| && p != q :: s'.queue[p] == s.queue[p] && PostOf(s', p) == PostOf(s, p))
    && (forall i | 0 <= i < |s.runs| && i != e.runId :: s'.runs[i] == s.runs[i])
    && (forall p | p in s'.posts :: p == q || p in s.posts)
    && q in s'.posts && s'.posts[q].stage == Resumed
    && s'.queue[q].status == "completed" && Holds(s'.runs[e.runId], s'.posts[q])
  }

  lemma FittingWake(c: Config, s: Net, s': Net, q0: nat)
    requires Inv(c, s) && Placed(s, q0) && Woken(s, s', q0) && Resumable(TaskFor(s, q0), s.queue[q0].nodeKey)
    ensures Inv(c, s')
  {
    assert EntryOk(c, s, q0);
    forall id | id in s.tasks ensures Settled(s.tasks[id], s'.tasks[id]) {
      assert TaskOk(c, s, id);
    }
    forall q: nat | q < |s.queue| && s.queue[q].taskId in s.tasks && s.queue[q].runId < |s.runs|
      ensures PhaseAt(s', q)
    {
      assert EntryOk(c, s, q);
      if s.queue[q].runId == s.queue[q0].runId { OwnRuns(c, s, q, q0); }
      if AtNode(s.queue[q], s.queue[q0].taskId, s.queue[q0].nodeKey) { SameEntry(s, q, q0); }
    }
    ShapeKeeps(c, s, s');
  }

  lemma NotTaskOk(c: Config, s: Net, id: string)
    requires id in s.tasks && !TaskOk(c, s, id)
    ensures !Inv(c, s)
  {
  }

  /** A task that is made pending while it waits for entry p leaves that entry without a result. */
  lemma LostWait(c: Config, s: Net, s': Net, p: nat)
    requires p < |s.queue| && EntryOk(c, s, p) && Waits(TaskFor(s, p), s.queue[p].nodeKey)
    requires p < |s'.queue| && s'.queue[p] == s.queue[p] && PostOf(s', p) == PostOf(s, p)
    requires s.queue[p].taskId in s'.tasks && s'.tasks[s.queue[p].taskId].status == "pending"
    requires s'.tasks[s.queue[p].taskId].cursor == TaskFor(s, p).cursor
    ensures !EntryOk(c, s', p)
  {
  }

  lemma MisfitWake(c: Config, s: Net, s': Net, q0: nat)
    requires Inv(c, s) && Placed(s, q0) && Woken(s, s', q0) && !Resumable(TaskFor(s, q0), s.queue[q0].nodeKey)
    ensures !Inv(c, s')
  {
    var id := s.queue[q0].taskId;
    assert TaskOk(c, s, id);
    if s.tasks[id].cursor == "" {
      NotTaskOk(c, s', id);
    } else {
      var p: nat :| p < |s.queue| && AtNode(s.queue[p], id, s.tasks[id].cursor);
      assert EntryOk(c, s, p);
      LostWait(c, s, s', p);
      NotOk(c, s', p);
    }
  }

  lemma EarlyWake(c: Config, s: Net, q0: nat)
    requires Placed(s, q0) && q0 in s.posts && s.posts[q0].stage == Marked && EntryOk(c, s, q0)
    ensures !EntryOk(c, WokenUp(s, q0), q0)
  {
  }

  /** The wake at the end of a completion has no guard: while no result is stored it breaks the invariant, and after
      that it keeps it exactly if the task has not ended and waits at no other node. */
  lemma WakeKeeps(c: Config, s: Net, q0: nat)
    requires Inv(c, s) && Placed(s, q0) && q0 in s.posts
    ensures var t := TaskFor(s, q0);
      Inv(c, WokenUp(s, q0)) <==> s.posts[q0].stage != Marked && Resumable(t, s.queue[q0].nodeKey)
  {
    assert EntryOk(c, s, q0);
    var s' := WokenUp(s, q0);
    if s.posts[q0].stage == Marked {
      EarlyWake(c, s, q0);
      NotOk(c, s', q0);
    } else if Resumable(TaskFor(s, q0), s.queue[q0].nodeKey) {
      FittingWake(c, s, s', q0);
    } else {
      MisfitWake(c, s, s', q0);
    }
  }

  /** All three steps of a completion at once. */
  function Handled(s: Net, q: nat, result: Json, error: string): Net
    requires Placed(s, q)
  {
    WokenUp(Saved(Completed(s, q, result, error), q), q)
  }

  lemma HandledIsWoken(s: Net, q: nat, result: Json, error: string)
    requires Placed(s, q)
    ensures Woken(s, Handled(s, q, result, error), q)
  {
    assert PostOf(Handled(s, q, result, error), q) == Some(Posting(result, error, Resumed));
  }

  /** The completion handler has no guard either. Run without interruption it keeps the invariant exactly if the task
      has not ended and waits at no other node, whether the entry is claimed or not, for the first time or again. */
  lemma HandlerKeeps(c: Config, s: Net, q0: nat, result: Json, error: string)
    requires Inv(c, s) && Placed(s, q0)
    ensures Inv(c, Handled(s, q0, result, error)) <==> Resumable(TaskFor(s, q0), s.queue[q0].nodeKey)
  {
    var s' := Handled(s, q0, result, error);
    HandledIsWoken(s, q0, result, error);
    if Resumable(TaskFor(s, q0), s.queue[q0].nodeKey) {
      FittingWake(c, s, s', q0);
    } else {
      MisfitWake(c, s, s', q0);
    }
  }

  lemma WakeStep(c: Config, s: Net, q0: nat)
    requires Inv(c, s) && q0 < |s.queue| && q0 in s.posts && s.posts[q0].stage == Stored
    requires s.queue[q0].taskId in s.tasks
    ensures Inv(c, WokenUp(s, q0))
  {
    assert EntryOk(c, s, q0);
    WakeKeeps(c, s, q0);
  }

  lemma LeaseKeeps(c: Config, s: Net, id0: string, owner: string, ttl: int)
    requires Inv(c, s) && id0 in s.tasks && Leasable(s.tasks[id0], s.now)
    ensures Inv(c, LeasedTo(s, id0, owner, ttl))
  {
    var s' := LeasedTo(s, id0, owner, ttl);
    forall id | id in s.tasks ensures Settled(s.tasks[id], s'.tasks[id]) {
      assert TaskOk(c, s, id);
    }
    forall q: nat | q < |s.queue| && s.queue[q].taskId in s.tasks && s.queue[q].runId < |s.runs|
      ensures PhaseAt(s', q)
    {
      assert EntryOk(c, s, q);
    }
    ShapeKeeps(c, s, s');
  }

  lemma TickKeeps(c: Config, s: Net, d: nat)
    requires Inv(c, s)
    ensures Inv(c, s.(now := s.now + d))
  {
    var s' := s.(now := s.now + d);
    forall id | id in s.tasks ensures Settled(s.tasks[id], s'.tasks[id]) {
      assert TaskOk(c, s, id);
    }
    forall q: nat | q < |s.queue| && s.queue[q].taskId in s.tasks && s.queue[q].runId < |s.runs|
      ensures PhaseAt(s', q)
    {
      assert EntryOk(c, s, q);
    }
    ShapeKeeps(c, s, s');
  }

  lemma InvStep(c: Config, s: Net, a: Action)
    requires Inv(c, s)
    ensures Inv(c, Do(c, s, a))
  {
    if Enabled(c, s, a) {
      match a
      case Tick(d) => TickKeeps(c, s, d);
      case Lease(id, owner, ttl) => LeaseKeeps(c, s, id, owner, ttl);
      case Poll(worker, _, q) => PollKeeps(c, s, worker, q);
      case Report(q, status) => ReportKeeps(c, s, q, status);
      case MarkDone(q, result, error) => CompleteKeeps(c, s, q, result, error);
      case Save(q) => SaveKeeps(c, s, q);
      case Wake(q) => WakeStep(c, s, q);
      case StepTask(id, env, audit) =>
        var t := s.tasks[id];
        if QueueNode(NodeOf(c, t, t.cursor)) {
          QueueStepKeeps(c, s, id, InputOf(FlowOf(c.flows, t), t));
        } else {
          OrdinaryStepKeeps(c, s, id, env, audit);
        }
    }
  }
}
