/** What the pull protocol does not prevent: a pending entry can be worked on until its task has taken the result. */
module QueueRounds {
  import opened Json
  import opened Types
  import opened Store
  import opened Core
  import opened Step
  import opened QueueProtocol
  import opened QueueRuns

  predicate Takes(c: Config, s: Net, a: Action, s': Net) {
    Enabled(c, s, a) && s' == Do(c, s, a)
  }

  // ---- a woken task -----------------------------------------------------------------

  predicate Steps(a: Action, id: string) {
    a.StepTask? && a.id == id
  }

  lemma LiveStep(c: Config, s: Net, a: Action, id: string)
    requires id in s.tasks && Live(s.tasks[id]) && !Steps(a, id)
    ensures id in Do(c, s, a).tasks && Live(Do(c, s, a).tasks[id])
  {
  }

  lemma {:induction false} LiveRun(tr: Trace, i: nat, k: nat, id: string)
    requires tr.Valid() && i <= k < |tr.states| && id in tr.states[i].tasks && Live(tr.states[i].tasks[id])
    requires forall m: nat | i <= m < k :: !Steps(tr.acts[m], id)
    ensures id in tr.states[k].tasks && Live(tr.states[k].tasks[id])
  {
    if i < k {
      var m := k - 1;
      LiveRun(tr, i, m, id);
      LiveStep(tr.c, tr.states[m], tr.acts[m], id);
    }
  }

  /** A task that a completion has woken can be leased from then on until it is stepped, whenever its lease is free:
      zero or past. */
  lemma WokenLeases(tr: Trace, i: nat, k: nat, q: nat, owner: string, ttl: int)
    requires tr.Valid() && i < k < |tr.states|
    requires tr.acts[i] == Wake(q) && Enabled(tr.c, tr.states[i], tr.acts[i])
    requires forall m: nat | i < m < k :: !Steps(tr.acts[m], tr.states[i].queue[q].taskId)
    ensures var id := tr.states[i].queue[q].taskId;
      && id in tr.states[k].tasks
      && (tr.states[k].tasks[id].leaseExpiry == 0 || tr.states[k].tasks[id].leaseExpiry < tr.states[k].now ==>
            Enabled(tr.c, tr.states[k], Action.Lease(id, owner, ttl)))
  {
    LiveRun(tr, i + 1, k, tr.states[i].queue[q].taskId);
  }

  // ---- the whole way ----------------------------------------------------------------

  lemma ClaimAndMark(c: Config, s: Net, q: nat, worker: string, services: seq<string>, result: Json, error: string)
    returns (s1: Net, s2: Net)
    requires Inv(c, s) && ClaimTarget(s.queue, services, q)
    ensures Takes(c, s, Poll(worker, services, q), s1) && Takes(c, s1, MarkDone(q, result, error), s2) && Inv(c, s2)
    ensures s2.tasks == s.tasks && s2.runs == s.runs && s2.now == s.now && |s2.queue| == |s.queue|
    ensures q in s2.posts && s2.posts[q] == Posting(result, error, Marked)
    ensures AtNode(s2.queue[q], s.queue[q].taskId, s.queue[q].nodeKey) && s2.queue[q].runId == s.queue[q].runId
  {
    assert EntryOk(c, s, q);
    s1 := Do(c, s, Poll(worker, services, q));
    s2 := Do(c, s1, MarkDone(q, result, error));
    InvStep(c, s, Poll(worker, services, q));
    InvStep(c, s1, MarkDone(q, result, error));
  }

  lemma SaveAndWake(c: Config, s: Net, q: nat) returns (s1: Net, s2: Net)
    requires Inv(c, s) && q < |s.queue| && q in s.posts && s.posts[q].stage == Marked
    ensures Takes(c, s, Save(q), s1) && Takes(c, s1, Wake(q), s2) && Inv(c, s2)
    ensures var id := s.queue[q].taskId;
      id in s.tasks && s2.tasks == s.tasks[id := WithStatus(s.tasks[id], "pending", s.now)]
    ensures s2.now == s.now && s2.queue == s.queue && q in s2.posts && s2.posts[q] == s.posts[q].(stage := Resumed)
  {
    assert EntryOk(c, s, q);
    s1 := Do(c, s, Save(q));
    s2 := Do(c, s1, Wake(q));
    InvStep(c, s, Save(q));
    InvStep(c, s1, Wake(q));
  }

  lemma WaitAndLease(c: Config, s: Net, id: string, d: nat, owner: string, ttl: int) returns (s1: Net, s2: Net)
    requires Inv(c, s) && id in s.tasks && s.tasks[id].status == "pending" && s.tasks[id].leaseExpiry < s.now + d
    ensures Takes(c, s, Tick(d), s1) && Takes(c, s1, Action.Lease(id, owner, ttl), s2) && Inv(c, s2)
    ensures var t := s.tasks[id].(leaseOwner := owner, leaseExpiry := s.now + d + ttl, status := "running");
      s2.tasks == s.tasks[id := t]
    ensures s2.queue == s.queue && s2.posts == s.posts
  {
    s1 := Do(c, s, Tick(d));
    s2 := Do(c, s1, Action.Lease(id, owner, ttl));
    InvStep(c, s, Tick(d));
    InvStep(c, s1, Action.Lease(id, owner, ttl));
  }

  /** The entry is completed with a posting, and its task is at the node with the state and parameters of t. */
  predicate ReadyToResume(c: Config, s: Net, q: nat, t: Task, result: Json, error: string) {
    && q < |s.queue| && s.queue[q].taskId == t.id && s.queue[q].nodeKey == t.cursor
    && q in s.posts && s.posts[q] == Posting(result, error, Resumed)
    && t.id in s.tasks && s.tasks[t.id].status == "running" && s.tasks[t.id].cursor == t.cursor
    && s.tasks[t.id].flowId == t.flowId && s.tasks[t.id].shared == t.shared && s.tasks[t.id].params == t.params
  }

  lemma WorkAndLease(c: Config, s: Net, q: nat, worker: string, services: seq<string>, result: Json, error: string,
      d: nat, owner: string, ttl: int) returns (s1: Net, s2: Net, s3: Net, s4: Net, s5: Net, s6: Net)
    requires Inv(c, s) && ClaimTarget(s.queue, services, q) && s.queue[q].taskId in s.tasks
    requires s.tasks[s.queue[q].taskId].leaseExpiry < s.now + d
    ensures Takes(c, s, Poll(worker, services, q), s1) && Takes(c, s1, MarkDone(q, result, error), s2)
    ensures Takes(c, s2, Save(q), s3) && Takes(c, s3, Wake(q), s4)
    ensures Takes(c, s4, Tick(d), s5) && Takes(c, s5, Action.Lease(s.queue[q].taskId, owner, ttl), s6)
    ensures Inv(c, s6) && ReadyToResume(c, s6, q, s.tasks[s.queue[q].taskId], result, error)
  {
    assert EntryOk(c, s, q) && TaskOk(c, s, s.queue[q].taskId);
    s1, s2 := ClaimAndMark(c, s, q, worker, services, result, error);
    s3, s4 := SaveAndWake(c, s2, q);
    s5, s6 := WaitAndLease(c, s4, s.queue[q].taskId, d, owner, ttl);
  }

  lemma Resumes(c: Config, s: Net, q: nat, t: Task, result: Json, error: string, env: Env) returns (s': Net)
    requires Inv(c, s) && ReadyToResume(c, s, q, t, result, error)
    ensures Takes(c, s, StepTask(t.id, env, []), s') && t.id in s'.tasks && s'.queue == s.queue
    ensures Continues(InputOf(FlowOf(c.flows, s.tasks[t.id]), s.tasks[t.id]), s'.tasks[t.id], result, error)
  {
    assert EntryOk(c, s, q);
    s' := Do(c, s, StepTask(t.id, env, []));
    StepDelivers(c, s, q, env, []);
  }

  /** A pending entry that is next for some services makes its way: it can be claimed, completed with any result, stored
      and woken; once the lease of its task has run out the task can be leased and stepped, and the step takes exactly
      that result into the state the task has had since it parked. */
  lemma WholeRound(c: Config, s: Net, q: nat, worker: string, services: seq<string>, result: Json, error: string,
      d: nat, owner: string, ttl: int, env: Env)
    returns (s1: Net, s2: Net, s3: Net, s4: Net, s5: Net, s6: Net, s7: Net)
    requires Inv(c, s) && ClaimTarget(s.queue, services, q) && s.queue[q].taskId in s.tasks
    requires s.tasks[s.queue[q].taskId].leaseExpiry < s.now + d
    ensures Takes(c, s, Poll(worker, services, q), s1) && Takes(c, s1, MarkDone(q, result, error), s2)
    ensures Takes(c, s2, Save(q), s3) && Takes(c, s3, Wake(q), s4)
    ensures Takes(c, s4, Tick(d), s5) && Takes(c, s5, Action.Lease(s.queue[q].taskId, owner, ttl), s6)
    ensures var t := s.tasks[s.queue[q].taskId];
      && Takes(c, s6, StepTask(t.id, env, []), s7) && t.id in s7.tasks && s7.queue == s6.queue
      && ReadyToResume(c, s6, q, t, result, error)
      && Continues(InputOf(FlowOf(c.flows, s6.tasks[t.id]), s6.tasks[t.id]), s7.tasks[t.id], result, error)
  {
    s1, s2, s3, s4, s5, s6 := WorkAndLease(c, s, q, worker, services, result, error, d, owner, ttl);
    s7 := Resumes(c, s6, q, s.tasks[s.queue[q].taskId], result, error, env);
  }
}
