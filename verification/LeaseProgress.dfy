/** What leases do not prevent: new and abandoned tasks can be leased, and an engine that has a lease takes its step
    (cmd/scheduler/main.go:113-143). */
module LeaseProgress {
  import opened Json
  import opened Types
  import opened Store
  import opened Core
  import opened Step
  import opened Lease

  // ---- taking a lease ---------------------------------------------------------------

  /** A pending or running row without a lease, or with one that has run out. */
  predicate Free(t: Task, now: int) {
    && (t.status == "pending" || t.status == "running")
    && (t.leaseExpiry == 0 || t.leaseExpiry < now)
  }

  /** An idle owner can lease a task when there is a free one: that one, or another that was not updated later. */
  lemma IdleOwnerLeases(c: Setting, s: Sys, p: string, id: string) returns (k: string)
    requires s.Of(p).Idle? && id in s.tasks && Free(s.tasks[id], s.now)
    ensures Enabled(c, s, Action.Lease(p, k)) && s.tasks[k].updatedAt <= s.tasks[id].updatedAt
    ensures Do(c, s, Action.Lease(p, k)).Of(p) == Holding(k)
    ensures c.ttl > 0 ==> Owns(Do(c, s, Action.Lease(p, k)).tasks[k], p, s.now)
    ensures (forall k' | k' in s.tasks && k' != id && Free(s.tasks[k'], s.now) ::
      s.tasks[id].updatedAt < s.tasks[k'].updatedAt) ==> k == id
  {
    var free := set k | k in s.tasks && Free(s.tasks[k], s.now);
    assert id in free;
    k := OldestExists(s.tasks, s.now, free);
    assert forall k' | k' in s.tasks && Leasable(s.tasks[k'], s.now) :: k' in free;
    assert Oldest(s.tasks, s.now, k);
  }

  /** A new task is free at once. */
  lemma NewTaskLeases(c: Setting, s: Sys, p: string, id: string, t: Task) returns (k: string)
    requires s.Of(p).Idle? && id in s.tasks && s.tasks[id] == t
    requires t == NewTask(id, t.flowId, t.params, t.cursor, t.updatedAt)
    ensures Enabled(c, s, Action.Lease(p, k)) && s.tasks[k].updatedAt <= t.updatedAt
  {
    k := IdleOwnerLeases(c, s, p, id);
  }

  // ---- abandoned tasks --------------------------------------------------------------

  /** Owner o takes no action, the task is not leased, and no other engine is refused it. */
  predicate Untouched(tr: Trace, m: nat, id: string, o: string)
    requires tr.Valid() && m < |tr.acts|
  {
    Actor(tr.acts[m]) != Some(o) && !Leases(tr, m, id) && !Refuses(tr, m, id)
  }

  lemma UntouchedStep(tr: Trace, m: nat, id: string, o: string)
    requires tr.Valid() && m < |tr.acts| && id in tr.states[m].tasks && tr.states[m].tasks[id].leaseOwner == o
    requires Untouched(tr, m, id, o)
    ensures id in tr.states[m + 1].tasks && tr.states[m + 1].tasks[id] == tr.states[m].tasks[id]
  {
  }

  lemma {:induction false} UntouchedRun(tr: Trace, i: nat, k: nat, id: string, o: string)
    requires tr.Valid() && i <= k < |tr.states|
    requires id in tr.states[i].tasks && tr.states[i].tasks[id].leaseOwner == o
    requires forall m: nat | i <= m < k :: Untouched(tr, m, id, o)
    ensures id in tr.states[k].tasks && tr.states[k].tasks[id] == tr.states[i].tasks[id]
  {
    if i < k {
      var m := k - 1;
      UntouchedRun(tr, i, m, id, o);
      UntouchedStep(tr, m, id, o);
    }
  }

  /** A task whose owner has left keeps its row, and once the clock has passed its expiry an idle owner can lease it, or
      another free task that was not updated later. */
  lemma AbandonedIsLeased(tr: Trace, i: nat, k: nat, id: string, o: string, p: string) returns (other: string)
    requires tr.Valid() && i < k < |tr.states| && tr.acts[i] == Leave(o)
    requires id in tr.states[i].tasks && tr.states[i].tasks[id].leaseOwner == o
    requires tr.states[i].tasks[id].status == "pending" || tr.states[i].tasks[id].status == "running"
    requires forall m: nat | i < m < k :: Untouched(tr, m, id, o)
    requires tr.states[k].now > tr.states[i].tasks[id].leaseExpiry && tr.states[k].Of(p).Idle?
    ensures id in tr.states[k].tasks && tr.states[k].tasks[id] == tr.states[i].tasks[id]
    ensures Enabled(tr.c, tr.states[k], Action.Lease(p, other))
    ensures tr.states[k].tasks[other].updatedAt <= tr.states[i].tasks[id].updatedAt
  {
    assert tr.states[i + 1].tasks == tr.states[i].tasks;
    UntouchedRun(tr, i + 1, k, id, o);
    other := IdleOwnerLeases(tr.c, tr.states[k], p, id);
  }

  // ---- a round ----------------------------------------------------------------------

  /** Action a is enabled in s and leads to s'. */
  predicate Takes(c: Setting, s: Sys, a: Action, s': Sys) {
    Enabled(c, s, a) && s' == Do(c, s, a)
  }

  lemma ExtendReads(c: Setting, s: Sys, o: string, id: string) returns (s1: Sys, s2: Sys)
    requires s.Of(o) == Holding(id) && id in s.tasks && s.tasks[id].leaseOwner == o && c.ttl > 0
    requires s.tasks[id].status != "canceling" && s.tasks[id].flowId in c.flows
    ensures Takes(c, s, Extend(o), s1) && Takes(c, s1, Read(o), s2) && s2.now == s.now
    ensures var t := s.tasks[id].(leaseExpiry := s.now + c.ttl);
      s2.tasks == s.tasks[id := t] && s2.Of(o) == Ready(id, t)
  {
    s1 := Do(c, s, Extend(o));
    s2 := Do(c, s1, Read(o));
  }

  lemma BothWrites(c: Setting, s: Sys, o: string, id: string, env: Env, w: Write) returns (s1: Sys, s2: Sys)
    requires id in s.tasks && s.Of(o) == Ready(id, s.tasks[id]) && Owns(s.tasks[id], o, s.now)
    requires WriteOf(c, s.tasks[id], env) == Some(w)
    ensures Takes(c, s, WriteStatus(o, env), s1) && Takes(c, s1, WriteProgress(o), s2)
    ensures s2.tasks == s.tasks[id := Land(s.tasks[id], w, s.now)] && s2.Of(o) == Looking(id)
  {
    s1 := Do(c, s, WriteStatus(o, env));
    s2 := Do(c, s1, WriteProgress(o));
  }

  /** An engine that has the lease of a task takes its step: it can extend, read, write the status, write the progress
      and look, one after the other, and the row is then the one RunOnce makes of it; no other row has changed. */
  lemma RoundTakesStep(c: Setting, s: Sys, o: string, id: string, env: Env)
    returns (s1: Sys, s2: Sys, s3: Sys, s4: Sys, s5: Sys)
    requires s.Of(o) == Holding(id) && id in s.tasks && s.tasks[id].leaseOwner == o && c.ttl > 0
    requires s.tasks[id].status != "canceling" && s.tasks[id].flowId in c.flows && env.Now() == s.now
    requires WriteOf(c, s.tasks[id].(leaseExpiry := s.now + c.ttl), env).Some?
    ensures Takes(c, s, Extend(o), s1) && Takes(c, s1, Read(o), s2) && Takes(c, s2, WriteStatus(o, env), s3)
    ensures Takes(c, s3, WriteProgress(o), s4) && Takes(c, s4, Look(o), s5)
    ensures var t := s.tasks[id].(leaseExpiry := s.now + c.ttl);
      s5.tasks == s.tasks[id := Advance(FlowOf(c.flows, t), t, env)]
    ensures s5.Of(o) == if StopsAt(s5.tasks[id]) then Idle else Holding(id)
  {
    var t := s.tasks[id].(leaseExpiry := s.now + c.ttl);
    s1, s2 := ExtendReads(c, s, o, id);
    s3, s4 := BothWrites(c, s2, o, id, env, WriteOf(c, t, env).value);
    s5 := Do(c, s4, Look(o));
    assert s.tasks[id := t][id := s4.tasks[id]] == s.tasks[id := s4.tasks[id]];
  }
}
