/** Several engines share the task table: the scheduler loop of each owner (cmd/scheduler/main.go:113-143) over the
    leasing and owned updates of the store, interleaved in any order, with crashes and a monotone clock. */
module Lease {
  import opened Json
  import opened Types
  import opened Store
  import opened Core
  import opened Step

  /** Where an owner's loop stands: between tasks, before a step, after RunOnce has read and checked the row,
      between its two writes, and before it looks whether to go on. */
  datatype Local =
    | Idle
    | Holding(id: string)
    | Ready(id: string, snap: Task)
    | Half(id: string, snap: Task, w: Write)
    | Looking(id: string)

  datatype Sys = Sys(tasks: map<string, Task>, now: int, owners: map<string, Local>) {
    function Of(o: string): Local {
      if o in owners then owners[o] else Idle
    }
  }

  datatype Action =
    | Tick(d: nat)
    | Lease(o: string, id: string)
    | Extend(o: string)
    | Read(o: string)
    | Refused(o: string)
    | WriteStatus(o: string, env: Env)
    | WriteProgress(o: string)
    | Look(o: string)
    | Leave(o: string)

  /** What the run depends on: the flows and the lease time, the same for all owners. */
  datatype Setting = Setting(flows: map<string, Flow>, ttl: int)

  function WriteOf(c: Setting, t: Task, env: Env): Option<Write> {
    StepWrite(FlowOf(c.flows, t), t, env)
  }

  /** RunOnce gets as far as the node: the lease is held, the flow exists, and no cancel was requested. */
  predicate Readable(c: Setting, t: Task, o: string, now: int) {
    Owns(t, o, now) && t.status != "canceling" && t.flowId in c.flows
  }

  predicate StopsAt(t: Task) {
    t.status == "completed" || t.status == "failed" || t.status == "waiting_queue" || t.cursor == ""
  }

  /** Leave is a crash, at any point: the owner forgets what it was doing. An owner whose step is refused marks the
      task as failed, without being asked whether it holds the lease. */
  predicate Enabled(c: Setting, s: Sys, a: Action) {
    match a
    case Tick(_) => true
    case Lease(o, id) => s.Of(o).Idle? && Oldest(s.tasks, s.now, id)
    case Extend(o) => s.Of(o).Holding? && s.Of(o).id in s.tasks
    case Read(o) => s.Of(o).Holding? && s.Of(o).id in s.tasks && Readable(c, s.tasks[s.Of(o).id], o, s.now)
    case Refused(o) => s.Of(o).Holding? && s.Of(o).id in s.tasks &&
      (!Owns(s.tasks[s.Of(o).id], o, s.now) || s.tasks[s.Of(o).id].flowId !in c.flows)
    case WriteStatus(o, env) => s.Of(o).Ready? && s.Of(o).id in s.tasks && WriteOf(c, s.Of(o).snap, env).Some?
    case WriteProgress(o) => s.Of(o).Half? && s.Of(o).id in s.tasks
    case Look(o) => s.Of(o).Looking? && s.Of(o).id in s.tasks
    case Leave(o) => true
  }

  function WithRow(s: Sys, id: string, t: Task, o: string, l: Local): Sys {
    s.(tasks := s.tasks[id := t], owners := s.owners[o := l])
  }

  function Do(c: Setting, s: Sys, a: Action): Sys {
    if !Enabled(c, s, a) then s
    else
      match a
      case Tick(d) => s.(now := s.now + d)
      case Lease(o, id) => WithRow(s, id, Leased(s.tasks[id], o, c.ttl, s.now), o, Holding(id))
      case Extend(o) =>
        var id := s.Of(o).id;
        WithRow(s, id, Extended(s.tasks[id], o, c.ttl, s.now), o, Holding(id))
      case Read(o) =>
        var id := s.Of(o).id;
        s.(owners := s.owners[o := Ready(id, s.tasks[id])])
      case Refused(o) =>
        var id := s.Of(o).id;
        WithRow(s, id, WithStatus(s.tasks[id], "failed", s.now), o, Idle)
      case WriteStatus(o, env) =>
        var Ready(id, snap) := s.Of(o);
        var w := WriteOf(c, snap, env).value;
        WithRow(s, id, if Owns(s.tasks[id], o, s.now) then WithStatus(s.tasks[id], w.status, s.now) else s.tasks[id],
          o, Half(id, snap, w))
      case WriteProgress(o) =>
        var Half(id, snap, w) := s.Of(o);
        WithRow(s, id,
          if Owns(s.tasks[id], o, s.now) then WithProgress(s.tasks[id], w.cursor, w.action, w.shared, w.steps, s.now)
          else s.tasks[id],
          o, Looking(id))
      case Look(o) =>
        var id := s.Of(o).id;
        s.(owners := s.owners[o := if StopsAt(s.tasks[id]) then Idle else Holding(id)])
      case Leave(o) => s.(owners := s.owners[o := Idle])
  }

  // ---- runs -------------------------------------------------------------------------

  datatype Trace = Trace(c: Setting, states: seq<Sys>, acts: seq<Action>) {
    ghost predicate Valid() {
      && |states| == |acts| + 1
      && forall k | 0 <= k < |acts| :: states[k + 1] == Do(c, states[k], acts[k])
    }
  }

  /** Action k gives owner o the lease of the task: a new lease, or an extension of one that o already has. */
  predicate Grants(tr: Trace, k: nat, id: string, o: string)
    requires tr.Valid() && k < |tr.acts|
  {
    var s, a := tr.states[k], tr.acts[k];
    && Enabled(tr.c, s, a)
    && ((a.Lease? && a.o == o && a.id == id)
        || (a.Extend? && a.o == o && s.Of(o).id == id && s.tasks[id].leaseOwner == o))
  }

  predicate Leases(tr: Trace, k: nat, id: string)
    requires tr.Valid() && k < |tr.acts|
  {
    tr.acts[k].Lease? && tr.acts[k].id == id && Enabled(tr.c, tr.states[k], tr.acts[k])
  }

  function Actor(a: Action): Option<string> {
    match a
    case Tick(_) => None
    case Lease(o, _) => Some(o)
    case Extend(o) => Some(o)
    case Read(o) => Some(o)
    case Refused(o) => Some(o)
    case WriteStatus(o, _) => Some(o)
    case WriteProgress(o) => Some(o)
    case Look(o) => Some(o)
    case Leave(o) => Some(o)
  }

  predicate Busy(l: Local, id: string) {
    (l.Ready? || l.Half?) && l.id == id
  }

  // ---- fencing ----------------------------------------------------------------------

  /** Only leasing changes the owner of a row. */
  lemma OwnerChanges(c: Setting, s: Sys, a: Action, id: string)
    requires id in s.tasks
    ensures id in Do(c, s, a).tasks
    ensures if a.Lease? && a.id == id && Enabled(c, s, a) then Do(c, s, a).tasks[id].leaseOwner == a.o
            else Do(c, s, a).tasks[id].leaseOwner == s.tasks[id].leaseOwner
  {
  }

  /** Between the read of a step and any moment at which its owner still has the lease, nobody leased the task,
      not even the owner itself. */
  lemma {:induction false} NoLeaseWhileBusy(tr: Trace, o: string, id: string, r: nat, k: nat)
    requires tr.Valid() && r <= k < |tr.states| && id in tr.states[r].tasks
    requires forall i | r <= i <= k :: Busy(tr.states[i].Of(o), id)
    ensures id in tr.states[k].tasks
    ensures tr.states[k].tasks[id].leaseOwner == o ==> forall m | r <= m < k :: !Leases(tr, m, id)
  {
    if r < k {
      NoLeaseWhileBusy(tr, o, id, r, k - 1);
      OwnerChanges(tr.c, tr.states[k - 1], tr.acts[k - 1], id);
    }
  }

  /** Fencing over whole runs: when a write of owner o takes effect at k, its step having read the row at r, no
      owner leased the task in between. */
  lemma Fencing(tr: Trace, o: string, id: string, r: nat, k: nat)
    requires tr.Valid() && r < k < |tr.acts|
    requires tr.acts[r] == Read(o) && Enabled(tr.c, tr.states[r], tr.acts[r]) && tr.states[r].Of(o).id == id
    requires forall i | r < i <= k :: Busy(tr.states[i].Of(o), id)
    requires tr.acts[k].WriteStatus? || tr.acts[k].WriteProgress?
    requires tr.acts[k].o == o && Enabled(tr.c, tr.states[k], tr.acts[k])
    requires id in tr.states[k].tasks && Owns(tr.states[k].tasks[id], o, tr.states[k].now)
    ensures forall m | r <= m <= k :: !Leases(tr, m, id)
  {
    OwnerChanges(tr.c, tr.states[r], tr.acts[r], id);
    NoLeaseWhileBusy(tr, o, id, r + 1, k);
  }

  // ---- lease intervals --------------------------------------------------------------

  lemma {:induction false} ClockIsMonotone(tr: Trace, i: nat, k: nat)
    requires tr.Valid() && i <= k < |tr.states|
    ensures tr.states[i].now <= tr.states[k].now
  {
    if i < k {
      ClockIsMonotone(tr, i, k - 1);
    }
  }

  /** No lease reaches further than the lease time from now. */
  predicate ShortLease(s: Sys, id: string, ttl: int) {
    id in s.tasks && s.tasks[id].leaseExpiry <= s.now + ttl
  }

  lemma ExpiryStep(c: Setting, s: Sys, a: Action, id: string)
    requires ShortLease(s, id, c.ttl)
    ensures ShortLease(Do(c, s, a), id, c.ttl)
    ensures s.tasks[id].leaseExpiry <= Do(c, s, a).tasks[id].leaseExpiry
  {
  }

  lemma {:induction false} ExpiryIsMonotone(tr: Trace, id: string, i: nat, k: nat)
    requires tr.Valid() && i <= k < |tr.states| && ShortLease(tr.states[i], id, tr.c.ttl)
    ensures ShortLease(tr.states[k], id, tr.c.ttl)
    ensures tr.states[i].tasks[id].leaseExpiry <= tr.states[k].tasks[id].leaseExpiry
  {
    if i < k {
      ExpiryIsMonotone(tr, id, i, k - 1);
      ExpiryStep(tr.c, tr.states[k - 1], tr.acts[k - 1], id);
    }
  }

  /** A change of owner goes through a lease. */
  lemma {:induction false} LeaseBetween(tr: Trace, id: string, i: nat, k: nat) returns (m: nat)
    requires tr.Valid() && i <= k < |tr.states| && id in tr.states[i].tasks && id in tr.states[k].tasks
    requires tr.states[i].tasks[id].leaseOwner != tr.states[k].tasks[id].leaseOwner
    ensures i <= m < k && Leases(tr, m, id)
    decreases k - i
  {
    OwnerChanges(tr.c, tr.states[i], tr.acts[i], id);
    if Leases(tr, i, id) {
      m := i;
    } else {
      m := LeaseBetween(tr, id, i + 1, k);
    }
  }

  lemma GrantMakesOwner(tr: Trace, k: nat, id: string, o: string)
    requires tr.Valid() && k < |tr.acts| && Grants(tr, k, id, o)
    ensures id in tr.states[k + 1].tasks && tr.states[k + 1].tasks[id].leaseOwner == o
    ensures tr.states[k + 1].tasks[id].leaseExpiry == tr.states[k].now + tr.c.ttl
  {
  }

  /** A task is leased only after every lease or extension granted before has run out. */
  lemma LeaseAfterExpiry(tr: Trace, id: string, i: nat, k: nat, o: string)
    requires tr.Valid() && i < k < |tr.acts| && ShortLease(tr.states[i], id, tr.c.ttl)
    requires Grants(tr, i, id, o) && Leases(tr, k, id)
    requires 0 < tr.states[i].now + tr.c.ttl
    ensures tr.states[i].now + tr.c.ttl < tr.states[k].now
  {
    GrantMakesOwner(tr, i, id, o);
    ExpiryStep(tr.c, tr.states[i], tr.acts[i], id);
    ExpiryIsMonotone(tr, id, i + 1, k);
  }

  /** Lease intervals of different owners never overlap, although an extension can revive an expired lease: the
      interval granted by an earlier action has ended before the one granted to another owner begins. */
  lemma LeaseIntervalsDisjoint(tr: Trace, id: string, i: nat, k: nat, o: string, p: string)
    requires tr.Valid() && i < k < |tr.acts| && ShortLease(tr.states[i], id, tr.c.ttl)
    requires Grants(tr, i, id, o) && Grants(tr, k, id, p) && o != p
    requires 0 < tr.states[i].now + tr.c.ttl
    ensures tr.states[i].now + tr.c.ttl < tr.states[k].now
  {
    if Leases(tr, k, id) {
      LeaseAfterExpiry(tr, id, i, k, o);
    } else {
      GrantMakesOwner(tr, i, id, o);
      var m := LeaseBetween(tr, id, i + 1, k);
      LeaseAfterExpiry(tr, id, i, m, o);
      ClockIsMonotone(tr, m, k);
    }
  }

  // ---- what is not fenced -----------------------------------------------------------

  /** The two writes of a step land together exactly if the lease is still unexpired at the second one; otherwise
      the row has the new status with the old cursor, shared state and step count. */
  lemma TornStep(c: Setting, s: Sys, o: string, env: Env, d: nat)
    requires Enabled(c, s, WriteStatus(o, env)) && s.Of(o).id in s.tasks && Owns(s.tasks[s.Of(o).id], o, s.now)
    ensures var id := s.Of(o).id;
      var t, w := s.tasks[id], WriteOf(c, s.Of(o).snap, env).value;
      var s' := Do(c, Do(c, Do(c, s, WriteStatus(o, env)), Tick(d)), WriteProgress(o));
      s'.tasks[id] == if t.leaseExpiry > s.now + d then Land(t, w, s.now).(updatedAt := s.now + d)
                      else WithStatus(t, w.status, s.now)
  {
  }

  /** A deposed engine does mark the task of the live owner as failed: its unowned write is not fenced. */
  lemma DeposedEngineFailsTask(c: Setting, s: Sys, o: string, p: string)
    requires o != p && s.Of(o).Holding? && s.Of(o).id in s.tasks && Owns(s.tasks[s.Of(o).id], p, s.now)
    ensures var s' := Do(c, s, Refused(o));
      && Owns(s'.tasks[s.Of(o).id], p, s'.now)
      && s'.tasks[s.Of(o).id] == WithStatus(s.tasks[s.Of(o).id], "failed", s.now)
  {
  }

  /** Action k is the failed write of an engine whose step of the task was refused. */
  predicate Refuses(tr: Trace, k: nat, id: string)
    requires tr.Valid() && k < |tr.acts|
  {
    tr.acts[k].Refused? && Enabled(tr.c, tr.states[k], tr.acts[k]) && tr.states[k].Of(tr.acts[k].o).id == id
  }

  ghost predicate RefusedWithin(tr: Trace, id: string, i: nat, k: nat)
    requires tr.Valid() && k < |tr.states|
  {
    exists m | i <= m < k :: Refuses(tr, m, id)
  }

  lemma ForeignAction(c: Setting, s: Sys, a: Action, id: string, p: string)
    requires s.now >= 0 && Actor(a) != Some(p) && id in s.tasks
    requires id in Do(c, s, a).tasks && Owns(Do(c, s, a).tasks[id], p, Do(c, s, a).now)
    ensures Owns(s.tasks[id], p, s.now)
    ensures var t, t' := s.tasks[id], Do(c, s, a).tasks[id];
      t' == if a.Refused? && Enabled(c, s, a) && s.Of(a.o).id == id then WithStatus(t, "failed", s.now) else t
  {
  }

  /** That write is the only one: while p has the lease, whatever the other engines do changes its row exactly if one of
      them was refused, and then nothing but the status and the time of the update. */
  lemma {:induction false} OnlyRefusalsDisturb(tr: Trace, id: string, p: string, i: nat, k: nat)
    requires tr.Valid() && i <= k < |tr.states| && tr.states[i].now >= 0 && id in tr.states[i].tasks
    requires forall m | i <= m < k :: Actor(tr.acts[m]) != Some(p)
    requires id in tr.states[k].tasks && Owns(tr.states[k].tasks[id], p, tr.states[k].now)
    ensures Owns(tr.states[i].tasks[id], p, tr.states[i].now)
    ensures var t, t' := tr.states[i].tasks[id], tr.states[k].tasks[id];
      if RefusedWithin(tr, id, i, k) then t' == t.(status := "failed", updatedAt := t'.updatedAt)
      else t' == t
    decreases k - i
  {
    if i < k {
      OwnerChanges(tr.c, tr.states[i], tr.acts[i], id);
      OnlyRefusalsDisturb(tr, id, p, i + 1, k);
      ForeignAction(tr.c, tr.states[i], tr.acts[i], id, p);
      assert RefusedWithin(tr, id, i, k) <==> Refuses(tr, i, id) || RefusedWithin(tr, id, i + 1, k);
    }
  }
}
