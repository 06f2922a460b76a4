/** Runs of one task by one engine. */
module Runs {
  import opened Types
  import opened Step

  type Stepper = (Task, nat) -> Task

  /** n steps; the i-th of them is step(_, i). */
  function Iterate(step: Stepper, t: Task, n: nat): Task {
    if n == 0 then t else step(Iterate(step, t, n - 1), n - 1)
  }

  /** The engine as a stepper: step i runs in environment envs(i). */
  function Driver(def: Flow, envs: nat -> Env): Stepper {
    (t: Task, i: nat) => Advance(def, t, envs(i))
  }

  function Steps(def: Flow, t: Task, envs: nat -> Env, n: nat): Task {
    Iterate(Driver(def, envs), t, n)
  }

  /** Induction over the first k steps of a run. */
  lemma {:induction false} Climb(step: Stepper, at: (Task, nat) -> bool, t: Task, k: nat)
    requires at(t, 0)
    requires forall r, n: nat | at(r, n) && n < k :: at(step(r, n), n + 1)
    ensures at(Iterate(step, t, k), k)
  {
    if k > 0 {
      Climb(step, at, t, k - 1);
    }
  }

  /** The same for the run of an engine. */
  lemma ClimbSteps(def: Flow, envs: nat -> Env, at: (Task, nat) -> bool, t: Task, k: nat)
    requires at(t, 0)
    requires forall r, n: nat | at(r, n) && n < k :: at(Advance(def, r, envs(n)), n + 1)
    ensures at(Steps(def, t, envs, k), k)
  {
    var step := Driver(def, envs);
    forall r, n: nat | at(r, n) && n < k ensures at(step(r, n), n + 1) {
      assert step(r, n) == Advance(def, r, envs(n));
    }
    Climb(step, at, t, k);
  }

  /** The rows of a run, one after the other. */
  function Rows(def: Flow, t: Task, envs: nat -> Env): nat -> Task {
    (n: nat) => Steps(def, t, envs, n)
  }

  /** Row n + 1 is the one after row n. */
  predicate IsNext(def: Flow, rows: nat -> Task, envs: nat -> Env, n: nat) {
    rows(n + 1) == Advance(def, rows(n), envs(n))
  }

  /** What every step of some kind keeps, a run of such steps keeps. */
  ghost predicate Keeps(def: Flow, kind: (Task, Env) -> bool, keep: Task -> bool) {
    forall r, env :: KeepsOne(def, kind, keep, r, env)
  }

  predicate KeepsOne(def: Flow, kind: (Task, Env) -> bool, keep: Task -> bool, r: Task, env: Env) {
    keep(r) && kind(r, env) ==> keep(Advance(def, r, env))
  }

  lemma {:induction false} KeptOn(def: Flow, rows: nat -> Task, envs: nat -> Env, kind: (Task, Env) -> bool,
      keep: Task -> bool, n: nat, k: nat)
    requires n <= k && keep(rows(n)) && Keeps(def, kind, keep) && forall i: nat :: IsNext(def, rows, envs, i)
    requires forall i: nat | n <= i < k :: kind(rows(i), envs(i))
    ensures keep(rows(k))
  {
    if n < k {
      var m := k - 1;
      KeptOn(def, rows, envs, kind, keep, n, m);
      assert KeepsOne(def, kind, keep, rows(m), envs(m)) && IsNext(def, rows, envs, m);
    }
  }

  lemma Kept(def: Flow, t: Task, envs: nat -> Env, kind: (Task, Env) -> bool, keep: Task -> bool, n: nat, k: nat)
    requires n <= k && keep(Steps(def, t, envs, n)) && Keeps(def, kind, keep)
    requires forall i: nat | n <= i < k :: kind(Rows(def, t, envs)(i), envs(i))
    ensures keep(Steps(def, t, envs, k))
  {
    RowsFollow(def, t, envs);
    KeptOn(def, Rows(def, t, envs), envs, kind, keep, n, k);
  }

  lemma RowsFollow(def: Flow, t: Task, envs: nat -> Env)
    ensures forall n: nat :: IsNext(def, Rows(def, t, envs), envs, n)
  {
    forall n: nat ensures IsNext(def, Rows(def, t, envs), envs, n) {
      StepsUnfold(def, t, envs, n);
    }
  }

  lemma StepsUnfold(def: Flow, t: Task, envs: nat -> Env, n: nat)
    ensures Steps(def, t, envs, n + 1) == Advance(def, Steps(def, t, envs, n), envs(n))
  {
  }

  /** The steps among the first n that p holds of, in order. */
  function Hits(p: nat -> bool, n: nat): (h: seq<nat>)
    ensures |h| <= n
  {
    if n == 0 then [] else Hits(p, n - 1) + if p(n - 1) then [n - 1] else []
  }

  lemma {:induction false} HitsPrefix(p: nat -> bool, m: nat, n: nat)
    requires m <= n
    ensures Hits(p, m) <= Hits(p, n)
  {
    if m < n {
      HitsPrefix(p, m, n - 1);
    }
  }
}
