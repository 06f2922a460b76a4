/** Registered Go functions and the inner retry loop around them (pkg/engine/executor_local_func.go). */
module LocalFunc {
  import opened Json
  import opened Types
  import opened Executor

  /** A registered function: the result of its n-th call ever, None standing for an error. */
  type Fn = (nat, Json, Dict) -> Option<Json>

  datatype Tried = Tried(out: Outcome, calls: nat)

  function Max(a: int, b: int): int {
    if a >= b then a else b
  }

  /** The loop after `done` failed calls, the function having been called `first` times before this execution. */
  function Attempts(fn: Fn, first: nat, call: ExecIn, done: nat): Tried
    requires call.use.maxAttempts >= 0
    decreases call.use.maxAttempts - done
  {
    var r := fn(first + done, call.input, call.params);
    if r.Some? then Tried(Ok(r.value), done + 1)
    else if call.use.maxAttempts == 0 || done + 1 >= call.use.maxAttempts then Tried(Err("failed", false), done + 1)
    else Attempts(fn, first, call, done + 1)
  }

  function LocalOutcome(fn: Option<Fn>, first: nat, call: ExecIn): Tried
    requires call.use.maxAttempts >= 0
  {
    if fn.None? then Tried(Err("fatal error", true), 0) else Attempts(fn.value, first, call, 0)
  }

  method ExecLocalFunc(fn: Option<Fn>, first: nat, call: ExecIn) returns (out: Outcome, calls: nat)
    requires call.use.maxAttempts >= 0
    ensures Tried(out, calls) == LocalOutcome(fn, first, call)
  {
    if fn.None? {
      return Err("fatal error", true), 0;
    }
    calls := 0;
    while true
      invariant calls == 0 || calls < call.use.maxAttempts
      invariant Attempts(fn.value, first, call, 0) == Attempts(fn.value, first, call, calls)
      decreases call.use.maxAttempts - calls
    {
      calls := calls + 1;
      var r := fn.value(first + calls - 1, call.input, call.params);
      if r.None? {
        if call.use.maxAttempts == 0 || (call.use.maxAttempts > 0 && calls >= call.use.maxAttempts) {
          break;
        }
        continue;
      }
      return Ok(r.value), calls;
    }
    out := Err("failed", false);
  }

  predicate FailsAt(fn: Fn, n: nat, call: ExecIn) {
    fn(n, call.input, call.params).None?
  }

  /** One execution calls the function until it succeeds and at most max(1, maxAttempts) times. */
  lemma {:induction false} AttemptsBound(fn: Fn, first: nat, call: ExecIn, done: nat)
    requires 0 <= call.use.maxAttempts && done < Max(1, call.use.maxAttempts)
    ensures var t := Attempts(fn, first, call, done);
      && done < t.calls <= Max(1, call.use.maxAttempts)
      && (t.out.Ok? <==> fn(first + t.calls - 1, call.input, call.params).Some?)
      && (t.out.Ok? ==> t.out.value == fn(first + t.calls - 1, call.input, call.params).value)
      && (!t.out.Ok? ==> t.calls == Max(1, call.use.maxAttempts) && t.out == Err("failed", false))
      && forall n: nat | first + done <= n < first + t.calls - 1 :: FailsAt(fn, n, call)
    decreases call.use.maxAttempts - done
  {
    var r := fn(first + done, call.input, call.params);
    if r.None? && call.use.maxAttempts != 0 && done + 1 < call.use.maxAttempts {
      AttemptsBound(fn, first, call, done + 1);
    }
  }

  // ---- the two loops together -------------------------------------------------------

  /** How often the function has been called before attempt k of the outer loop. */
  function CallsBefore(fn: Option<Fn>, call: ExecIn, k: nat): nat
    requires call.use.maxAttempts >= 0
  {
    if k <= 1 then 0
    else
      var before := CallsBefore(fn, call, k - 1);
      before + LocalOutcome(fn, before, call).calls
  }

  /** The k-th attempt of the outer loop. The inner loop never ends for a negative bound on a failing
      function; Pending stands there only to make the function total. */
  function Outer(fn: Option<Fn>, call: ExecIn, k: nat): Outcome {
    if call.use.maxAttempts < 0 then Pending else LocalOutcome(fn, CallsBefore(fn, call, k), call).out
  }

  /** The executor that the outer retry loop sees for a local function. */
  function LocalOracle(fn: Option<Fn>): Oracle {
    (k: nat, call: ExecIn) => Outer(fn, call, k)
  }

  function Product(attempts: int, call: ExecIn): int {
    attempts * Max(1, call.use.maxAttempts)
  }

  /** The first n - 1 attempts of the outer loop all end in an error. */
  ghost predicate AllFail(fn: Option<Fn>, call: ExecIn, n: nat) {
    forall i: nat | 1 <= i < n :: Outer(fn, call, i).Err?
  }

  lemma {:induction false} CallsBeforeBound(fn: Option<Fn>, call: ExecIn, k: nat)
    requires call.use.maxAttempts >= 0 && k >= 1
    ensures CallsBefore(fn, call, k) <= Product(k - 1, call)
    ensures fn.None? ==> CallsBefore(fn, call, k) == 0
    ensures fn.Some? && AllFail(fn, call, k) ==> CallsBefore(fn, call, k) == Product(k - 1, call)
  {
    if k > 1 {
      CallsBeforeBound(fn, call, k - 1);
      var before := CallsBefore(fn, call, k - 1);
      if fn.Some? {
        AttemptsBound(fn.value, before, call, 0);
        assert Outer(fn, call, k - 1) == Attempts(fn.value, before, call, 0).out;
        assert AllFail(fn, call, k) ==> AllFail(fn, call, k - 1);
      }
      assert Product(k - 1, call) == Product(k - 2, call) + Max(1, call.use.maxAttempts);
    }
  }

  lemma ProductMonotone(a: int, b: int, call: ExecIn)
    requires a <= b
    ensures Product(a, call) <= Product(b, call)
  {
  }

  /** Only a missing function makes an attempt fatal. */
  lemma OracleErrors(fn: Option<Fn>, call: ExecIn, k: nat)
    requires call.use.maxAttempts >= 0
    ensures var r := Outer(fn, call, k);
      && !r.Pending?
      && (r.Err? ==> r.fatal == fn.None?)
      && (fn.None? ==> r == Err("fatal error", true))
  {
    if fn.Some? {
      AttemptsBound(fn.value, CallsBefore(fn, call, k), call, 0);
    }
  }

  lemma OuterAttempts(fn: Option<Fn>, call: ExecIn, maxRetries: int) returns (e: LoopEnd)
    requires call.use.maxAttempts >= 0
    ensures e == RetryLoop(LocalOracle(fn), call, maxRetries, 1)
    ensures 1 <= e.attempts <= Max(0, maxRetries) + 1
    ensures e.out.Err? ==> AllFail(fn, call, e.attempts + 1)
    ensures e.out == Outer(fn, call, e.attempts)
    ensures fn.Some? && e.out.Err? ==> e.attempts == Max(0, maxRetries) + 1
    ensures fn.None? ==> e.attempts == 1 && e.out == Err("fatal error", true)
  {
    e := RetryLoop(LocalOracle(fn), call, maxRetries, 1);
    RetryLoopEnds(LocalOracle(fn), call, maxRetries, 1);
    assert forall k: nat :: LocalOracle(fn)(k, call) == Outer(fn, call, k);
    OracleErrors(fn, call, e.attempts);
    OracleErrors(fn, call, 1);
  }

  /** The bounds of the two retry loops multiply: one executor step calls a registered function at most
      (max(0, maxRetries) + 1) * max(1, maxAttempts) times, exactly that often when the step ends in an error,
      and an unregistered function ends the step after one attempt without a call. */
  lemma RetryBoundsCompose(fn: Option<Fn>, call: ExecIn, maxRetries: int) returns (e: LoopEnd, calls: nat)
    requires call.use.maxAttempts >= 0
    ensures e == RetryLoop(LocalOracle(fn), call, maxRetries, 1)
    ensures calls == CallsBefore(fn, call, e.attempts + 1)
    ensures 1 <= e.attempts <= Max(0, maxRetries) + 1
    ensures calls <= Product(Max(0, maxRetries) + 1, call)
    ensures fn.Some? && e.out.Err? ==> calls == Product(Max(0, maxRetries) + 1, call)
    ensures fn.None? ==> e.attempts == 1 && calls == 0 && e.out == Err("fatal error", true)
  {
    e := OuterAttempts(fn, call, maxRetries);
    calls := CallsBefore(fn, call, e.attempts + 1);
    CallsBeforeBound(fn, call, e.attempts + 1);
    ProductMonotone(e.attempts, Max(0, maxRetries) + 1, call);
  }

  /** A function that fails on every call is called exactly that often. */
  lemma AlwaysFailingFunction(fn: Fn, call: ExecIn, maxRetries: int)
    requires call.use.maxAttempts >= 0
    requires forall n: nat :: fn(n, call.input, call.params).None?
    ensures var e := RetryLoop(LocalOracle(Some(fn)), call, maxRetries, 1);
      && e.out == Err("failed", false)
      && CallsBefore(Some(fn), call, e.attempts + 1) == Product(Max(0, maxRetries) + 1, call)
  {
    var e := OuterAttempts(Some(fn), call, maxRetries);
    AttemptsBound(fn, CallsBefore(Some(fn), call, e.attempts), call, 0);
    var _, _ := RetryBoundsCompose(Some(fn), call, maxRetries);
  }
}
