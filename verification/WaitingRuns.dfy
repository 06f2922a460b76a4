/** Timer and wait_event nodes over the steps of a visit: when they fire, when they time out, and what they leave. */
module WaitingRuns {
  import opened Json
  import opened Util
  import opened Types
  import opened Core
  import opened Step
  import opened Runs
  import opened Waiting
  import Fanout
  import FanMeaning

  // ---- a resting row ----------------------------------------------------------------

  /** A row enters the node without a record; its input does not look at the records. */
  ghost predicate Enters(def: Flow, t: Task, key: string) {
    && key !in RtOf(t.shared) && FanMeaning.InputStable(def, t)
    && (t.status == "pending" || t.status == "running")
  }

  /** The row before step n: nothing but the start time was added to the shared state. */
  predicate Rests(t: Task, key: string, r: Task, n: nat, start: int) {
    && r.cursor == t.cursor && r.params == t.params && r.steps == t.steps + n
    && (r.status == "pending" || r.status == "running")
    && r.shared == if n == 0 then t.shared else PutEntry(t.shared, key, StartEntry(start))
  }

  /** What a finished visit leaves: the output, and the records of before. */
  function Left(t: Task, outputKey: string, v: Json): Dict {
    var shared := SetOutput(t.shared, outputKey, v);
    if RtOf(t.shared) == map[] then shared - {"_rt"} else shared["_rt" := Obj(RtOf(t.shared))]
  }

  lemma RestingInput(def: Flow, t: Task, key: string, r: Task, n: nat, start: int)
    requires Enters(def, t, key) && Rests(t, key, r, n, start)
    ensures InputOf(def, r) == InputOf(def, t).(task := r, shared := r.shared)
  {
    Fanout.PutEntryFacts(t.shared, key, StartEntry(start), map[]);
    FanMeaning.SameInput(def, t, r);
  }

  lemma RecordIs(t: Task, key: string, r: Task, n: nat, start: int)
    requires n > 0 && Rests(t, key, r, n, start)
    ensures Get(RtOf(r.shared), key) == Obj(StartEntry(start)) && AsInt(Get(StartEntry(start), "start")) == start
    ensures PutEntry(r.shared, key, StartEntry(start)) == r.shared
  {
    assert RtOf(r.shared)[key := Obj(StartEntry(start))] == RtOf(r.shared);
  }

  lemma Restarted(t: Task, key: string, r: Task, n: nat, start: int, start': int)
    requires Rests(t, key, r, n, start)
    ensures PutEntry(r.shared, key, StartEntry(start')) == PutEntry(t.shared, key, StartEntry(start'))
  {
    assert RtOf(r.shared)[key := Obj(StartEntry(start'))] == RtOf(t.shared)[key := Obj(StartEntry(start'))];
  }

  lemma LeftIs(t: Task, key: string, r: Task, n: nat, start: int, outputKey: string, v: Json)
    requires key !in RtOf(t.shared) && n > 0 && Rests(t, key, r, n, start)
    ensures DropEntry(SetOutput(r.shared, outputKey, v), RtOf(r.shared), key) == Left(t, outputKey, v)
  {
    Fanout.PutEntryFacts(t.shared, key, StartEntry(start), map[]);
    Fanout.SetOutputFacts(r.shared, t.shared, outputKey, v);
    assert RtOf(t.shared) - {key} == RtOf(t.shared);
    var a, b, rt := SetOutput(r.shared, outputKey, v), SetOutput(t.shared, outputKey, v), Obj(RtOf(t.shared));
    assert a["_rt" := rt] == (a - {"_rt"})["_rt" := rt];
    assert b["_rt" := rt] == (b - {"_rt"})["_rt" := rt];
  }

  // ---- timer ------------------------------------------------------------------------

  function Delay(def: Flow, t: Task): int {
    AsInt(Get(InputOf(def, t).params, "delay_ms"))
  }

  predicate Fires(delay: int, envs: nat -> Env, i: nat) {
    i > 0 && (delay <= 0 || envs(i).nowMs - envs(0).nowMs >= delay)
  }

  function TimerKey(t: Task): string {
    "tm:" + t.cursor
  }

  lemma TimerStepIs(def: Flow, t: Task, r: Task, n: nat, start: int, env: Env)
    requires Enters(def, t, TimerKey(t)) && NodeAt(def, t.cursor).kind == "timer" && Rests(t, TimerKey(t), r, n, start)
    ensures StepWrite(def, r, env) == Some(
      if n == 0 then KeepRunning(InputOf(def, r), PutEntry(t.shared, TimerKey(t), StartEntry(env.nowMs)))
      else if Delay(def, t) <= 0 || env.nowMs - start >= Delay(def, t) then
        FinishNode(InputOf(def, r), NodeAt(def, t.cursor).post.actionStatic,
          Left(t, NodeAt(def, t.cursor).post.outputKey, InputOf(def, t).input), false)
      else KeepRunning(InputOf(def, r), r.shared))
  {
    RestingInput(def, t, TimerKey(t), r, n, start);
    if n > 0 {
      RecordIs(t, TimerKey(t), r, n, start);
      LeftIs(t, TimerKey(t), r, n, start, NodeAt(def, t.cursor).post.outputKey, InputOf(def, t).input);
    }
  }

  lemma TimerRests(def: Flow, t: Task, envs: nat -> Env, n: nat)
    requires Enters(def, t, TimerKey(t)) && NodeAt(def, t.cursor).kind == "timer"
    requires forall i: nat | i < n :: !Fires(Delay(def, t), envs, i)
    ensures Rests(t, TimerKey(t), Steps(def, t, envs, n), n, envs(0).nowMs)
  {
    var start := envs(0).nowMs;
    var at := (r: Task, i: nat) => Rests(t, TimerKey(t), r, i, start);
    forall r, i: nat | at(r, i) && i < n ensures at(Advance(def, r, envs(i)), i + 1) {
      assert !Fires(Delay(def, t), envs, i);
      TimerStepIs(def, t, r, i, start, envs(i));
    }
    ClimbSteps(def, envs, at, t, n);
  }

  /** A timer fires at the first step after its first one at which the delay has passed, never earlier, and leaves
      nothing in the shared state but its output. */
  lemma TimerMeaning(def: Flow, t: Task, envs: nat -> Env, n: nat)
    requires Enters(def, t, TimerKey(t)) && NodeAt(def, t.cursor).kind == "timer"
    requires forall i: nat | i < n :: !Fires(Delay(def, t), envs, i)
    ensures var r := Steps(def, t, envs, n); r.cursor == t.cursor && r.steps == t.steps + n
    ensures Fires(Delay(def, t), envs, n) ==>
      var r, post := Steps(def, t, envs, n + 1), NodeAt(def, t.cursor).post;
      && r.shared == Left(t, post.outputKey, InputOf(def, t).input)
      && r.cursor == FindNext(def.edges, t.cursor, post.actionStatic) && r.lastAction == post.actionStatic
      && r.status == if r.cursor == "" then "completed" else "running"
  {
    TimerRests(def, t, envs, n);
    if Fires(Delay(def, t), envs, n) {
      var r := Steps(def, t, envs, n);
      TimerStepIs(def, t, r, n, envs(0).nowMs, envs(n));
      StepsUnfold(def, t, envs, n);
    }
  }

  // ---- wait_event -------------------------------------------------------------------

  function EventKey(t: Task): string {
    "we:" + t.cursor
  }

  /** A row enters a wait_event node that is not signalled, and whose signal is not kept among the records. */
  ghost predicate EntersUnsignalled(def: Flow, t: Task) {
    && Enters(def, t, EventKey(t)) && NodeAt(def, t.cursor).kind == "wait_event"
    && FanMeaning.AvoidsRt(AsStr(Get(InputOf(def, t).params, "signal_key")), false)
    && !Signalled(Signal(InputOf(def, t)))
  }

  function Timeout(def: Flow, t: Task): int {
    AsInt(Get(InputOf(def, t).params, "timeout_ms"))
  }

  predicate Expires(timeout: int, start: int, now: int) {
    timeout > 0 && now - start >= timeout
  }

  lemma SignalStays(def: Flow, t: Task, r: Task, n: nat, start: int)
    requires EntersUnsignalled(def, t) && Rests(t, EventKey(t), r, n, start)
    ensures Signal(InputOf(def, r)) == Signal(InputOf(def, t))
  {
    RestingInput(def, t, EventKey(t), r, n, start);
    var path := AsStr(Get(InputOf(def, t).params, "signal_key"));
    if n > 0 && HasPrefix(path, "$shared.") {
      FanMeaning.ResolveAvoidsRt(path, false, t.shared, r.shared["_rt"], InputOf(def, t).params);
    }
  }

  /** What one step does, from the record and the signal alone. */
  lemma EventStep(j: NodeInput, t: Task, key: string, r: Task, n: nat, start: int, env: Env)
    requires j.shared == r.shared && key == "we:" + j.key && key !in RtOf(t.shared) && Rests(t, key, r, n, start)
    requires !Signalled(Signal(j)) && (n == 0 ==> start == env.nowMs)
    ensures WaitEventStep(j, env) ==
      if !Expires(AsInt(Get(j.params, "timeout_ms")), start, env.nowMs) then
        KeepRunning(j, PutEntry(t.shared, key, StartEntry(start)))
      else if j.node.failureStrategy == "retry" then KeepRunning(j, PutEntry(t.shared, key, StartEntry(env.nowMs)))
      else FinishNode(j, j.node.post.actionStatic, Left(t, "", Null), j.node.failureStrategy != "continue")
  {
    Restarted(t, key, r, n, start, start);
    Restarted(t, key, r, n, start, env.nowMs);
    assert StartEntry(start)["start" := Num(env.nowMs as real)] == StartEntry(env.nowMs);
    if n > 0 {
      RecordIs(t, key, r, n, start);
      LeftIs(t, key, r, n, start, "", Null);
    }
  }

  lemma EventStepIs(def: Flow, t: Task, r: Task, n: nat, start: int, env: Env)
    requires EntersUnsignalled(def, t) && Rests(t, EventKey(t), r, n, start) && (n == 0 ==> start == env.nowMs)
    ensures var node := NodeAt(def, t.cursor);
      StepWrite(def, r, env) == Some(
        if !Expires(Timeout(def, t), start, env.nowMs) then
          KeepRunning(InputOf(def, r), PutEntry(t.shared, EventKey(t), StartEntry(start)))
        else if node.failureStrategy == "retry" then
          KeepRunning(InputOf(def, r), PutEntry(t.shared, EventKey(t), StartEntry(env.nowMs)))
        else
          FinishNode(InputOf(def, r), node.post.actionStatic, Left(t, "", Null), node.failureStrategy != "continue"))
  {
    RestingInput(def, t, EventKey(t), r, n, start);
    SignalStays(def, t, r, n, start);
    EventStep(InputOf(def, r), t, EventKey(t), r, n, start, env);
  }

  lemma EventRestsOn(def: Flow, t: Task, r: Task, n: nat, start: int, env: Env)
    requires EntersUnsignalled(def, t) && Rests(t, EventKey(t), r, n, start) && (n == 0 ==> start == env.nowMs)
    requires NodeAt(def, t.cursor).failureStrategy == "retry" || !Expires(Timeout(def, t), start, env.nowMs)
    ensures Rests(t, EventKey(t), Advance(def, r, env), n + 1,
      if Expires(Timeout(def, t), start, env.nowMs) then env.nowMs else start)
  {
    EventStepIs(def, t, r, n, start, env);
  }

  /** The start of the current window: with strategy "retry" an expired window is followed by a new one. */
  function Window(timeout: int, envs: nat -> Env, n: nat): int {
    if n == 0 then envs(0).nowMs
    else
      var start := Window(timeout, envs, n - 1);
      if Expires(timeout, start, envs(n - 1).nowMs) then envs(n - 1).nowMs else start
  }

  /** An expired window either is followed by a new one or has not come yet. */
  predicate Follows(timeout: int, retry: bool, envs: nat -> Env, starts: nat -> int, i: nat) {
    && (Expires(timeout, starts(i), envs(i).nowMs) ==> retry)
    && starts(i + 1) == if Expires(timeout, starts(i), envs(i).nowMs) then envs(i).nowMs else starts(i)
  }

  lemma EventRests(def: Flow, t: Task, envs: nat -> Env, starts: nat -> int, timeout: int, retry: bool,
      n: nat)
    requires EntersUnsignalled(def, t) && starts(0) == envs(0).nowMs
    requires timeout == Timeout(def, t) && retry == (NodeAt(def, t.cursor).failureStrategy == "retry")
    requires forall i: nat | i < n :: Follows(timeout, retry, envs, starts, i)
    ensures Rests(t, EventKey(t), Steps(def, t, envs, n), n, starts(n))
  {
    var at := (r: Task, i: nat) => Rests(t, EventKey(t), r, i, starts(i));
    forall r, i: nat | at(r, i) && i < n ensures at(Advance(def, r, envs(i)), i + 1) {
      assert Follows(timeout, retry, envs, starts, i);
      EventRestsOn(def, t, r, i, starts(i), envs(i));
    }
    ClimbSteps(def, envs, at, t, n);
  }

  /** A wait_event node that is not signalled rests until its timeout has passed since its first step, then takes its
      static action: failing the task if no edge leads on, unless the strategy is "continue". */
  lemma EventTimesOut(def: Flow, t: Task, envs: nat -> Env, n: nat)
    requires EntersUnsignalled(def, t) && NodeAt(def, t.cursor).failureStrategy != "retry"
    requires forall i: nat | i < n :: !Expires(Timeout(def, t), envs(0).nowMs, envs(i).nowMs)
    ensures Steps(def, t, envs, n).cursor == t.cursor
    ensures Expires(Timeout(def, t), envs(0).nowMs, envs(n).nowMs) ==>
      var r, node := Steps(def, t, envs, n + 1), NodeAt(def, t.cursor);
      && r.shared == Left(t, "", Null) && r.cursor == FindNext(def.edges, t.cursor, node.post.actionStatic)
      && r.status == (if r.cursor != "" then "running"
                      else if node.failureStrategy == "continue" then "completed" else "failed")
  {
    EventRests(def, t, envs, (i: nat) => envs(0).nowMs, Timeout(def, t), false, n);
    if Expires(Timeout(def, t), envs(0).nowMs, envs(n).nowMs) {
      var r := Steps(def, t, envs, n);
      EventStepIs(def, t, r, n, envs(0).nowMs, envs(n));
      StepsUnfold(def, t, envs, n);
    }
  }

  function Windows(timeout: int, envs: nat -> Env): nat -> int {
    (i: nat) => Window(timeout, envs, i)
  }

  lemma WindowFollows(timeout: int, envs: nat -> Env, i: nat)
    ensures Follows(timeout, true, envs, Windows(timeout, envs), i)
  {
    assert Windows(timeout, envs)(i + 1) == Window(timeout, envs, i + 1);
  }

  /** With strategy "retry" an unsignalled node never leaves: every expired window is followed by another one. */
  lemma EventRetriesForever(def: Flow, t: Task, envs: nat -> Env, n: nat)
    requires EntersUnsignalled(def, t) && NodeAt(def, t.cursor).failureStrategy == "retry"
    ensures var r := Steps(def, t, envs, n);
      && r.cursor == t.cursor && r.steps == t.steps + n && r.shared - {"_rt"} == t.shared - {"_rt"}
      && (n > 0 ==> Get(RtOf(r.shared), EventKey(t)) == Obj(StartEntry(Window(Timeout(def, t), envs, n))))
  {
    var timeout := Timeout(def, t);
    var starts := Windows(timeout, envs);
    forall i: nat | i < n ensures Follows(timeout, true, envs, starts, i) { WindowFollows(timeout, envs, i); }
    EventRests(def, t, envs, starts, timeout, true, n);
    Fanout.PutEntryFacts(t.shared, EventKey(t), StartEntry(Window(Timeout(def, t), envs, n)), map[]);
  }

  // ---- exits ------------------------------------------------------------------------

  /** The step leaves with value v under the output key, and only the record of the node is gone. */
  predicate LeavesWith(j: NodeInput, w: Write, key: string, v: Json) {
    && w.move == Follow && w.cursor == FindNext(j.def.edges, j.key, w.action)
    && w.status == (if w.cursor == "" then "completed" else "running")
    && w.shared - {"_rt"} == SetOutput(j.shared, j.node.post.outputKey, v) - {"_rt"}
    && RtOf(w.shared) == RtOf(j.shared) - {key}
  }

  /** A string action under the one key that the wrapped value has. */
  function Keyed(actionKey: string, key: string, v: Json): string {
    if actionKey == key then AsStr(v) else ""
  }

  /** A signal ends the wait at once, whatever the clock says: the static action decides, or without one the signal
      itself if the action key is "signal". */
  lemma SignalEnds(j: NodeInput, env: Env)
    requires Signalled(Signal(j))
    ensures var w, post := WaitEventStep(j, env), j.node.post;
      && LeavesWith(j, w, "we:" + j.key, Signal(j))
      && w.action == if post.actionStatic != "" then post.actionStatic else Keyed(post.actionKey, "signal", Signal(j))
  {
    DropsOnly(j, SetOutput(j.shared, j.node.post.outputKey, Signal(j)), "we:" + j.key);
  }

  lemma DropsOnly(j: NodeInput, shared: Dict, key: string)
    ensures var after := DropEntry(shared, RtOf(j.shared), key);
      after - {"_rt"} == shared - {"_rt"} && RtOf(after) == RtOf(j.shared) - {key}
  {
  }

  predicate Decided(v: Json) {
    v != Null && v != Str("")
  }

  /** A decision ends an approval: with an action key only a string under the key "approval" is an action; without one
      true and false mean approved and rejected, a string is its own action, and anything else takes the static one. */
  lemma DecisionEnds(j: NodeInput)
    requires Decided(ApprovalValue(j))
    ensures var w, v, post := ApprovalStep(j), ApprovalValue(j), j.node.post;
      && LeavesWith(j, w, "ap:" + j.key, v)
      && w.action ==
         if post.actionKey != "" then Keyed(post.actionKey, "approval", v)
         else match v
              case Bool(b) => if b then "approved" else "rejected"
              case Str(s) => s
              case _ => post.actionStatic
  {
    DropsOnly(j, SetOutput(j.shared, j.node.post.outputKey, ApprovalValue(j)), "ap:" + j.key);
  }

  // ---- approval ---------------------------------------------------------------------

  function ApprovalKey(t: Task): string {
    "ap:" + t.cursor
  }

  /** A row enters an approval node that is not decided, and whose decision is not kept among the records. */
  ghost predicate EntersUndecided(def: Flow, t: Task) {
    && Enters(def, t, ApprovalKey(t)) && NodeAt(def, t.cursor).kind == "approval"
    && FanMeaning.AvoidsRt(AsStr(Get(InputOf(def, t).params, "approval_key")), false)
    && !Decided(ApprovalValue(InputOf(def, t)))
  }

  predicate RestsUndecided(t: Task, r: Task, n: nat) {
    && r.cursor == t.cursor && r.params == t.params && r.steps == t.steps + n
    && (r.status == "pending" || r.status == "running")
    && r.shared == if n == 0 then t.shared else PutEntry(t.shared, ApprovalKey(t), map[])
  }

  lemma UndecidedStays(def: Flow, t: Task, r: Task, n: nat)
    requires EntersUndecided(def, t) && RestsUndecided(t, r, n)
    ensures InputOf(def, r) == InputOf(def, t).(task := r, shared := r.shared)
    ensures ApprovalValue(InputOf(def, r)) == ApprovalValue(InputOf(def, t))
  {
    Fanout.PutEntryFacts(t.shared, ApprovalKey(t), map[], map[]);
    FanMeaning.SameInput(def, t, r);
    var path := AsStr(Get(InputOf(def, t).params, "approval_key"));
    if n > 0 && HasPrefix(path, "$shared.") {
      FanMeaning.ResolveAvoidsRt(path, false, t.shared, r.shared["_rt"], InputOf(def, t).params);
    }
  }

  lemma UndecidedStep(def: Flow, t: Task, r: Task, n: nat, env: Env)
    requires EntersUndecided(def, t) && RestsUndecided(t, r, n)
    ensures RestsUndecided(t, Advance(def, r, env), n + 1)
  {
    UndecidedStays(def, t, r, n);
    assert RtOf(r.shared)[ApprovalKey(t) := Obj(map[])] == RtOf(t.shared)[ApprovalKey(t) := Obj(map[])];
    assert StepWrite(def, r, env) == Some(ApprovalStep(InputOf(def, r)));
  }

  /** An undecided approval rests for any number of steps, with nothing but its empty record added. */
  lemma ApprovalRests(def: Flow, t: Task, envs: nat -> Env, n: nat)
    requires EntersUndecided(def, t)
    ensures RestsUndecided(t, Steps(def, t, envs, n), n)
  {
    var at := (r: Task, i: nat) => RestsUndecided(t, r, i);
    forall r, i: nat | at(r, i) && i < n ensures at(Advance(def, r, envs(i)), i + 1) {
      UndecidedStep(def, t, r, i, envs(i));
    }
    ClimbSteps(def, envs, at, t, n);
  }
}
