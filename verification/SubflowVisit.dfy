/** The steps of one visit to a subflow node, read against an interpreter of the embedded flow that works on
    plain values: no records, no rows, no resumption. */
module SubflowVisit {
  import opened Json
  import opened Util
  import opened Types
  import opened Core
  import opened Subflow
  import Executor
  import Fanout
  import FanVisit

  // ---- the interpreter --------------------------------------------------------------

  datatype SubState = SubState(curr: string, shared: Dict, fails: nat)

  /** How the embedded flow ends: its own shared state, whether a failing sub-node broke it off, how many
      executions failed, and the index of the last execution. */
  datatype SubEnd = SubEnd(shared: Dict, broke: bool, failures: nat, last: nat)

  predicate GivesUp(node: Node, failures: nat) {
    node.failureStrategy != "retry" || (node.maxRetries > 0 && failures >= node.maxRetries)
  }

  /** Runs the embedded flow from st; execution i is answered by run(i). None: not over after `fuel` executions. */
  function Interpret(j: NodeInput, flow: Flow, run: nat -> ExecIn -> Outcome, i: nat, st: SubState, fuel: nat)
    : Option<SubEnd>
    decreases fuel
  {
    if fuel == 0 then None
    else
      match run(i)(SubCall(j, flow, st.curr, st.shared))
      case Pending => None
      case Err(_, _) =>
        if GivesUp(j.node, st.fails + 1) then Some(SubEnd(st.shared, true, st.fails + 1, i))
        else Interpret(j, flow, run, i + 1, st.(fails := st.fails + 1), fuel - 1)
      case Ok(v) =>
        var post := NodeAt(flow, st.curr).post;
        var shared := Executor.WithOutputs(post, v, st.shared);
        var next := FindNext(flow.edges, st.curr, Executor.ActionOf(post, v));
        if next == "" then Some(SubEnd(shared, false, st.fails, i))
        else Interpret(j, flow, run, i + 1, SubState(next, shared, st.fails), fuel - 1)
  }

  /** The failure budget of the interpreter: with strategy retry and a positive bound m at most m executions fail, over
      all sub-nodes together, and it is the m-th failure that breaks the flow off. Without retry the first one does. */
  lemma {:induction false} InterpreterBudget(j: NodeInput, flow: Flow, run: nat -> ExecIn -> Outcome, i: nat,
      st: SubState, fuel: nat)
    requires Interpret(j, flow, run, i, st, fuel).Some?
    requires j.node.failureStrategy == "retry" && j.node.maxRetries > 0 ==> st.fails < j.node.maxRetries
    ensures var e := Interpret(j, flow, run, i, st, fuel).value;
      && i <= e.last < i + fuel && st.fails <= e.failures
      && (j.node.failureStrategy == "retry" && j.node.maxRetries > 0 ==>
            e.failures <= j.node.maxRetries && (e.broke <==> e.failures == j.node.maxRetries))
      && (j.node.failureStrategy == "retry" && j.node.maxRetries <= 0 ==> !e.broke)
      && (j.node.failureStrategy != "retry" ==> e.failures == st.fails + if e.broke then 1 else 0)
    decreases fuel
  {
    match run(i)(SubCall(j, flow, st.curr, st.shared))
    case Pending =>
    case Err(_, _) =>
      if !GivesUp(j.node, st.fails + 1) {
        InterpreterBudget(j, flow, run, i + 1, st.(fails := st.fails + 1), fuel - 1);
      }
    case Ok(v) =>
      var post := NodeAt(flow, st.curr).post;
      var next := FindNext(flow.edges, st.curr, Executor.ActionOf(post, v));
      if next != "" {
        var st' := SubState(next, Executor.WithOutputs(post, v, st.shared), st.fails);
        InterpreterBudget(j, flow, run, i + 1, st', fuel - 1);
      }
  }

  // ---- records ----------------------------------------------------------------------

  function Key(j: NodeInput): string {
    "sf:" + j.key
  }

  /** What the interpreter state looks like in the persisted record. */
  predicate Records(sf: Dict, st: SubState) {
    && Get(sf, "curr") == Str(st.curr) && st.curr != ""
    && Get(sf, "shared") == Obj(st.shared)
    && AsInt(Get(sf, "retries")) == st.fails
  }

  /** The record of the node, fresh if there is none. */
  function SfOf(i: NodeInput, flow: Flow): Dict {
    Fanout.EntryOf(i.shared, Key(i), FreshSub(flow))
  }

  /** The step does not wait for the next try. */
  predicate Tries(i: NodeInput, flow: Flow, env: Env) {
    !Waiting(i.node, SfOf(i, flow), env.nowMs)
  }

  lemma IntRoundTrip(n: int)
    ensures AsInt(Num(n as real)) == n
  {
  }

  /** A step input of the visit that began with j: outside "_rt" nothing has changed, and the record holds st. */
  ghost predicate Inside(j: NodeInput, flow: Flow, i: NodeInput, st: SubState) {
    && i.node == j.node && i.key == j.key && i.params == j.params
    && i.shared - {"_rt"} == j.shared - {"_rt"}
    && RtOf(i.shared) - {Key(j)} == RtOf(j.shared) - {Key(j)}
    && Records(Fanout.EntryOf(i.shared, Key(j), FreshSub(flow)), st)
  }

  lemma Starts(j: NodeInput, flow: Flow)
    requires flow.start != "" && Key(j) !in RtOf(j.shared)
    ensures Inside(j, flow, j, SubState(flow.start, map[], 0))
  {
  }

  lemma Stored(j: NodeInput, flow: Flow, i: NodeInput, st: SubState, sf: Dict, st': SubState, i': NodeInput)
    requires Inside(j, flow, i, st) && Records(sf, st')
    requires i'.node == i.node && i'.key == i.key && i'.params == i.params
    requires i'.shared == PutEntry(i.shared, Key(j), sf)
    ensures Inside(j, flow, i', st')
  {
    Fanout.PutEntryFacts(i.shared, Key(j), sf, FreshSub(flow));
  }

  lemma CountedRetry(node: Node, sf: Dict, st: SubState, nowMs: int)
    requires Records(sf, st) && node.failureStrategy == "retry"
    ensures Records(CountRetry(node, sf, nowMs), st.(fails := st.fails + 1))
    ensures MayRetry(node, CountRetry(node, sf, nowMs)) <==> !GivesUp(node, st.fails + 1)
  {
    IntRoundTrip(st.fails + 1);
  }

  /** What the parent row becomes: the sub-shared state under the output key, without the record. */
  function EndShared(j: NodeInput, sub: Dict): Dict {
    DropEntry(SetOutput(j.shared, j.node.post.outputKey, Obj(sub)), RtOf(j.shared), Key(j))
  }

  function EndWrite(j: NodeInput, i: NodeInput, e: SubEnd): Write {
    FinishNode(i, Executor.ActionOf(j.node.post, Obj(e.shared)), EndShared(j, e.shared),
      e.broke && j.node.failureStrategy != "continue")
  }

  lemma EndIs(j: NodeInput, flow: Flow, i: NodeInput, st: SubState, sub: Dict, failed: bool)
    requires Inside(j, flow, i, st)
    ensures EndSubflow(i, Obj(sub), failed)
         == FinishNode(i, Executor.ActionOf(j.node.post, Obj(sub)), EndShared(j, sub), failed)
  {
    var key := j.node.post.outputKey;
    Fanout.SetOutputFacts(i.shared, j.shared, key, Obj(sub));
    FanVisit.SameDrop(SetOutput(i.shared, key, Obj(sub)), SetOutput(j.shared, key, Obj(sub)),
      RtOf(i.shared), RtOf(j.shared), Key(j));
  }

  /** The state after an execution that does not end the flow, and the end otherwise. */
  datatype SubNext = Goes(st: SubState) | Ends(e: SubEnd)

  function Execute(j: NodeInput, flow: Flow, st: SubState, i: nat, out: Outcome): SubNext
    requires !out.Pending?
  {
    if out.Err? then
      if GivesUp(j.node, st.fails + 1) then Ends(SubEnd(st.shared, true, st.fails + 1, i))
      else Goes(st.(fails := st.fails + 1))
    else
      var post := NodeAt(flow, st.curr).post;
      var shared := Executor.WithOutputs(post, out.value, st.shared);
      var next := FindNext(flow.edges, st.curr, Executor.ActionOf(post, out.value));
      if next == "" then Ends(SubEnd(shared, false, st.fails, i)) else Goes(SubState(next, shared, st.fails))
  }

  lemma InterpretUnfolds(j: NodeInput, flow: Flow, run: nat -> ExecIn -> Outcome, i: nat, st: SubState, fuel: nat)
    requires Interpret(j, flow, run, i, st, fuel).Some?
    ensures var out := run(i)(SubCall(j, flow, st.curr, st.shared));
      && fuel > 0 && !out.Pending?
      && match Execute(j, flow, st, i, out)
         case Ends(e) => Interpret(j, flow, run, i, st, fuel) == Some(e)
         case Goes(st') => Interpret(j, flow, run, i, st, fuel) == Interpret(j, flow, run, i + 1, st', fuel - 1)
  {
  }

  lemma StepFails(j: NodeInput, flow: Flow, i: NodeInput, st: SubState, env: Env, k: nat) returns (shared: Dict)
    requires j.node.subflow == Some(flow) && Inside(j, flow, i, st) && Tries(i, flow, env)
    requires env.exec(0, SubCall(j, flow, st.curr, st.shared)).Err?
    ensures var n := Execute(j, flow, st, k, env.exec(0, SubCall(j, flow, st.curr, st.shared)));
      && SubflowStep(i, env) == Some(if n.Goes? then KeepRunning(i, shared) else EndWrite(j, i, n.e))
      && (n.Goes? ==> Inside(j, flow, i.(shared := shared), n.st))
  {
    var sf := Fanout.EntryOf(i.shared, Key(j), FreshSub(flow));
    shared := PutEntry(i.shared, Key(j), CountRetry(j.node, sf, env.nowMs));
    if j.node.failureStrategy == "retry" {
      CountedRetry(j.node, sf, st, env.nowMs);
      Stored(j, flow, i, st, CountRetry(j.node, sf, env.nowMs), st.(fails := st.fails + 1), i.(shared := shared));
    }
    EndIs(j, flow, i, st, st.shared, j.node.failureStrategy != "continue");
  }

  lemma StepSucceeds(j: NodeInput, flow: Flow, i: NodeInput, st: SubState, env: Env, k: nat) returns (shared: Dict)
    requires j.node.subflow == Some(flow) && Inside(j, flow, i, st) && Tries(i, flow, env)
    requires env.exec(0, SubCall(j, flow, st.curr, st.shared)).Ok?
    ensures var n := Execute(j, flow, st, k, env.exec(0, SubCall(j, flow, st.curr, st.shared)));
      && SubflowStep(i, env) == Some(if n.Goes? then KeepRunning(i, shared) else EndWrite(j, i, n.e))
      && (n.Goes? ==> Inside(j, flow, i.(shared := shared), n.st))
  {
    var sf := Fanout.EntryOf(i.shared, Key(j), FreshSub(flow));
    var v := env.exec(0, SubCall(j, flow, st.curr, st.shared)).value;
    var post := NodeAt(flow, st.curr).post;
    var sub := Executor.WithOutputs(post, v, st.shared);
    var next := FindNext(flow.edges, st.curr, Executor.ActionOf(post, v));
    var sf' := sf["curr" := Str(next)]["shared" := Obj(sub)];
    shared := PutEntry(i.shared, Key(j), sf');
    if next != "" {
      Stored(j, flow, i, st, sf', SubState(next, sub, st.fails), i.(shared := shared));
    }
    EndIs(j, flow, i, st, sub, false);
  }

  /** A step that waits keeps the interpreter state, and so does one whose executor defers. */
  lemma WaitingKeeps(j: NodeInput, flow: Flow, i: NodeInput, st: SubState, env: Env) returns (shared: Dict)
    requires j.node.subflow == Some(flow) && Inside(j, flow, i, st) && !Tries(i, flow, env)
    ensures SubflowStep(i, env) == Some(KeepRunning(i, shared)) && Inside(j, flow, i.(shared := shared), st)
  {
    shared := PutEntry(i.shared, Key(j), SfOf(i, flow));
    Stored(j, flow, i, st, SfOf(i, flow), st, i.(shared := shared));
  }

  lemma DeferringKeeps(j: NodeInput, flow: Flow, i: NodeInput, st: SubState, env: Env)
    requires j.node.subflow == Some(flow) && Inside(j, flow, i, st) && Tries(i, flow, env)
    requires env.exec(0, SubCall(j, flow, st.curr, st.shared)).Pending?
    ensures SubflowStep(i, env) == Some(Suspend(i, i.shared))
  {
  }

  /** While the node waits for its next try, a step changes nothing but the step count: the record and the rest
      of the shared state stay as they are. */
  lemma WaitingChangesNothing(i: NodeInput, flow: Flow, env: Env)
    requires i.node.subflow == Some(flow)
    requires Key(i) in RtOf(i.shared) && RtOf(i.shared)[Key(i)].Obj?
    requires Waiting(i.node, RtOf(i.shared)[Key(i)].m, env.nowMs)
    ensures SubflowStep(i, env) == Some(KeepRunning(i, i.shared))
  {
    assert RtOf(i.shared)[Key(i) := RtOf(i.shared)[Key(i)]] == RtOf(i.shared);
    assert i.shared["_rt" := Obj(RtOf(i.shared))] == i.shared;
  }
}
