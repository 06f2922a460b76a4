/** Flow definitions, rows and the environment of a step (pkg/engine/types.go, pkg/store/store.go). */
module Types {
  import opened Json
  import opened Util
  import opened Expr

  // ---- definitions ------------------------------------------------------------------

  datatype Script = Script(cmd: string, body: string)

  /** The part of a node that an executor reads. */
  datatype Use = Use(service: string, execType: string, fn: string, script: Script, maxAttempts: int)

  datatype Prep = Prep(inputKey: string, inputMap: Option<map<string, string>>)

  datatype Post = Post(
    outputKey: string,
    outputMap: Option<map<string, string>>,
    actionStatic: string,
    actionKey: string)

  datatype ExecSpec = ExecSpec(
    service: string, execType: string, fn: string, script: Script,
    params: Dict, node: string, index: int)

  datatype ChoiceCase = ChoiceCase(action: string, expr: Dict)

  datatype Node = Node(
    kind: string, use: Use, params: Dict, prep: Prep, post: Post,
    maxRetries: int, waitMs: int,
    parallelServices: seq<string>, parallelExecs: seq<ExecSpec>,
    foreachExecs: seq<ExecSpec>, subflowExecs: seq<ExecSpec>,
    defaultAction: string, choiceCases: seq<ChoiceCase>, subflow: Option<Flow>,
    parallelMode: string, maxParallel: int, failureStrategy: string)

  /** FlowDef and EmbeddedFlow have the same fields. */
  datatype Flow = Flow(start: string, nodes: map<string, Node>, edges: seq<Edge>)

  const NO_SCRIPT := Script("", "")

  /** The zero value Go returns for a key that is not in the node map. */
  const ZERO_NODE := Node(
    "", Use("", "", "", NO_SCRIPT, 0), map[], Prep("", None), Post("", None, "", ""), 0, 0,
    [], [], [], [], "", [], None, "", 0, "")

  function NodeAt(f: Flow, key: string): Node {
    if key in f.nodes then f.nodes[key] else ZERO_NODE
  }

  // ---- rows -------------------------------------------------------------------------

  datatype Task = Task(
    id: string, flowId: string, status: string, params: Dict, shared: Dict,
    cursor: string, lastAction: string, steps: int,
    leaseOwner: string, leaseExpiry: int, updatedAt: int)

  datatype NodeRun = NodeRun(
    taskId: string, nodeKey: string, attempt: nat, status: string,
    output: Json, errorText: string, workerId: string)

  datatype QueueTask = QueueTask(
    taskId: string, nodeKey: string, service: string, input: Json, params: Dict, runId: nat,
    status: string, workerId: string, createdAt: int)

  // ---- execution --------------------------------------------------------------------

  datatype ExecIn = ExecIn(use: Use, nodeKey: string, input: Json, params: Dict)

  /** What an executor returns; `fatal` marks ErrFatal and Pending marks ErrAsyncPending. */
  datatype Outcome = Ok(value: Json) | Err(msg: string, fatal: bool) | Pending

  type Oracle = (nat, ExecIn) -> Outcome

  /** Everything one step does not read from the store: the clock, the executors (indexed by the
      attempt or by the position in a concurrent batch), the order in which concurrent results
      arrive, map iteration order and library calls. */
  datatype Env = Env(nowMs: int, exec: Oracle, arrival: nat -> seq<nat>, order: Order, go: Runtime) {
    function Now(): int {
      nowMs / 1000
    }
  }

  datatype NodeInput = NodeInput(
    task: Task, def: Flow, node: Node, key: string, shared: Dict, params: Dict, input: Json)

  /** How a step leaves the node: it stays, follows an edge, parks for the queue or cancels the task. */
  datatype Move = Stay | Follow | Park | Cancel

  /** The status update and the progress update that end every step, in this order. */
  datatype Write = Write(
    move: Move, status: string, cursor: string, action: string, shared: Dict, steps: int)
}
