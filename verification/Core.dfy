/** The ends every step shares and the two guarded writes behind them (pkg/engine/core.go). */
module Core {
  import opened Json
  import opened Util
  import opened Expr
  import opened Types
  import opened Store

  // ---- runtime entries under shared["_rt"] ------------------------------------------

  function RtOf(shared: Dict): Dict {
    AsObj(Get(shared, "_rt"))
  }

  function PutEntry(shared: Dict, key: string, entry: Dict): Dict {
    shared["_rt" := Obj(RtOf(shared)[key := Obj(entry)])]
  }

  /** delete(rt, key), and "_rt" itself once rt is empty. `rt` is the map read when the step began. */
  function DropEntry(shared: Dict, rt: Dict, key: string): Dict {
    var rest := rt - {key};
    if rest == map[] then shared - {"_rt"} else shared["_rt" := Obj(rest)]
  }

  function SetOutput(shared: Dict, outputKey: string, v: Json): Dict {
    if outputKey == "" then shared else shared[outputKey := v]
  }

  // ---- step ends --------------------------------------------------------------------

  function FinishNode(j: NodeInput, action: string, shared: Dict, failed: bool): Write {
    var next := FindNext(j.def.edges, j.key, action);
    var status := if next != "" then "running" else if failed then "failed" else "completed";
    Write(Follow, status, next, action, shared, j.task.steps + 1)
  }

  function KeepRunning(j: NodeInput, shared: Dict): Write {
    Write(Stay, "running", j.key, "", shared, j.task.steps + 1)
  }

  function Suspend(j: NodeInput, shared: Dict): Write {
    Write(Park, "waiting_queue", j.task.cursor, j.task.lastAction, shared, j.task.steps)
  }

  function CancelTask(t: Task): Write {
    Write(Cancel, "canceled", "", "canceled", t.shared, t.steps)
  }

  // ---- writing back -----------------------------------------------------------------

  function Land(t: Task, w: Write, now: int): Task {
    WithProgress(WithStatus(t, w.status, now), w.cursor, w.action, w.shared, w.steps, now)
  }

  predicate MayWrite(t: Task, owner: string, now: int) {
    owner == "" || Owns(t, owner, now)
  }

  function LandIn(tasks: map<string, Task>, id: string, owner: string, w: Write, now: int): map<string, Task> {
    if id in tasks && MayWrite(tasks[id], owner, now) then tasks[id := Land(tasks[id], w, now)] else tasks
  }

  class Engine {
    const db: Tables
    const owner: string

    constructor (db: Tables, owner: string)
      ensures this.db == db && this.owner == owner
    {
      this.db := db;
      this.owner := owner;
    }

    method Commit(id: string, w: Write, now: int)
      modifies db`tasks
      ensures db.tasks == LandIn(old(db.tasks), id, owner, w, now)
    {
      if owner != "" {
        db.UpdateTaskStatusOwned(id, owner, w.status, now);
        db.UpdateTaskProgressOwned(id, owner, w.cursor, w.action, w.shared, w.steps, now);
      } else {
        db.UpdateTaskStatus(id, w.status, now);
        db.UpdateTaskProgress(id, w.cursor, w.action, w.shared, w.steps, now);
      }
    }
  }

  // ---- inputs -----------------------------------------------------------------------

  function BuildInput(node: Node, shared: Dict, params: Dict): Json {
    match node.prep.inputMap
    case Some(m) =>
      Obj(map k | k in m ::
        if HasPrefix(m[k], "$") then ResolveRef(m[k], shared, params, Null) else Str(m[k]))
    case None =>
      if node.prep.inputKey == "" then Null
      else if HasPrefix(node.prep.inputKey, "$") then ResolveRef(node.prep.inputKey, shared, params, Null)
      else PathValue(Obj(shared), node.prep.inputKey)
  }

  function InputOf(def: Flow, t: Task): NodeInput {
    var node := NodeAt(def, t.cursor);
    var params := node.params + t.params;
    NodeInput(t, def, node, t.cursor, t.shared, params, BuildInput(node, t.shared, params))
  }
}
