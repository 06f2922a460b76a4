# A verified model of the workflow engine

PocketFlowGo runs flows (graphs of nodes) as persisted tasks. A task row holds a cursor, a status, a shared JSON
state and a step count; `RunOnce` loads a row, runs one step of the node under the cursor and writes the row back.
Several engines lease tasks from one store, and pull workers take work from a queue table. This project models
that machinery in Dafny and proves what it promises over whole runs. `dafny verify dfyconfig.toml` checks it.

## How the model is built

The store is a class (`Store.Tables`) whose methods are the atomic statements and transactions of the SQL store, and
the engine is a class (`Core.Engine`) whose `Commit` does the two guarded writes behind every step. Each node kind has
an imperative runner (`RunFan`, `RunSubflow`, `RunChoice`, …) with the loops of the source, proved against a step
function that yields the write of the step. `Step.RunOnce` dispatches them. The theorems are about these step
functions, iterated (`Runs`), driven by events (`Invariants`), or interleaved by state machines (`Lease`,
`QueueProtocol`).

| file | models |
|---|---|
| `Json`, `Util`, `Expr` | JSON values, paths, edges, expressions |
| `Types`, `Store`, `Core` | definitions, rows, tables, the shared ends of a step |
| `Executor`, `LocalFunc`, `Choice`, `Waiting`, `Fanout`, `Foreach`, `Parallel`, `Subflow`, `Step` | one step of every node kind |
| `Invariants`, `Parking` | what every run of one task keeps |
| `FanProgress`, `FanVisit`, `FanMeaning` | multi-step fan-outs equal their one-step meaning |
| `FanCount` | the exact batches and steps of a fan-out, for any answers |
| `SubflowVisit`, `SubflowMeaning` | embedded flows equal a recursive interpreter, and keep to their failure budget |
| `Inputs`, `DataFlow` | what a node is called with, what it makes of the answer, and how values travel from node to node |
| `FanCalls`, `SubflowCalls` | what the branches of a fan-out and the sub-nodes of an embedded flow are called with |
| `Operators` | what expressions compare, and how a choice branches on it |
| `WaitingRuns`, `Signals` | timers, event waits and approvals over their steps, and the values that end them |
| `LeaseBlind`, `Termination` | the scheduler's inner loop ends, with the steps of the run |
| `Lease`, `SameStep`, `Handover`, `LeaseProgress` | interleaved engines: fencing, lease intervals, refinement of one engine, and that free tasks are leased |
| `Queue`, `QueueProtocol`, `QueueRuns`, `QueueRounds` | the pull queue: invariant, dispatch, delivery, claims, and that entries make their way |

Conventions. Marshalling is the identity on JSON values. Executors are an oracle indexed by the attempt, or by the
place in a concurrent batch; `Pending` stands for the async-pending error and the flag of `Err` for the fatal one. The
queue executor, which reads and writes the store, has its own step (`Queue.RunQueueNode`), and
`Queue.QueueIsAnExecutor` says it is the oracle that answers from the run history. The
order in which concurrent results arrive, map iteration order, number parsing and number printing are parameters. One
clock reading stands for the readings of one step. Run and queue ids are positions in their tables, which lists rows in
the order of their creation. A failed type assertion of the source (a panic) is a step that yields no write. Durations
and counters are integers, JSON numbers are reals.

Where the documentation and the code disagree the model follows the code. The edge with action `default` is taken only
when the action is empty or is itself `default`, and is no fallback for unmatched actions (README.md:81 and
docs/architecture.md:61 say it is; pkg/engine/util.go:44-47). The failure strategies the code knows are
`fail_fast`, `continue` and `retry`, not the names in docs/architecture.md:185. An empty foreach list leaves the
output key unset (pkg/engine/foreach.go:51-54). A fan-out aggregate is a list, so a fan-out node can not choose its
action by key.

## What is false of the code, and when it holds

- A step leaves its runtime record behind if and only if it is a concurrent fail-fast exit of a fan-out, or the exit of
  a foreach whose list turned empty while it had progress; no other kind of node ever does
  (`Invariants.NodeKeepsRecord`). After the first the next visit repeats the old error without calling anything
  (`Invariants.FailFastRevisit`), after the second it delivers an old result for a new item
  (`Invariants.EmptyListRevisit`).
- The two writes of a step land together exactly if the lease is still unexpired at the second (`Lease.TornStep`).
- A deposed engine's unowned `failed` write does reach the row of the live owner (`Lease.DeposedEngineFailsTask`). No
  other write of another engine does (`Lease.OnlyRefusalsDisturb`), and this one changes the status only, so the
  handover refinement holds in spite of it.
- A parallel node without services never ends (`Termination.NoServicesNeverEnds`), nor does an unsignalled wait_event
  node with strategy `retry` (`WaitingRuns.EventRetriesForever`).
- Completing a queue entry keeps the claim order exactly if the entry is claimed already or no strictly older entry of
  its service is pending (`QueueRuns.CompletedInOrder`).
- The completion and report handlers have no guard. A completion, first or repeated, of a claimed entry or not, keeps
  the queue invariant exactly if the flow has not ended and the task does not wait at another node
  (`QueueProtocol.HandlerKeeps`): a completion repeated later than that takes the answer from the node the task waits at.
  The same holds of the wake-up at its end once a result is stored, and before that a wake-up breaks it
  (`QueueProtocol.WakeKeeps`). So two completions of one entry at once are not safe: the second wake-up may come when the
  task waits at its next queue node. A reported status keeps it exactly if it fits the phase of the entry
  (`QueueProtocol.ReportKeeps`): a late `running` does not.
- The run history is matched by node key, so a queue node that is visited again takes the result of its earlier visit
  (`QueueRuns.HistoryDecides`, and on a cyclic flow `QueueRuns.RevisitTakesOldResult`); the queue theorems are about
  acyclic flows.
- A case of a choice that holds with an empty action does not decide (`Choice.ChoiceMeaning`).
- An expression map with several keys may depend on map iteration order (`Expr.TwoKeysDependOnOrder`); with one key a
  map it does not (`Expr.OrderIsIrrelevant`). A map of any number of keys over one-key operands does not exactly if all
  its keys that answer agree (`Expr.OrderShows`).

## Model

| member | source | states |
|---|---|---|
| Util.AtoiItoa | pkg/engine/util.go:107-110 | parsing undoes printing on every 64-bit int |
| Util.IndexKeyInjective | pkg/engine/util.go:56 | two list positions never share a progress key |
| Util.GetByPath | pkg/engine/util.go:59-93 | the lookup loop, with its early exits, is the fold of the segments over the value |
| Util.PathComposition | pkg/engine/util.go:59-93 | looking up p.q is looking up q in the result of p, for all values and strings, empty segments included |
| Util.ParseSegmentRoundTrip | pkg/engine/util.go:96-112 | name[decimal] parses to its name and index for every bracket-free name and every int |
| Util.PlainPath | pkg/engine/util.go:59-93 | a path without dots and brackets is a key, and null in what is no map |
| Util.IndexedPath | pkg/engine/util.go:79-87 | name[n] is element n of the list, counted from zero, and null outside it |
| Util.PathIgnoresOtherKeys | pkg/engine/util.go:59-93 | a path that starts at one key does not see changes of another |
| Util.FindNextIsFirstEdge | pkg/engine/util.go:43-54 | the next node is the target of the first edge with this origin and action, and empty only if there is none |
| Expr.WrappedValue | pkg/engine/expr.go:104-109 | evaluating a non-map as the larger eq node the source builds is comparing it with true, which is why evaluation ends |
| Expr.EvalMeansHolds | pkg/engine/expr.go:12-101 | one-key expressions of any depth mean their for-all, exists and negation reading |
| Expr.OrderIsIrrelevant | pkg/engine/expr.go:12-101 | map iteration order can not be observed in one-key expressions |
| Expr.TwoKeysDependOnOrder | pkg/engine/expr.go:12-14 | it can be with two keys |
| Expr.OrderShows | pkg/engine/expr.go:12-101 | a map of any number of keys with one-key operands evaluates alike in all iteration orders if and only if all keys that answer agree |
| Expr.UnanimousValue | pkg/engine/expr.go:12-101 | and it is then true exactly if some key answers true |
| Expr.PushPreservesMeaning | pkg/engine/expr.go:12-50 | pushing not through and/or preserves the meaning and reaches negation normal form |
| Expr.ComparisonLaws | pkg/engine/expr.go:165-207 | eq is ge and le together, gt is lt with swapped operands, ne and le are the complements of eq and gt |
| Inputs.PlainReferences | pkg/engine/expr.go:120-145 | $params.k, $shared.k and $input.k are the values under k in the parameters, the shared state and the input, $input is the input |
| Inputs.LongReferences | pkg/engine/expr.go:120-145 | and longer references go on from there |
| Inputs.TaskParamsWin | pkg/engine/core.go:217-227 | the parameters of the task win over those of the node |
| Inputs.InputFromKey | pkg/engine/core.go:62-67 | an input key is such a reference or a key of the shared state, and no key is null |
| Inputs.InputFromMap | pkg/engine/core.go:49-61 | an input map has the values of its references, and other texts as they are |
| Operators.NumberOperators | pkg/engine/expr.go:165-207 | on references and literals that are numbers or parse as numbers the six comparisons are those of the numbers |
| Operators.StringOperators | pkg/engine/expr.go:165-207 | on other strings they are equality and the lexicographic order, given by the first difference |
| Operators.MembershipOperators | pkg/engine/expr.go:62-97 | in means an equal element of a list or a part of a string, contains the same with its operands exchanged |
| Operators.ExistsOperator | pkg/engine/expr.go:57-61 | exists asks whether the value a reference names is there and not null |
| Operators.ChoiceBranches | pkg/engine/choice.go:5-43 | a choice node that compares a shared value, a parameter or its input with a limit branches on that number, and stores its input |
| DataFlow.ExecutorMeaning | pkg/engine/executor.go:17-82 | an executor is called as the node says, with the input of the row and the merged parameters; its result goes to output key and output map and chooses the edge, static action first, and an error leaves the state alone |
| DataFlow.HandsOver | pkg/engine/core.go:48-67 | what an executor node stores under its output key is what its successor is called with, as input or in its input map |
| DataFlow.Pipeline | pkg/engine/core.go:182-264 | a chain of any number of executor nodes, each reading what the one before has written, computes the composition of their executors |
| Store.Tables.CreateTask | pkg/store/sqlstore/sqlite.go:218-225 | a new row is pending and has no lease |
| Store.Tables.LeaseNextTask | pkg/store/sqlstore/sqlite.go:243-270 | if any row is pending or running with an expiry that is zero or past, an oldest one of these is leased |
| Store.Tables.ExtendLease | pkg/store/sqlstore/sqlite.go:272-275 | moves the expiry of a lease its caller has, even an expired one |
| Store.Tables.UpdateTaskStatus | pkg/store/sqlstore/sqlite.go:277-280 | the unfenced status write |
| Store.Tables.UpdateTaskStatusOwned | pkg/store/sqlstore/sqlite.go:282-285 | changes the row only under an unexpired lease of the owner |
| Store.Tables.UpdateTaskProgress | pkg/store/sqlstore/sqlite.go:325-328 | the unfenced progress write |
| Store.Tables.UpdateTaskProgressOwned | pkg/store/sqlstore/sqlite.go:330-333 | the same fence for cursor, action, shared state and step count |
| Store.Tables.CreateNodeRun | pkg/store/sqlstore/sqlite.go:293-307 | appends one run |
| Store.Tables.UpdateNodeRun | pkg/store/sqlstore/sqlite.go:309-323 | changes the given columns of one run |
| Store.Tables.EnqueueTask | pkg/store/sqlstore/sqlite.go:424-432 | appends one queue entry |
| Store.Tables.PollQueue | pkg/store/sqlstore/sqlite.go:435-491 | claims an oldest pending entry among the services, and nothing only if there is none |
| Store.Tables.CompleteQueueTask | pkg/store/sqlstore/sqlite.go:498-510 | marks an entry, claimed or not, and names its task |
| Core.Engine.Commit | pkg/engine/core.go:145-177 | status write, then progress write, both fenced when the engine has an owner |
| Executor.RetryLoopEnds | pkg/engine/executor.go:17-60 | the loop stops at the first success, fatal error or deferral, or after max(0, MaxRetries) + 1 attempts |
| Executor.RecordedAttempts | pkg/engine/executor.go:42-45 | recorded attempts are numbered 1..k, all but possibly the last errors |
| Executor.RunAttempts | pkg/engine/executor.go:17-60 | the loop does the attempts of its specification and records each |
| Executor.Conclude | pkg/engine/executor.go:62-82 | output map, output key, action and transition as specified |
| Executor.RunExecutorNode | pkg/engine/executor.go:9-83 | the whole step: row and audit rows afterwards |
| LocalFunc.ExecLocalFunc | pkg/engine/executor_local_func.go:10-37 | result and number of calls of the inner loop as specified |
| LocalFunc.AttemptsBound | pkg/engine/executor_local_func.go:19-36 | at most max(1, MaxAttempts) calls, all but the last failing, exactly that many on failure |
| LocalFunc.RetryBoundsCompose | pkg/engine/executor.go:17-60 | both loops together call the function at most (max(0, MaxRetries) + 1) * max(1, MaxAttempts) times, exactly so when the step fails; an unregistered function stops after one attempt |
| LocalFunc.AlwaysFailingFunction | pkg/engine/executor_local_func.go:10-37 | a function that always fails is called exactly that often |
| Choice.FirstCaseWins | pkg/engine/choice.go:5-43 | the action is that of the first case that holds |
| Choice.NoCaseHolds | pkg/engine/choice.go:5-43 | with none the cases choose no action |
| Choice.ChoiceMeaning | pkg/engine/choice.go:5-43 | the first non-empty of the action of the first case that holds, the static action, the keyed actions and the default |
| Choice.RunChoice | pkg/engine/choice.go:5-43 | the step with its fallback chain |
| Signals.SignalValues | pkg/engine/wait_event.go:20-51 | a watched key ends the wait exactly if it holds anything but null, the empty string and false |
| Signals.DecisionValues | pkg/engine/approval.go:3-76 | and an approval exactly if it holds anything but null and the empty string |
| Signals.PostedSignal | pkg/server/server.go:569-603 | a value that is posted while the node waits ends the wait with the next step, as its output |
| Signals.PostedDecision | pkg/server/server.go:569-603 | a posted decision ends an approval with the next step |
| Signals.CancelEnds | pkg/engine/core.go:69-96 | a cancel request ends the task with its next step and leaves its state alone |
| Waiting.RunTimer | pkg/engine/timer.go:8-81 | the timer step |
| Waiting.RunWaitEvent | pkg/engine/wait_event.go:8-114 | the wait_event step with its timeout strategies |
| Waiting.RunApproval | pkg/engine/approval.go:3-76 | the approval step |
| WaitingRuns.TimerMeaning | pkg/engine/timer.go:8-81 | a timer fires at the first later step at which the delay since its first step has passed, never earlier, and leaves only its output |
| WaitingRuns.EventTimesOut | pkg/engine/wait_event.go:60-102 | an unsignalled wait rests until its timeout since the first step, then leaves by its static action, failing unless told to continue |
| WaitingRuns.SignalEnds | pkg/engine/wait_event.go:32-51 | a signal ends the wait whatever the clock says, with the signal as output and only the record gone |
| WaitingRuns.ApprovalRests | pkg/engine/approval.go:3-76 | an undecided approval rests for any number of steps with nothing but its record added |
| WaitingRuns.DecisionEnds | pkg/engine/approval.go:3-76 | a decision ends it: booleans approve or reject, strings are their own action, and an action key sees only strings |
| WaitingRuns.EventRetriesForever | pkg/engine/wait_event.go:62-76 | with strategy retry it never leaves; each expired window starts another |
| Fanout.GetRemaining | pkg/engine/foreach.go:73-84 | the open branches in order |
| Fanout.Aggregate | pkg/engine/foreach.go:87-112 | one value a branch in order, null where a branch has none |
| Fanout.AggregateDone | pkg/engine/foreach.go:267-292 | the results of a fail-fast exit, without place holders |
| Fanout.RunBatch | pkg/engine/foreach.go:115-183 | launching a batch and receiving its results in any arrival order gives the specified progress |
| Fanout.Finish | pkg/engine/parallel.go:100-131 | the last step of a fan-out |
| Fanout.RunConcurrent | pkg/engine/foreach.go:115-183 | one concurrent batch with its pending and fail-fast exits |
| Fanout.RunSequential | pkg/engine/foreach.go:186-225 | one sequential branch |
| Fanout.RunFan | pkg/engine/parallel.go:8-37 | one step of a fan-out, or a panic on a record of another shape |
| Fanout.FanActionIsStatic | pkg/engine/parallel.go:117-129 | a configured action key can not select an action of a fan-out |
| Foreach.RunForeach | pkg/engine/foreach.go:11-39 | one step of a foreach node, the empty list included |
| Parallel.ResolveServices | pkg/engine/parallel.go:40-61 | specs before the service list before the services parameter |
| Parallel.RunParallel | pkg/engine/parallel.go:8-37 | one step of a parallel node |
| Subflow.HandleRetry | pkg/engine/subflow.go:255-276 | counts the failure and schedules another try unless the budget is used up |
| Subflow.RunSubflow | pkg/engine/subflow.go:12-89 | one step of a subflow node, or a panic on a null sub-state that is written |
| Step.RunNode | pkg/engine/core.go:241-263 | dispatch by kind |
| Step.RunOnce | pkg/engine/core.go:182-264 | lease checks, cancellation, missing flow, and otherwise exactly the next row of the one task |
| Invariants.NodeStepEnds | pkg/engine/core.go:98-180 | every step of every kind stays, follows the edge of the action it stores, or parks, with the matching status and count |
| Invariants.CursorStatusAgreement | pkg/engine/core.go:69-113 | over every run the cursor moves along first matching edges only, and is empty exactly when the status is completed, failed or canceled |
| Invariants.NodeKeepsRecord | pkg/engine/foreach.go:99-104 | a step never panics, and leaves a record behind if and only if it is one of the two leaking exits |
| Invariants.NoLeakedRecords | pkg/engine/subflow.go:289-294 | without those exits only the current node ever has a runtime record, and finished tasks have none, cycles allowed |
| Invariants.RevisitStartsEmpty | pkg/engine/parallel.go:116-121 | a node entered along an edge starts from empty progress |
| Invariants.EmptyListExit | pkg/engine/foreach.go:51-54 | a foreach whose list turned empty follows its edge with its progress still stored |
| Invariants.EmptyListRevisit | pkg/engine/foreach.go:51-70 | the next visit then delivers an old result for a new item without calling it |
| Invariants.FailFastRevisit | pkg/engine/parallel.go:291-319 | the fail-fast exit leaves its record and the next visit repeats the old error without a call |
| FanProgress.ReceiveAnswers | pkg/engine/foreach.go:150-164 | receiving adds exactly the answered keys, in any order |
| FanProgress.BatchSettles | pkg/engine/foreach.go:73-84 | settling a batch of open branches leaves fewer open, and with distinct keys exactly the batch is gone |
| FanCount.BatchApart | pkg/engine/foreach.go:150-164 | whatever a batch of open branches answers, done and errs stay disjoint and within the branch keys |
| FanCount.ExactBatches | pkg/engine/foreach.go:73-183 | with distinct keys and any executors that neither defer nor fail fast, every step but the last settles exactly min(MaxParallel, remaining) branches, or one sequentially, and keeps done and errs apart |
| FanCount.ExactSteps | pkg/engine/foreach.go:11-183 | and the node takes exactly one step a batch and one to finish |
| FanCount.RoundsAre | pkg/engine/foreach.go:116-124 | the batches are n sequentially, one without bound, and ceil(n/MaxParallel) otherwise |
| FanCount.StoredApart | pkg/engine/foreach.go:115-225 | over every run on the node, with executors that defer or fail at will, parkings, wake-ups, leases and cancel requests, the stored done and errs stay disjoint and within the branch keys |
| FanCount.ForeachEnters | pkg/engine/foreach.go:57-70 | the branch keys of every foreach are distinct |
| FanMeaning.SharedBatches | pkg/engine/parallel.go:87-251 | for repeated service names and deterministic executors each step settles one batch, and keeps done and errs apart |
| FanProgress.RoundsClosedForm | pkg/engine/foreach.go:116-124 | the batches of n items are n sequentially, one without bound, and ceil(n/m) with bound m |
| FanProgress.BatchCount | pkg/engine/parallel.go:87-97 | a whole visit takes that many batches, sequentially one a distinct key |
| FanMeaning.PrepIsStable | pkg/engine/core.go:48-67 | an input that names no runtime key is the same in every step of a visit |
| FanMeaning.FanoutMeaning | pkg/engine/foreach.go:11-225 | for every batch size, arrival order and list of branches the multi-step fan-out ends with the branch-wise map, null for failures, the static action and its status, after one step a batch and one to finish |
| FanCalls.ForeachMeaning | pkg/engine/foreach.go:115-265 | the list is what the executor answers when called with item i as input, with the executor and parameters of the node overridden by the first spec for i; null for failures |
| FanCalls.ForeachMaps | pkg/engine/foreach.go:134-150 | with executors that answer by the input, a foreach is the map of that function over the elements of its input, and the node that reads its output is called with the mapped list |
| FanCalls.ParallelMeaning | pkg/engine/parallel.go:40-285 | the list is what the services answer, each called by its name with the input of the node, overridden by its last spec |
| FanCalls.NamesSkip | pkg/engine/parallel.go:52-58 | what is no string among the services of the parameter is skipped |
| FanMeaning.ModesAgree | pkg/engine/parallel.go:87-251 | sequential and concurrent mode, with any bounds, end in the same state, action and status, repeated services included |
| FanMeaning.FailFastMeaning | pkg/engine/foreach.go:267-292 | a concurrent fail-fast node, repeated services included, ends with the step of its first batch with a failing branch, as failed, with the successes so far, and keeps its record |
| FanVisit.FirstFailingBranch | pkg/engine/foreach.go:267-292 | with distinct branches that is the batch of the first failing branch |
| FanVisit.StartIs | pkg/engine/foreach.go:115-124 | batch n begins after n * MaxParallel branches |
| SubflowMeaning.FailureBudget | pkg/engine/subflow.go:255-276 | over persisted steps, whatever the clock, deferrals and cycles: while a visit lasts the stored retries are its failing executions, below the bound m, and exactly the m-th one ends the node |
| SubflowMeaning.VisitBudget | pkg/engine/subflow.go:58-73 | a whole visit has at most m failing executions over all its sub-nodes |
| SubflowVisit.InterpreterBudget | pkg/engine/subflow.go:255-276 | the same bound for the interpreter |
| SubflowCalls.SubCallIs | pkg/engine/subflow.go:142-229 | the executor and the parameters of a sub-node: spec over sub-node over task and node |
| SubflowCalls.SubInputIs | pkg/engine/subflow.go:163-185 | its input: $params.x is the merged parameter x, any other key a key of the embedded state |
| SubflowCalls.HandsOn | pkg/engine/subflow.go:26-105 | over persisted steps, with waits, deferrals and failures in between: after a result v the next sub-node is the successor, and where it reads the output key it is called with v |
| SubflowCalls.LastOutput | pkg/engine/subflow.go:279-323 | and when it ends the flow, the output of the node holds both results |
| SubflowCalls.RetryDelay | pkg/engine/subflow.go:109-127 | after a failure the next try comes exactly when the wait time has passed |
| SubflowCalls.NothingToRun | pkg/engine/subflow.go:130-139 | an embedded flow without a start leaves at once |
| SubflowVisit.WaitingChangesNothing | pkg/engine/subflow.go:109-127 | while a try is waited for a step changes nothing but the count |
| SubflowMeaning.SubflowMeaning | pkg/engine/subflow.go:12-105 | with execution k answered by the k-th step that neither waits nor is deferred, the node ends with the last execution of the interpreter and its result: the parent state changes under the runtime key only, then gets the sub-state, and the parent follows its own edge |
| SubflowMeaning.SubflowLeaves | pkg/engine/subflow.go:303-323 | conversely, when the node leaves, the interpreter run on the executions so far ends with the last of them and the same result |
| Parking.NeverParks | pkg/engine/executor.go:36-39 | a step parks only if an executor defers |
| Termination.StepDecreases | pkg/engine/core.go:141-180 | every step of an acyclic bounded flow ends the run or decreases (cursor rank, retries left, sub-rank or open branches), and never panics |
| LeaseBlind.StepIsBlind | pkg/engine/core.go:202-264 | a step does not look at the lease or the update time of its row |
| Termination.Round | cmd/scheduler/main.go:121-142 | one round of the inner loop: the extended row takes its step, or fails without a lease |
| Termination.RunTask | cmd/scheduler/main.go:121-142 | the inner loop ends with the task completed or failed, or parked if executors defer; an engine that has the lease has then taken exactly the steps of the run, and no other row has changed |
| Termination.NoServicesNeverEnds | pkg/engine/parallel.go:64-68 | a parallel node without services stays for ever |
| Lease.Fencing | pkg/engine/core.go:184-195 | if a write takes effect, nobody leased the task between the read of its step and the write |
| Lease.NoLeaseWhileBusy | pkg/store/sqlstore/sqlite.go:243-285 | an engine that still has the lease in mid-step had it all along |
| Lease.ExpiryIsMonotone | pkg/store/sqlstore/sqlite.go:272-275 | the expiry of a row never moves back |
| Lease.LeaseAfterExpiry | pkg/store/sqlstore/sqlite.go:243-270 | a task is leased only after every earlier grant has run out |
| Lease.LeaseIntervalsDisjoint | pkg/store/sqlstore/sqlite.go:243-275 | granted intervals of different owners never overlap, revived leases included |
| Lease.TornStep | pkg/engine/core.go:145-177 | the two writes land together exactly if the lease has not expired between them |
| Lease.DeposedEngineFailsTask | cmd/scheduler/main.go:134 | the unowned failed write is not fenced |
| Lease.OnlyRefusalsDisturb | cmd/scheduler/main.go:113-143 | and it is the only one: while an owner keeps a lease without acting, any actions of the others leave its row alone, or set the status to failed if one of them was refused |
| LeaseProgress.IdleOwnerLeases | cmd/scheduler/main.go:115-120 | an idle engine can lease when there is a free task, that one or one not updated later |
| LeaseProgress.NewTaskLeases | pkg/store/sqlstore/sqlite.go:218-225 | a new task is free at once |
| LeaseProgress.AbandonedIsLeased | pkg/store/sqlstore/sqlite.go:256 | a task whose owner has left keeps its row and is free once its expiry has passed |
| LeaseProgress.RoundTakesStep | cmd/scheduler/main.go:121-142 | an engine that has the lease can extend, read, write and look, and the row is then that of RunOnce |
| SameStep.StepSame | pkg/engine/core.go:202-264 | with deterministic executors and no clock a step depends on cursor, action, shared state, parameters and count only, whatever the arrival and map orders |
| FanProgress.ReceiveAllIs | pkg/engine/parallel.go:165-190 | consistent results amount to the same progress in every order, deferrals included |
| Handover.WriteIsNext | pkg/engine/core.go:182-264 | whatever engine steps from a row of the single-engine run writes its next row, parking steps included |
| Handover.HandoverRefinement | cmd/scheduler/main.go:115-143 | for any owners, interleaving and crashes the stored progress is that of the single-engine run after as many steps, or one row further if the task is parked, and every action leaves it or takes it to the next row, up to the first step that reads the clock |
| Queue.ScanFindsLatest | pkg/engine/executor_queue.go:16-26 | the backward scan finds the latest run of the task and node |
| Queue.ScanFindsNothing | pkg/engine/executor_queue.go:16-26 | and nothing if there is none |
| Queue.ListNodeRuns | pkg/store/sqlstore/sqlite.go:389-408 | the runs of one task in order |
| Queue.ExecQueue | pkg/engine/executor_queue.go:11-88 | resume from the latest run, or create one queued run and one entry with the service, the input and the parameters of the node |
| Queue.RunQueueNode | pkg/engine/executor.go:17-82 | the step of a queue node; a stored error is read max(0, MaxRetries) + 1 times and never enqueued again |
| Queue.QueueIsAnExecutor | pkg/engine/executor.go:86-103 | the queue is an executor that gives every attempt of a step the same answer |
| Queue.HandleQueuePoll | pkg/server/server.go:96-120 | a poll is one claim |
| Queue.HandleQueueComplete | pkg/server/server.go:122-234 | mark, store, wake, with the missing entry, missing task and missing run id cases |
| QueueProtocol.AnswerIs | pkg/engine/executor_queue.go:16-46 | at a live queue node the history answers what was posted for its entry, and nothing exactly if it has none |
| QueueProtocol.InvStep | pkg/server/server.go:139-231 | every step, poll, report and completion step keeps entries, runs and tasks in matching phases |
| QueueProtocol.HandlerKeeps | pkg/server/server.go:139-231 | a whole completion, first or repeated, claimed or not, keeps the invariant exactly if the task has not ended and waits at no other node |
| QueueProtocol.WakeKeeps | pkg/server/server.go:228-231 | the wake-up of a completion keeps it exactly if a result is stored and the task has not ended and waits at no other node |
| QueueProtocol.CompleteKeeps | pkg/server/server.go:139-143 | the marking step alone: the stages fit afterwards exactly if no result was stored before |
| QueueProtocol.ReportKeeps | pkg/server/server.go:68-94 | a reported status keeps it exactly if it fits the phase of the entry |
| QueueRuns.WaitingHasOneEntry | pkg/engine/executor_queue.go:48-87 | a waiting task has exactly one entry for its node: pending, claimed or in mid-completion |
| QueueRuns.EnqueuedOnce | pkg/engine/executor_queue.go:48-87 | a node of a task is enqueued at most once |
| QueueRuns.StoredBeforeLeasable | pkg/server/server.go:168-231 | the posted result is in the run before the task can be leased |
| QueueRuns.CompletionIsTheHandler | pkg/server/server.go:139-231 | the three completion steps together are the handler |
| QueueRuns.Dispatch | pkg/engine/executor_queue.go:74-81 | over every run an entry keeps the service of its node and the input and parameters of the row that made it, for whoever claims it |
| QueueRounds.WokenLeases | pkg/server/server.go:228 | a woken task can be leased until it is stepped, whenever its expiry is zero or past |
| QueueRounds.WholeRound | pkg/server/server.go:96-234 | a pending entry can be claimed, completed with any result, stored and woken, and its task then leased and stepped with exactly that result |
| QueueRuns.Delivery | pkg/engine/executor_queue.go:27-44 | what a worker posts is what the resuming step writes under the output key, null as an empty object; a posted error takes the error branch; nothing is enqueued again |
| QueueRuns.ClaimedOnce | pkg/store/sqlstore/sqlite.go:435-491 | an entry is claimed by at most one worker |
| QueueRuns.ClaimOrder | pkg/store/sqlstore/sqlite.go:454-474 | if entries are completed only after a claim, no entry is claimed while a strictly older one of its service is pending |
| QueueRuns.CompletedInOrder | pkg/store/sqlstore/sqlite.go:498-510 | exactly when an unguarded completion keeps that order |
| QueueRuns.HistoryDecides | pkg/engine/executor_queue.go:16-46 | the latest run of the node alone decides between resuming and enqueueing |
| QueueRuns.RevisitTakesOldResult | pkg/engine/executor_queue.go:16-34 | on a cyclic flow a queue node takes its old result on every further visit and enqueues nothing |

## Left out

- HTTP executors, local scripts, temporary files and logging: foreign calls, kept as the executor oracle only.
- SQL text, schema, JSON and YAML codecs: statements are atomic row updates and codecs the identity, so decoding errors do not occur.
- Failing store calls: every statement succeeds.
- Audit rows of choice, timer, wait_event, approval, foreach, parallel and subflow steps: only executor nodes and queue runs record rows; they are write-only for the other kinds.
- Flow, version and worker management, allocation, heartbeats and pagination: easy members.
- User interface, command-line clients and example loaders.
- Sleeping between retries and attempt timeouts: they change no row.
- Float rounding, NaN and infinities: numbers are reals.
- Negative MaxAttempts: the inner loop of a failing local function then never ends, so it is excluded by a precondition.
- Cancel and signal in the lease and queue machines: both are unowned writes; they are events of the single-engine runs in `Invariants`.
- Queue executors inside foreach, parallel and subflow nodes: run lookup does not separate branches.
- The gap between enqueueing and parking: RunOnce is atomic in the queue machine, so a worker can not finish an entry before its task waits.
- QueueProtocol.InvStep: in the queue machine an entry is completed once, and reports come before its result only. A second completion is no action of it, whether it overlaps the first or comes later; `HandlerKeeps` and `WakeKeeps` say exactly when one does no harm, and `ReportKeeps` does for reports.
- QueueProtocol.CompleteKeeps: speaks of the mark and its stage, which is bookkeeping of the model; `HandlerKeeps` is about the tables.
- Store.Tables.UpdateNodeRun: the finish time and the log path of a run are not modelled; they feed audit rows and the log view only.
- Core.Engine.Commit: one clock reading serves both writes; a lease that runs out between them is the subject of `Lease.TornStep`.
- Multi-key expression maps below other maps, and comparison of numeric with non-numeric strings: the value of the first may depend on map order and the second is not transitive.
- Signals and deadlines of external callers for approval nodes: an approval is one step and a record.
- Termination.RunTask: lists executors, choice, foreach, parallel and subflow nodes only; clock-driven and approval nodes wait for the world and have no bound.
- Handover.HandoverRefinement: speaks of the run up to the first step of the task that meets a timer, an event wait or a waiting subflow retry: those read the clock of whichever engine runs them. Wake-ups of parked tasks are not in the lease machine, so there a parked task rests.
- Handover.WriteIsNext: the same limit, for the one step it is about.
