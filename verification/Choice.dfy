/** Choice nodes (pkg/engine/choice.go). */
module Choice {
  import opened Json
  import opened Util
  import opened Expr
  import opened Types
  import opened Core

  function CtxOf(j: NodeInput, env: Env): Ctx {
    Ctx(j.shared, j.params, j.input, env.go)
  }

  function FirstCase(cases: seq<ChoiceCase>, c: Ctx, order: Order): string {
    if cases == [] then ""
    else if EvalExpr(cases[0].expr, c, order) then cases[0].action
    else FirstCase(cases[1..], c, order)
  }

  function KeyedAction(j: NodeInput): string {
    var a := if j.input != Null then PickAction(Obj(map["v" := j.input]), j.node.post.actionKey) else "";
    var b := if a == "" then PickAction(Obj(j.shared), j.node.post.actionKey) else a;
    if b == "" then j.node.defaultAction else b
  }

  function ChoiceAction(j: NodeInput, env: Env): string {
    var first := FirstCase(j.node.choiceCases, CtxOf(j, env), env.order);
    if first != "" then first
    else if j.node.post.actionStatic != "" then j.node.post.actionStatic
    else if j.node.post.actionKey != "" then KeyedAction(j)
    else j.node.defaultAction
  }

  function ChoiceStep(j: NodeInput, env: Env): Write {
    FinishNode(j, ChoiceAction(j, env), SetOutput(j.shared, j.node.post.outputKey, j.input), false)
  }

  ghost predicate CaseHolds(cc: ChoiceCase, c: Ctx) {
    Holds(Obj(cc.expr), c)
  }

  ghost predicate OneKeyCases(cases: seq<ChoiceCase>) {
    forall k | 0 <= k < |cases| :: OneKey(Obj(cases[k].expr))
  }

  /** With one-key expressions the action is that of the first case that holds. */
  lemma {:induction false} FirstCaseWins(cases: seq<ChoiceCase>, c: Ctx, order: Order, i: nat)
    requires FairOrder(order) && OneKeyCases(cases)
    requires i < |cases| && CaseHolds(cases[i], c) && forall k | 0 <= k < i :: !CaseHolds(cases[k], c)
    ensures FirstCase(cases, c, order) == cases[i].action
  {
    EvalMeansHolds(Obj(cases[0].expr), c, order);
    if i > 0 {
      assert !CaseHolds(cases[0], c);
      FirstCaseWins(cases[1..], c, order, i - 1);
    }
  }

  /** When no case holds the cases choose the empty action. */
  lemma {:induction false} NoCaseHolds(cases: seq<ChoiceCase>, c: Ctx, order: Order)
    requires FairOrder(order) && OneKeyCases(cases)
    requires forall k | 0 <= k < |cases| :: !CaseHolds(cases[k], c)
    ensures FirstCase(cases, c, order) == ""
  {
    if cases != [] {
      EvalMeansHolds(Obj(cases[0].expr), c, order);
      assert !CaseHolds(cases[0], c);
      NoCaseHolds(cases[1..], c, order);
    }
  }

  function FirstNonEmpty(xs: seq<string>): string {
    if xs == [] then "" else if xs[0] != "" then xs[0] else FirstNonEmpty(xs[1..])
  }

  /** What decides when no case does: the static action; with an action key the input itself if the key is "v", and the
      string under the key in the shared state; and the default. */
  function Fallbacks(j: NodeInput): seq<string> {
    var key := j.node.post.actionKey;
    [j.node.post.actionStatic]
    + (if key == "" then [] else [if key == "v" then AsStr(j.input) else "", AsStr(Get(j.shared, key))])
    + [j.node.defaultAction]
  }

  lemma FirstOf(x: string, rest: seq<string>)
    ensures FirstNonEmpty([x] + rest) == if x != "" then x else FirstNonEmpty(rest)
  {
    assert ([x] + rest)[1..] == rest;
  }

  lemma FallbackChain(j: NodeInput, env: Env)
    ensures var first := FirstCase(j.node.choiceCases, CtxOf(j, env), env.order);
      ChoiceAction(j, env) == FirstNonEmpty([first] + Fallbacks(j))
  {
    var key, last := j.node.post.actionKey, [j.node.defaultAction];
    var a, b := if key == "v" then AsStr(j.input) else "", AsStr(Get(j.shared, key));
    FirstOf(FirstCase(j.node.choiceCases, CtxOf(j, env), env.order), Fallbacks(j));
    FirstOf(j.node.defaultAction, []);
    assert last + [] == last;
    if key == "" {
      FirstOf(j.node.post.actionStatic, last);
      assert Fallbacks(j) == [j.node.post.actionStatic] + last;
    } else {
      FirstOf(b, last);
      FirstOf(a, [b] + last);
      FirstOf(j.node.post.actionStatic, [a] + ([b] + last));
      assert Fallbacks(j) == [j.node.post.actionStatic] + ([a] + ([b] + last));
    }
  }

  /** A choice takes the action of its first case that holds. An empty one, and no case that holds, leave it to the
      fallbacks in their order. */
  lemma ChoiceMeaning(j: NodeInput, env: Env, i: nat)
    requires FairOrder(env.order) && OneKeyCases(j.node.choiceCases) && i <= |j.node.choiceCases|
    requires forall k | 0 <= k < i :: !CaseHolds(j.node.choiceCases[k], CtxOf(j, env))
    requires i < |j.node.choiceCases| ==> CaseHolds(j.node.choiceCases[i], CtxOf(j, env))
    ensures var chosen := if i < |j.node.choiceCases| then j.node.choiceCases[i].action else "";
      ChoiceAction(j, env) == FirstNonEmpty([chosen] + Fallbacks(j))
  {
    if i < |j.node.choiceCases| {
      FirstCaseWins(j.node.choiceCases, CtxOf(j, env), env.order, i);
    } else {
      NoCaseHolds(j.node.choiceCases, CtxOf(j, env), env.order);
    }
    FallbackChain(j, env);
  }

  method RunChoice(e: Engine, j: NodeInput, env: Env)
    modifies e.db`tasks
    ensures e.db.tasks == LandIn(old(e.db.tasks), j.task.id, e.owner, ChoiceStep(j, env), env.Now())
  {
    var c := CtxOf(j, env);
    var cases := j.node.choiceCases;
    var action := "";
    var i := 0;
    while i < |cases|
      invariant 0 <= i <= |cases| && action == ""
      invariant FirstCase(cases, c, env.order) == FirstCase(cases[i..], c, env.order)
    {
      if EvalExpr(cases[i].expr, c, env.order) {
        action := cases[i].action;
        break;
      }
      i := i + 1;
    }
    var post := j.node.post;
    if action == "" && post.actionStatic != "" {
      action := post.actionStatic;
    } else if action == "" && post.actionKey != "" {
      if j.input != Null {
        action := PickAction(Obj(map["v" := j.input]), post.actionKey);
      }
      if action == "" {
        action := PickAction(Obj(j.shared), post.actionKey);
      }
      if action == "" && j.node.defaultAction != "" {
        action := j.node.defaultAction;
      }
    } else if action == "" && j.node.defaultAction != "" {
      action := j.node.defaultAction;
    }
    var shared := j.shared;
    if post.outputKey != "" {
      shared := shared[post.outputKey := j.input];
    }
    e.Commit(j.task.id, FinishNode(j, action, shared, false), env.Now());
  }
}
