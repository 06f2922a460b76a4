/** What the operators of expressions compare, in terms of numbers, strings and lists, and how a choice node uses them
    (pkg/engine/expr.go, pkg/engine/choice.go). */
module Operators {
  import opened Json
  import opened Util
  import opened Expr
  import opened Types
  import opened Core
  import opened Step
  import opened Inputs
  import opened Choice

  // ---- operands ---------------------------------------------------------------------

  /** The value a reference names: a key of the shared state, of the parameters or of the input, or the input itself. */
  predicate Refers(path: string, k: string, c: Ctx, v: Json) {
    || (path == "$input" && v == c.input)
    || (PlainKey(k) &&
        (|| (path == "$shared." + k && v == Field(Obj(c.shared), k))
         || (path == "$params." + k && v == Field(Obj(c.params), k))
         || (path == "$input." + k && v == Field(c.input, k))))
  }

  /** An operand stands for v: it is a reference to v, another string, or no string. */
  predicate Stands(a: Json, k: string, c: Ctx, v: Json) {
    if a.Str? && a.s != "" && a.s[0] == '$' then Refers(a.s, k, c, v) else v == a
  }

  lemma OperandIs(a: Json, k: string, c: Ctx, v: Json)
    requires Stands(a, k, c, v)
    ensures Resolve(a, c) == v
  {
    if a.Str? {
      if a.s != "" && a.s[0] == '$' {
        if PlainKey(k) { PlainReferences(k, c.shared, c.params, c.input); }
      } else {
        Literals(a.s, c.shared, c.params, c.input);
      }
    }
  }

  // ---- comparisons ------------------------------------------------------------------

  /** Two values compared as numbers: numbers, and strings that parse as numbers. */
  predicate Numeric(v: Json, go: Runtime, x: real) {
    v == Num(x) || (v.Str? && go.parseFloat(v.s) == Some(x))
  }

  lemma ResolvedNumbers(a: Json, b: Json, c: Ctx, x: real, y: real)
    requires Numeric(Resolve(a, c), c.go, x) && Numeric(Resolve(b, c), c.go, y)
    ensures Leaf("eq", Arr([a, b]), c) == Some(x == y) && Leaf("ne", Arr([a, b]), c) == Some(x != y)
    ensures Leaf("lt", Arr([a, b]), c) == Some(x < y) && Leaf("gt", Arr([a, b]), c) == Some(x > y)
    ensures Leaf("le", Arr([a, b]), c) == Some(x <= y) && Leaf("ge", Arr([a, b]), c) == Some(x >= y)
  {
    assert AsFloat(Resolve(a, c), c.go) == Some(x) && AsFloat(Resolve(b, c), c.go) == Some(y);
  }

  lemma NumberOperators(a: Json, b: Json, k: string, l: string, c: Ctx, v: Json, w: Json, x: real, y: real)
    requires Stands(a, k, c, v) && Stands(b, l, c, w) && Numeric(v, c.go, x) && Numeric(w, c.go, y)
    ensures Leaf("eq", Arr([a, b]), c) == Some(x == y) && Leaf("ne", Arr([a, b]), c) == Some(x != y)
    ensures Leaf("lt", Arr([a, b]), c) == Some(x < y) && Leaf("gt", Arr([a, b]), c) == Some(x > y)
    ensures Leaf("le", Arr([a, b]), c) == Some(x <= y) && Leaf("ge", Arr([a, b]), c) == Some(x >= y)
  {
    OperandIs(a, k, c, v);
    OperandIs(b, l, c, w);
    ResolvedNumbers(a, b, c, x, y);
  }

  /** Lexicographic order: where the strings first differ, s has the smaller character or has ended. */
  ghost predicate Before(s: string, t: string) {
    exists i: nat :: i <= |s| && FirstDifference(s, t, i)
  }

  predicate FirstDifference(s: string, t: string, i: nat)
    requires i <= |s|
  {
    i < |t| && s[..i] == t[..i] && (i == |s| || s[i] < t[i])
  }

  lemma TailsDecide(s: string, t: string)
    requires s != "" && t != "" && s[0] == t[0]
    ensures Before(s, t) <==> Before(s[1..], t[1..])
  {
    if Before(s[1..], t[1..]) {
      var i: nat :| i <= |s[1..]| && FirstDifference(s[1..], t[1..], i);
      assert s[..i + 1] == [s[0]] + s[1..][..i] && t[..i + 1] == [t[0]] + t[1..][..i];
      assert FirstDifference(s, t, i + 1);
    }
    if Before(s, t) {
      var i: nat :| i <= |s| && FirstDifference(s, t, i);
      assert i > 0;
      assert s[1..][..i - 1] == s[..i][1..] && t[1..][..i - 1] == t[..i][1..];
      assert FirstDifference(s[1..], t[1..], i - 1);
    }
  }

  lemma {:induction false} StrLessIsBefore(s: string, t: string)
    ensures StrLess(s, t) <==> Before(s, t)
  {
    if t == "" {
    } else if s == "" {
      assert FirstDifference(s, t, 0);
    } else if s[0] == t[0] {
      StrLessIsBefore(s[1..], t[1..]);
      TailsDecide(s, t);
    } else {
      if s[0] < t[0] {
        assert FirstDifference(s, t, 0);
      } else {
        forall i: nat | i <= |s| ensures !FirstDifference(s, t, i) {
          HeadsDiffer(s, t, i);
        }
      }
    }
  }

  lemma HeadsDiffer(s: string, t: string, i: nat)
    requires i <= |s| && s != "" && t != "" && s[0] > t[0]
    ensures !FirstDifference(s, t, i)
  {
    if 0 < i < |t| {
      assert s[..i][0] == s[0] && t[..i][0] == t[0];
    }
  }

  /** Strings that are not both numbers are compared as strings. */
  lemma StringOperators(a: Json, b: Json, k: string, l: string, c: Ctx, s: string, t: string)
    requires Stands(a, k, c, Str(s)) && Stands(b, l, c, Str(t))
    requires c.go.parseFloat(s).None? || c.go.parseFloat(t).None?
    ensures Leaf("eq", Arr([a, b]), c) == Some(s == t) && Leaf("ne", Arr([a, b]), c) == Some(s != t)
    ensures Leaf("lt", Arr([a, b]), c) == Some(Before(s, t)) && Leaf("gt", Arr([a, b]), c) == Some(Before(t, s))
    ensures Leaf("le", Arr([a, b]), c) == Some(!Before(t, s)) && Leaf("ge", Arr([a, b]), c) == Some(!Before(s, t))
  {
    OperandIs(a, k, c, Str(s));
    OperandIs(b, l, c, Str(t));
    StrLessIsBefore(s, t);
    StrLessIsBefore(t, s);
    StrTrichotomy(s, t);
  }

  // ---- membership and existence -----------------------------------------------------

  ghost predicate Within(s: string, part: string) {
    exists before, after :: s == before + part + after
  }

  lemma ContainsIsWithin(s: string, part: string)
    ensures Contains(s, part) <==> Within(s, part)
  {
    if Contains(s, part) {
      var i: nat :| i <= |s| && OccursAt(s, part, i);
      assert s == s[..i] + part + s[i + |part|..];
    } else if Within(s, part) {
      var before, after :| s == before + part + after;
      assert OccursAt(s, part, |before|);
    }
  }

  lemma ResolvedMembers(a: Json, b: Json, c: Ctx)
    ensures Leaf("in", Arr([a, b]), c) == Some(Member(Resolve(b, c), Resolve(a, c), c.go))
    ensures Leaf("contains", Arr([b, a]), c) == Some(Member(Resolve(b, c), Resolve(a, c), c.go))
  {
  }

  /** "in" asks for an element of a list that equals the value, or for a part of a string; "contains" is the same with
      its operands exchanged. */
  lemma MembershipOperators(a: Json, b: Json, k: string, l: string, c: Ctx, v: Json, w: Json) returns (r: bool)
    requires Stands(a, k, c, v) && Stands(b, l, c, w)
    ensures Leaf("in", Arr([a, b]), c) == Leaf("contains", Arr([b, a]), c) == Some(r)
    ensures w.Arr? ==> (r <==> exists i | 0 <= i < |w.xs| :: Equal(w.xs[i], v, c.go))
    ensures !w.Arr? ==> (r <==> w.Str? && v.Str? && Within(w.s, v.s))
  {
    OperandIs(a, k, c, v);
    OperandIs(b, l, c, w);
    ResolvedMembers(a, b, c);
    r := Member(w, v, c.go);
    if w.Str? && v.Str? { ContainsIsWithin(w.s, v.s); }
  }

  /** "exists" asks whether the value a reference names is there and not null. */
  lemma ExistsOperator(path: string, k: string, c: Ctx, v: Json)
    requires path != "" && path[0] == '$' && Refers(path, k, c, v)
    ensures Leaf("exists", Str(path), c) == Some(v != Null)
  {
    OperandIs(Str(path), k, c, v);
  }

  // ---- choices ----------------------------------------------------------------------

  lemma OneOperator(op: string, v: Json, c: Ctx)
    requires op !in ["and", "or", "not"]
    ensures OneKey(Obj(map[op := v])) && (Holds(Obj(map[op := v]), c) <==> Leaf(op, v, c) == Some(true))
  {
    assert map[op := v][op] == v;
  }

  function Limit(op: string, path: string, y: real): Dict {
    map[op := Arr([Str(path), Num(y)])]
  }

  predicate Compares(op: string, x: real, y: real) {
    if op == "eq" then x == y else if op == "ne" then x != y else if op == "lt" then x < y
    else if op == "gt" then x > y else if op == "le" then x <= y else x >= y
  }

  /** The first of the cases decides if it holds and names an action; with no other case the fallbacks do if not. */
  lemma FirstCaseDecides(j: NodeInput, env: Env, holds: bool)
    requires j.node.choiceCases != [] && holds == EvalExpr(j.node.choiceCases[0].expr, CtxOf(j, env), env.order)
    ensures var cases := j.node.choiceCases;
      && (holds && cases[0].action != "" ==> ChoiceAction(j, env) == cases[0].action)
      && (!holds && |cases| == 1 ==> ChoiceAction(j, env) == FirstNonEmpty(Fallbacks(j)))
  {
    FallbackChain(j, env);
    var first := FirstCase(j.node.choiceCases, CtxOf(j, env), env.order);
    FirstOf(first, Fallbacks(j));
    if !holds && |j.node.choiceCases| == 1 {
      assert j.node.choiceCases[1..] == [] && first == "";
    }
  }

  lemma LimitHolds(op: string, path: string, k: string, c: Ctx, order: Order, x: real, y: real)
    requires op in ["eq", "ne", "lt", "gt", "le", "ge"] && path != "" && path[0] == '$' && FairOrder(order)
    requires Refers(path, k, c, Num(x))
    ensures EvalExpr(Limit(op, path, y), c, order) <==> Compares(op, x, y)
  {
    NumberOperators(Str(path), Num(y), k, "", c, Num(x), Num(y), x, y);
    OneOperator(op, Arr([Str(path), Num(y)]), c);
    EvalMeansHolds(Obj(Limit(op, path, y)), c, order);
  }

  /** What the references of a row name. */
  function CtxOfRow(def: Flow, t: Task, env: Env): Ctx {
    Ctx(t.shared, NodeAt(def, t.cursor).params + t.params, InputOf(def, t).input, env.go)
  }

  /** A choice node that compares a number of the shared state, of its parameters or of its input with a limit branches
      on that number: if it compares, the row leaves by the action of the case, and if not and there is no other case,
      by the fallbacks; its input is under the output key. */
  lemma ChoiceBranches(def: Flow, t: Task, env: Env, op: string, path: string, k: string, x: real, y: real)
    requires NodeAt(def, t.cursor).kind == "choice" && t.status != "canceling" && FairOrder(env.order)
    requires NodeAt(def, t.cursor).choiceCases != [] && op in ["eq", "ne", "lt", "gt", "le", "ge"]
    requires NodeAt(def, t.cursor).choiceCases[0].expr == Limit(op, path, y) && path != "" && path[0] == '$'
    requires Refers(path, k, CtxOfRow(def, t, env), Num(x))
    ensures var t', node := Advance(def, t, env), NodeAt(def, t.cursor);
      && (Compares(op, x, y) && node.choiceCases[0].action != "" ==> t'.lastAction == node.choiceCases[0].action)
      && (!Compares(op, x, y) && |node.choiceCases| == 1 ==>
            t'.lastAction == FirstNonEmpty(Fallbacks(InputOf(def, t))))
      && t'.cursor == FindNext(def.edges, t.cursor, t'.lastAction)
      && t'.shared == (if node.post.outputKey == "" then t.shared
                       else t.shared[node.post.outputKey := InputOf(def, t).input])
  {
    var j := InputOf(def, t);
    LimitHolds(op, path, k, CtxOfRow(def, t, env), env.order, x, y);
    FirstCaseDecides(j, env, Compares(op, x, y));
    assert StepWrite(def, t, env) == Some(ChoiceStep(j, env));
  }
}
