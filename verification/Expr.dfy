/** References and boolean expressions of choice nodes (pkg/engine/expr.go). */
module Expr {
  import opened Json
  import opened Util

  /** Go library calls that are not spelled out here: float parsing and the printing of non-strings. */
  datatype Runtime = Runtime(parseFloat: string -> Option<real>, render: Json -> string)

  /** The order in which the Go runtime happens to iterate over each map. */
  type Order = Dict -> seq<string>

  datatype Ctx = Ctx(shared: Dict, params: Dict, input: Json, go: Runtime)

  function DropDot(k: string): string {
    if k != "" && k[0] == '.' then k[1..] else k
  }

  function ResolveRef(path: string, shared: Dict, params: Dict, input: Json): Json {
    if HasPrefix(path, "$params.") then PathValue(Obj(params), DropDot(path[8..]))
    else if HasPrefix(path, "$shared.") then PathValue(Obj(shared), DropDot(path[8..]))
    else if HasPrefix(path, "$input") then
      if path == "$input" then input else PathValue(input, DropDot(path[6..]))
    else Str(path)
  }

  function Resolve(v: Json, c: Ctx): Json {
    if v.Str? then ResolveRef(v.s, c.shared, c.params, c.input) else v
  }

  // ---- comparison -------------------------------------------------------------------

  function AsFloat(v: Json, go: Runtime): Option<real> {
    match v
    case Num(n) => Some(n)
    case Str(s) => go.parseFloat(s)
    case _ => None
  }

  function Text(v: Json, go: Runtime): string {
    if v.Str? then v.s else go.render(v)
  }

  predicate StrLess(a: string, b: string) {
    b != "" && (a == "" || a[0] < b[0] || (a[0] == b[0] && StrLess(a[1..], b[1..])))
  }

  function Compare(a: Json, b: Json, go: Runtime): int {
    var fa, fb := AsFloat(a, go), AsFloat(b, go);
    if fa.Some? && fb.Some? then
      if fa.value < fb.value then -1 else if fa.value > fb.value then 1 else 0
    else
      var sa, sb := Text(a, go), Text(b, go);
      if StrLess(sa, sb) then -1 else if StrLess(sb, sa) then 1 else 0
  }

  predicate Equal(a: Json, b: Json, go: Runtime) {
    var fa, fb := AsFloat(a, go), AsFloat(b, go);
    if fa.Some? && fb.Some? then fa.value == fb.value else Text(a, go) == Text(b, go)
  }

  lemma {:induction false} StrTrichotomy(a: string, b: string)
    ensures !(StrLess(a, b) && StrLess(b, a))
    ensures StrLess(a, b) || StrLess(b, a) <==> a != b
  {
    if a != "" && b != "" && a[0] == b[0] {
      StrTrichotomy(a[1..], b[1..]);
      assert a == [a[0]] + a[1..] && b == [b[0]] + b[1..];
    }
  }

  // ---- evaluation -------------------------------------------------------------------

  predicate OccursAt(s: string, sub: string, i: nat) {
    i + |sub| <= |s| && s[i..i + |sub|] == sub
  }

  predicate Contains(s: string, sub: string) {
    exists i: nat | i <= |s| :: OccursAt(s, sub, i)
  }

  predicate Member(col: Json, val: Json, go: Runtime) {
    if col.Arr? then exists i | 0 <= i < |col.xs| :: Equal(col.xs[i], val, go)
    else col.Str? && val.Str? && Contains(col.s, val.s)
  }

  /** The operators that do not recurse; None means the Go loop goes on to the next key. */
  function Leaf(op: string, v: Json, c: Ctx): Option<bool> {
    if op == "exists" then
      if v.Str? then Some(ResolveRef(v.s, c.shared, c.params, c.input) != Null) else None
    else if !v.Arr? || |v.xs| != 2 then None
    else
      var a, b := Resolve(v.xs[0], c), Resolve(v.xs[1], c);
      if op == "eq" then Some(Equal(a, b, c.go))
      else if op == "ne" then Some(!Equal(a, b, c.go))
      else if op == "gt" then Some(Compare(a, b, c.go) > 0)
      else if op == "lt" then Some(Compare(a, b, c.go) < 0)
      else if op == "ge" then Some(Compare(a, b, c.go) >= 0)
      else if op == "le" then Some(Compare(a, b, c.go) <= 0)
      else if op == "in" then Some(Member(b, a, c.go))
      else if op == "contains" then Some(Member(a, b, c.go))
      else None
  }

  function ToMap(v: Json): Dict {
    if v.Obj? then v.m else map["eq" := Arr([v, Bool(true)])]
  }

  function EvalExpr(e: Dict, c: Ctx, order: Order): bool
    decreases Obj(e), 2
  {
    EvalKeys(e, order(e), c, order)
  }

  function EvalKeys(e: Dict, ks: seq<string>, c: Ctx, order: Order): bool
    decreases Obj(e), 1, |ks|
  {
    if ks == [] then false
    else if ks[0] !in e then EvalKeys(e, ks[1..], c, order)
    else
      match EvalKey(e, ks[0], c, order)
      case Some(r) => r
      case None => EvalKeys(e, ks[1..], c, order)
  }

  function EvalKey(e: Dict, k: string, c: Ctx, order: Order): Option<bool>
    requires k in e
    decreases Obj(e), 0
  {
    var v := e[k];
    if k == "and" then if v.Arr? then Some(EvalAll(v.xs, c, order)) else None
    else if k == "or" then if v.Arr? then Some(EvalSome(v.xs, c, order)) else None
    else if k == "not" then Some(!EvalAny(v, c, order))
    else Leaf(k, v, c)
  }

  /** evalExpr(toMap(v)). The map built for a non-map has only a leaf operator, so it is read directly;
      WrappedValue states that this is the same evaluation. */
  function EvalAny(v: Json, c: Ctx, order: Order): bool
    decreases v, 3
  {
    if v.Obj? then EvalExpr(v.m, c, order) else Leaf("eq", Arr([v, Bool(true)]), c) == Some(true)
  }

  function EvalAll(xs: seq<Json>, c: Ctx, order: Order): bool
    decreases xs
  {
    xs == [] || (EvalAny(xs[0], c, order) && EvalAll(xs[1..], c, order))
  }

  function EvalSome(xs: seq<Json>, c: Ctx, order: Order): bool
    decreases xs
  {
    xs != [] && (EvalAny(xs[0], c, order) || EvalSome(xs[1..], c, order))
  }

  /** The iteration order of a map lists exactly its keys, each once. */
  ghost predicate FairOrder(order: Order) {
    forall e: Dict ::
      && |order(e)| == |e|
      && forall k :: k in order(e) <==> k in e
  }

  lemma SingleKeyOrder(e: Dict, k: string, order: Order)
    requires FairOrder(order) && e.Keys == {k}
    ensures order(e) == [k]
  {
    assert |e| == |e.Keys| == 1;
    assert order(e)[0] in order(e);
  }

  lemma WrappedValue(v: Json, c: Ctx, order: Order)
    requires FairOrder(order)
    ensures EvalAny(v, c, order) == EvalExpr(ToMap(v), c, order)
  {
    if !v.Obj? {
      SingleKeyOrder(ToMap(v), "eq", order);
      assert EvalKey(ToMap(v), "eq", c, order) == Leaf("eq", Arr([v, Bool(true)]), c);
      assert EvalKeys(ToMap(v), ["eq"], c, order) == (Leaf("eq", Arr([v, Bool(true)]), c) == Some(true));
    }
  }

  // ---- meaning ----------------------------------------------------------------------

  /** Every map that is evaluated as an expression has one key. */
  predicate OneKey(v: Json) {
    v.Obj? ==>
      && |v.m| == 1
      && ("and" in v.m && v.m["and"].Arr? ==> forall i | 0 <= i < |v.m["and"].xs| :: OneKey(v.m["and"].xs[i]))
      && ("or" in v.m && v.m["or"].Arr? ==> forall i | 0 <= i < |v.m["or"].xs| :: OneKey(v.m["or"].xs[i]))
      && ("not" in v.m ==> OneKey(v.m["not"]))
  }

  /** What an expression means, with no order of evaluation in it. */
  ghost predicate Holds(v: Json, c: Ctx) {
    if !v.Obj? then Equal(Resolve(v, c), Bool(true), c.go)
    else if "and" in v.m && v.m["and"].Arr? then
      forall i | 0 <= i < |v.m["and"].xs| :: Holds(v.m["and"].xs[i], c)
    else if "or" in v.m && v.m["or"].Arr? then
      exists i | 0 <= i < |v.m["or"].xs| :: Holds(v.m["or"].xs[i], c)
    else if "not" in v.m then !Holds(v.m["not"], c)
    else exists k | k in v.m :: Leaf(k, v.m[k], c) == Some(true)
  }

  lemma OnlyKey(m: Dict) returns (k: string)
    requires |m| == 1
    ensures m.Keys == {k}
  {
    k :| k in m.Keys;
    assert |m.Keys - {k}| == 0;
    assert m.Keys == {k} + (m.Keys - {k});
  }

  /** Evaluation agrees with the order-free meaning at every depth, for every map iteration order. */
  lemma {:induction false} EvalMeansHolds(v: Json, c: Ctx, order: Order)
    requires FairOrder(order) && OneKey(v)
    ensures EvalAny(v, c, order) <==> Holds(v, c)
    decreases v, 1
  {
    if v.Obj? {
      var k := OnlyKey(v.m);
      SingleKeyOrder(v.m, k, order);
      assert EvalExpr(v.m, c, order) == EvalKeys(v.m, [k], c, order);
      assert EvalAny(v, c, order) <==> EvalKey(v.m, k, c, order) == Some(true);
      if k == "not" {
        EvalMeansHolds(v.m[k], c, order);
      } else if k == "and" && v.m[k].Arr? {
        EvalListMeansHolds(v.m[k].xs, c, order);
      } else if k == "or" && v.m[k].Arr? {
        EvalListMeansHolds(v.m[k].xs, c, order);
      }
    }
  }

  lemma {:induction false} EvalListMeansHolds(xs: seq<Json>, c: Ctx, order: Order)
    requires FairOrder(order) && forall i | 0 <= i < |xs| :: OneKey(xs[i])
    ensures EvalAll(xs, c, order) <==> forall i | 0 <= i < |xs| :: Holds(xs[i], c)
    ensures EvalSome(xs, c, order) <==> exists i | 0 <= i < |xs| :: Holds(xs[i], c)
    decreases xs, 0
  {
    if xs != [] {
      EvalMeansHolds(xs[0], c, order);
      EvalListMeansHolds(xs[1..], c, order);
      assert forall i | 1 <= i < |xs| :: xs[i] == xs[1..][i - 1];
    }
  }

  /** Map iteration order cannot be observed in one-key expressions. */
  lemma OrderIsIrrelevant(e: Dict, c: Ctx, order: Order, order': Order)
    requires FairOrder(order) && FairOrder(order') && OneKey(Obj(e))
    ensures EvalExpr(e, c, order) == EvalExpr(e, c, order')
  {
    EvalMeansHolds(Obj(e), c, order);
    EvalMeansHolds(Obj(e), c, order');
  }

  /** With two keys the result may depend on the order: the one-key condition cannot be dropped. */
  lemma TwoKeysDependOnOrder(c: Ctx, forth: Order, back: Order)
    requires forth(map["and" := Arr([]), "or" := Arr([])]) == ["and", "or"]
    requires back(map["and" := Arr([]), "or" := Arr([])]) == ["or", "and"]
    ensures EvalExpr(map["and" := Arr([]), "or" := Arr([])], c, forth)
         != EvalExpr(map["and" := Arr([]), "or" := Arr([])], c, back)
  {
    var e := map["and" := Arr([]), "or" := Arr([])];
    assert EvalKey(e, "and", c, forth) == Some(true);
    assert EvalKey(e, "or", c, back) == Some(false);
  }

  /** The expressions below the keys of a map, if not the map itself, have one key each. */
  predicate OneKeyOperands(e: Dict) {
    && ("and" in e && e["and"].Arr? ==> forall i | 0 <= i < |e["and"].xs| :: OneKey(e["and"].xs[i]))
    && ("or" in e && e["or"].Arr? ==> forall i | 0 <= i < |e["or"].xs| :: OneKey(e["or"].xs[i]))
    && ("not" in e ==> OneKey(e["not"]))
  }

  /** What one key of a map answers, with no order of evaluation in it; None if it leaves the answer to other keys. */
  ghost function Says(e: Dict, k: string, c: Ctx): Option<bool>
    requires k in e
  {
    var v := e[k];
    if k == "and" then if v.Arr? then Some(forall i | 0 <= i < |v.xs| :: Holds(v.xs[i], c)) else None
    else if k == "or" then if v.Arr? then Some(exists i | 0 <= i < |v.xs| :: Holds(v.xs[i], c)) else None
    else if k == "not" then Some(!Holds(v, c))
    else Leaf(k, v, c)
  }

  lemma KeySays(e: Dict, k: string, c: Ctx, order: Order)
    requires FairOrder(order) && OneKeyOperands(e) && k in e
    ensures EvalKey(e, k, c, order) == Says(e, k, c)
  {
    if k == "not" {
      EvalMeansHolds(e[k], c, order);
    } else if (k == "and" || k == "or") && e[k].Arr? {
      EvalListMeansHolds(e[k].xs, c, order);
    }
  }

  /** All keys that answer give the same answer. */
  ghost predicate Unanimous(e: Dict, c: Ctx) {
    forall k, k' | k in e && k' in e && Says(e, k, c).Some? && Says(e, k', c).Some? :: Says(e, k, c) == Says(e, k', c)
  }

  lemma {:induction false} UnanimousKeys(e: Dict, ks: seq<string>, c: Ctx, order: Order)
    requires FairOrder(order) && OneKeyOperands(e) && Unanimous(e, c)
    ensures EvalKeys(e, ks, c, order) <==> exists k | k in ks && k in e :: Says(e, k, c) == Some(true)
  {
    if ks != [] {
      UnanimousKeys(e, ks[1..], c, order);
      assert forall k :: k in ks <==> k == ks[0] || k in ks[1..];
      if ks[0] in e { KeySays(e, ks[0], c, order); }
    }
  }

  lemma UnanimousValue(e: Dict, c: Ctx, order: Order)
    requires FairOrder(order) && OneKeyOperands(e) && Unanimous(e, c)
    ensures EvalExpr(e, c, order) <==> exists k | k in e :: Says(e, k, c) == Some(true)
  {
    UnanimousKeys(e, order(e), c, order);
  }

  ghost function Listed(ks: set<string>): (r: seq<string>)
    ensures |r| == |ks| && forall k :: k in r <==> k in ks
  {
    if ks == {} then []
    else
      var k :| k in ks;
      [k] + Listed(ks - {k})
  }

  /** An order that looks at key k of map e first. */
  lemma OrderFrom(e: Dict, k: string, c: Ctx) returns (order: Order)
    requires k in e && OneKeyOperands(e) && Says(e, k, c).Some?
    ensures FairOrder(order) && EvalExpr(e, c, order) == Says(e, k, c).value
  {
    order := (m: Dict) => if m == e then [k] + Listed(e.Keys - {k}) else Listed(m.Keys);
    KeySays(e, k, c, order);
  }

  /** Map iteration order can not be observed in a map of any number of keys exactly if all keys that answer agree. */
  lemma OrderShows(e: Dict, c: Ctx)
    requires OneKeyOperands(e)
    ensures Unanimous(e, c) <==>
      forall order, order' | FairOrder(order) && FairOrder(order') :: EvalExpr(e, c, order) == EvalExpr(e, c, order')
  {
    if Unanimous(e, c) {
      forall order, order' | FairOrder(order) && FairOrder(order')
        ensures EvalExpr(e, c, order) == EvalExpr(e, c, order')
      {
        UnanimousValue(e, c, order);
        UnanimousValue(e, c, order');
      }
    } else {
      var k, k' :| k in e && k' in e && Says(e, k, c).Some? && Says(e, k', c).Some? && Says(e, k, c) != Says(e, k', c);
      var order := OrderFrom(e, k, c);
      var order' := OrderFrom(e, k', c);
      assert EvalExpr(e, c, order) != EvalExpr(e, c, order');
    }
  }

  // ---- laws -------------------------------------------------------------------------

  function Single(op: string, v: Json): Json {
    Obj(map[op := v])
  }

  /** Negations pushed inward through and/or/not; `neg` says whether v stands under a negation. */
  function Push(v: Json, neg: bool): Json {
    if v.Obj? && v.m.Keys == {"and"} && v.m["and"].Arr? then
      var xs := v.m["and"].xs;
      Single(if neg then "or" else "and", Arr(seq(|xs|, i requires 0 <= i < |xs| => Push(xs[i], neg))))
    else if v.Obj? && v.m.Keys == {"or"} && v.m["or"].Arr? then
      var xs := v.m["or"].xs;
      Single(if neg then "and" else "or", Arr(seq(|xs|, i requires 0 <= i < |xs| => Push(xs[i], neg))))
    else if v.Obj? && v.m.Keys == {"not"} then Push(v.m["not"], !neg)
    else if neg then Single("not", v)
    else v
  }

  /** No negation stands above an and, an or or another negation. */
  predicate NegationNormal(v: Json) {
    v.Obj? ==>
      && ("and" in v.m && v.m["and"].Arr? ==> forall i | 0 <= i < |v.m["and"].xs| :: NegationNormal(v.m["and"].xs[i]))
      && ("or" in v.m && v.m["or"].Arr? ==> forall i | 0 <= i < |v.m["or"].xs| :: NegationNormal(v.m["or"].xs[i]))
      && ("not" in v.m && v.m["not"].Obj? ==>
            var m := v.m["not"].m;
            && "not" !in m
            && ("and" in m ==> !m["and"].Arr?)
            && ("or" in m ==> !m["or"].Arr?))
  }

  /** w is a one-key expression in normal form that means v, negated if `neg`. */
  ghost predicate Pushed(v: Json, w: Json, neg: bool, c: Ctx) {
    (Holds(w, c) <==> Holds(v, c) != neg) && OneKey(w) && NegationNormal(w)
  }

  function Operands(xs: seq<Json>, neg: bool): seq<Json> {
    seq(|xs|, i requires 0 <= i < |xs| => Push(xs[i], neg))
  }

  lemma PushedList(op: string, xs: seq<Json>, ys: seq<Json>, neg: bool, c: Ctx)
    requires (op == "and" || op == "or") && |ys| == |xs|
    requires forall i | 0 <= i < |xs| :: Pushed(xs[i], ys[i], neg, c)
    ensures Pushed(Single(op, Arr(xs)), Single(if (op == "and") != neg then "and" else "or", Arr(ys)), neg, c)
  {
  }

  lemma PushList(v: Json, op: string, neg: bool)
    requires v.Obj? && v.m.Keys == {op} && (op == "and" || op == "or") && v.m[op].Arr?
    ensures v == Single(op, v.m[op])
    ensures Push(v, neg) == Single(if (op == "and") != neg then "and" else "or", Arr(Operands(v.m[op].xs, neg)))
  {
    assert v.m == map[op := v.m[op]];
  }

  /** Pushing negations inward preserves the meaning of every one-key expression and reaches the normal form. */
  lemma {:induction false} PushPreservesMeaning(v: Json, neg: bool, c: Ctx)
    requires OneKey(v)
    ensures Holds(Push(v, neg), c) <==> Holds(v, c) != neg
    ensures OneKey(Push(v, neg)) && NegationNormal(Push(v, neg))
  {
    if v.Obj? {
      var k := OnlyKey(v.m);
      if (k == "and" || k == "or") && v.m[k].Arr? {
        var xs := v.m[k].xs;
        forall i | 0 <= i < |xs| ensures Pushed(xs[i], Operands(xs, neg)[i], neg, c) {
          PushPreservesMeaning(xs[i], neg, c);
        }
        PushedList(k, xs, Operands(xs, neg), neg, c);
        PushList(v, k, neg);
      } else if k == "not" {
        PushPreservesMeaning(v.m["not"], !neg, c);
      }
    }
  }

  /** eq is ge and le together; gt is lt with the operands swapped; ne, le, ge are the complements. */
  lemma ComparisonLaws(a: Json, b: Json, c: Ctx)
    ensures Leaf("eq", Arr([a, b]), c) == Some(true)
       <==> Leaf("ge", Arr([a, b]), c) == Some(true) && Leaf("le", Arr([a, b]), c) == Some(true)
    ensures Leaf("gt", Arr([a, b]), c) == Leaf("lt", Arr([b, a]), c)
    ensures Leaf("ge", Arr([a, b]), c) == Leaf("le", Arr([b, a]), c)
    ensures Leaf("ne", Arr([a, b]), c) != Leaf("eq", Arr([a, b]), c)
    ensures Leaf("gt", Arr([a, b]), c) != Leaf("le", Arr([a, b]), c)
  {
    StrTrichotomy(Text(Resolve(a, c), c.go), Text(Resolve(b, c), c.go));
  }
}
