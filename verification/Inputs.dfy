/** What a node is called with: references, parameters and the prep section of a node (pkg/engine/expr.go,
    pkg/engine/core.go), and how the output of one step becomes the input of the next. */
module Inputs {
  import opened Json
  import opened Util
  import opened Expr
  import opened Types
  import opened Core
  import opened Step
  import opened Runs
  import opened Executor

  // ---- references -------------------------------------------------------------------

  /** "$params.k", "$shared.k" and "$input.k" are the values under k in the parameters, in the shared state and in the
      input; "$input" is the input. */
  lemma PlainReferences(k: string, shared: Dict, params: Dict, input: Json)
    requires PlainKey(k)
    ensures ResolveRef("$params." + k, shared, params, input) == if k in params then params[k] else Null
    ensures ResolveRef("$shared." + k, shared, params, input) == if k in shared then shared[k] else Null
    ensures ResolveRef("$input." + k, shared, params, input) == Field(input, k)
    ensures ResolveRef("$input", shared, params, input) == input
  {
    PlainPath(Obj(params), k);
    PlainPath(Obj(shared), k);
    PlainPath(input, k);
    var p, s, i := "$params." + k, "$shared." + k, "$input." + k;
    assert p[8..] == k && s[8..] == k && i[6..] == "." + k && ("." + k)[1..] == k;
    assert s[1] == 's' && i[1] == 'i' && "$params."[1] == 'p' && "$shared."[1] == 's';
  }

  /** What is no reference stands for itself. */
  lemma Literals(path: string, shared: Dict, params: Dict, input: Json)
    requires path == "" || path[0] != '$'
    ensures ResolveRef(path, shared, params, input) == Str(path)
  {
    assert "$params."[0] == '$' && "$shared."[0] == '$' && "$input"[0] == '$';
  }

  /** Longer references go on from there. */
  lemma LongReferences(k: string, path: string, shared: Dict, params: Dict, input: Json)
    requires PlainKey(k)
    ensures var v := ResolveRef("$params." + k, shared, params, input);
      ResolveRef("$params." + k + "." + path, shared, params, input) == PathValue(v, path)
    ensures var v := ResolveRef("$shared." + k, shared, params, input);
      ResolveRef("$shared." + k + "." + path, shared, params, input) == PathValue(v, path)
  {
    var rest := k + "." + path;
    var p, s := "$params." + k + "." + path, "$shared." + k + "." + path;
    assert p == "$params." + rest && p[8..] == rest && s == "$shared." + rest && s[8..] == rest;
    assert ("$params." + k)[8..] == k && ("$shared." + k)[8..] == k;
    assert s[1] == 's' && ("$shared." + k)[1] == 's' && "$params."[1] == 'p';
    assert rest[0] == k[0] && k[0] in k;
    PathComposition(Obj(params), k, path);
    PathComposition(Obj(shared), k, path);
  }

  // ---- parameters and inputs --------------------------------------------------------

  /** The parameters of the task win over those of the node. */
  lemma TaskParamsWin(def: Flow, t: Task, k: string)
    ensures var params := InputOf(def, t).params;
      && (k in params <==> k in t.params || k in NodeAt(def, t.cursor).params)
      && (k in params ==> params[k] == if k in t.params then t.params[k] else NodeAt(def, t.cursor).params[k])
  {
  }

  /** The value a prep path names: a reference, or a key of the shared state. */
  predicate Names(path: string, k: string, shared: Dict, params: Dict, v: Json) {
    PlainKey(k) &&
      (|| (path == "$shared." + k && v == Field(Obj(shared), k))
       || (path == "$params." + k && v == Field(Obj(params), k)))
  }

  lemma NamedRef(path: string, k: string, shared: Dict, params: Dict, v: Json)
    requires Names(path, k, shared, params, v)
    ensures HasPrefix(path, "$") && ResolveRef(path, shared, params, Null) == v
  {
    PlainReferences(k, shared, params, Null);
    assert path[0] == '$';
  }

  /** An input key is a reference or a key of the shared state; without one the input is null. */
  lemma InputFromKey(def: Flow, t: Task, k: string, v: Json)
    requires var prep := NodeAt(def, t.cursor).prep;
      prep.inputMap.None?
      && (|| Names(prep.inputKey, k, t.shared, InputOf(def, t).params, v)
          || (prep.inputKey == k && PlainKey(k) && k[0] != '$' && v == Field(Obj(t.shared), k))
          || (prep.inputKey == "" && v == Null))
    ensures InputOf(def, t).input == v
  {
    var key := NodeAt(def, t.cursor).prep.inputKey;
    if key != "" && key[0] == '$' {
      NamedRef(key, k, t.shared, InputOf(def, t).params, v);
    } else if key != "" {
      PlainPath(Obj(t.shared), k);
    }
  }

  /** An input map gives each of its names the value of its reference, or the text itself if it is none. */
  lemma InputFromMap(def: Flow, t: Task, name: string, k: string, v: Json)
    requires NodeAt(def, t.cursor).prep.inputMap.Some? && name in NodeAt(def, t.cursor).prep.inputMap.value
    requires var path := NodeAt(def, t.cursor).prep.inputMap.value[name];
      Names(path, k, t.shared, InputOf(def, t).params, v) || ((path == "" || path[0] != '$') && v == Str(path))
    ensures var input := InputOf(def, t).input;
      && input.Obj? && input.m.Keys == NodeAt(def, t.cursor).prep.inputMap.value.Keys
      && input.m[name] == v
  {
    var path := NodeAt(def, t.cursor).prep.inputMap.value[name];
    if path != "" && path[0] == '$' {
      NamedRef(path, k, t.shared, InputOf(def, t).params, v);
    } else {
      Literals(path, t.shared, InputOf(def, t).params, Null);
    }
  }
}
