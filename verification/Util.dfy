/** Path lookup, edge lookup and key printing (pkg/engine/util.go). */
module Util {
  import opened Json

  const INT64_MIN: int := -0x8000_0000_0000_0000
  const INT64_MAX: int := 0x7fff_ffff_ffff_ffff

  // ---- decimal printing and parsing -------------------------------------------------

  function DigitChar(d: nat): char
    requires d < 10
  {
    '0' + d as char
  }

  predicate IsDigit(c: char) {
    '0' <= c <= '9'
  }

  predicate AllDigits(s: string) {
    forall i | 0 <= i < |s| :: IsDigit(s[i])
  }

  function Digits(n: nat): (s: string)
    ensures s != "" && AllDigits(s)
  {
    if n < 10 then [DigitChar(n)] else Digits(n / 10) + [DigitChar(n % 10)]
  }

  function DigitsValue(s: string): nat
    requires AllDigits(s)
  {
    if s == "" then 0
    else DigitsValue(s[..|s| - 1]) * 10 + (s[|s| - 1] as int - '0' as int)
  }

  function Itoa(n: int): string {
    if n < 0 then "-" + Digits(-n) else Digits(n)
  }

  /** strconv.Atoi: optional sign, at least one digit, and a value that fits a 64-bit int. */
  function Atoi(s: string): Option<int> {
    var neg := s != "" && s[0] == '-';
    var ds := if s != "" && (s[0] == '-' || s[0] == '+') then s[1..] else s;
    if ds == "" || !AllDigits(ds) then None
    else
      var n := (if neg then -1 else 1) * DigitsValue(ds);
      if INT64_MIN <= n <= INT64_MAX then Some(n) else None
  }

  function IndexKey(i: int): string {
    Itoa(i)
  }

  lemma {:induction false} DigitsRoundTrip(n: nat)
    ensures DigitsValue(Digits(n)) == n
  {
    if n < 10 {
      assert Digits(n)[..0] == "";
    } else {
      DigitsRoundTrip(n / 10);
      var s := Digits(n);
      assert s[..|s| - 1] == Digits(n / 10);
    }
  }

  lemma DigitsAreUnsigned(n: nat)
    ensures Digits(n)[0] != '-' && Digits(n)[0] != '+'
  {
    assert IsDigit(Digits(n)[0]);
  }

  lemma AtoiUnsigned(ds: string)
    requires ds != "" && AllDigits(ds) && ds[0] != '-' && ds[0] != '+' && DigitsValue(ds) <= INT64_MAX
    ensures Atoi(ds) == Some(DigitsValue(ds))
  {
  }

  lemma AtoiSigned(ds: string)
    requires ds != "" && AllDigits(ds) && -(DigitsValue(ds) as int) >= INT64_MIN
    ensures Atoi("-" + ds) == Some(-(DigitsValue(ds) as int))
  {
    assert ("-" + ds)[1..] == ds;
  }

  /** Atoi undoes Itoa on every 64-bit int. */
  lemma AtoiItoa(n: int)
    requires INT64_MIN <= n <= INT64_MAX
    ensures Atoi(Itoa(n)) == Some(n)
  {
    if n < 0 {
      DigitsRoundTrip(-n);
      AtoiSigned(Digits(-n));
    } else {
      DigitsRoundTrip(n);
      DigitsAreUnsigned(n);
      AtoiUnsigned(Digits(n));
    }
  }

  /** Two list positions never share a key, so per-item progress never mixes two items. */
  lemma IndexKeyInjective(i: nat, j: nat)
    ensures IndexKey(i) == IndexKey(j) ==> i == j
  {
    DigitsRoundTrip(i);
    DigitsRoundTrip(j);
  }

  // ---- paths ------------------------------------------------------------------------

  /** strings.Split(s, "."): always at least one part. */
  function Split(s: string): (parts: seq<string>)
    ensures |parts| >= 1
  {
    if s == "" then [""]
    else
      var rest := Split(s[1..]);
      if s[0] == '.' then [""] + rest else [[s[0]] + rest[0]] + rest[1..]
  }

  /** strings.Index for a one-character needle. */
  function IndexOf(s: string, c: char): (i: int)
    ensures -1 <= i < |s|
    ensures i >= 0 ==> s[i] == c && c !in s[..i]
    ensures i < 0 ==> c !in s
  {
    if s == "" then -1
    else if s[0] == c then 0
    else
      var r := IndexOf(s[1..], c);
      if r < 0 then -1
      else
        assert s[..r + 1] == [s[0]] + s[1..][..r];
        r + 1
  }

  datatype Segment = Segment(name: string, idx: int, hasIdx: bool)

  function ParseSegment(seg: string): Segment {
    var i := IndexOf(seg, '[');
    var j := IndexOf(seg, ']');
    if i < 0 || j < 0 || j < i + 1 then Segment(seg, -1, false)
    else
      match Atoi(seg[i + 1..j])
      case None => Segment(seg, -1, false)
      case Some(n) => Segment(seg[..i], n, true)
  }

  /** One iteration of the lookup loop: null means the lookup ends with nil. */
  function Descend(cur: Json, seg: string): Json {
    if seg == "" then cur
    else if !cur.Obj? then Null
    else
      var p := ParseSegment(seg);
      var v := Get(cur.m, p.name);
      if !p.hasIdx then v
      else if v.Arr? && 0 <= p.idx < |v.xs| then v.xs[p.idx]
      else Null
  }

  function Walk(cur: Json, segs: seq<string>): Json
    decreases |segs|
  {
    if segs == [] then cur else Walk(Descend(cur, segs[0]), segs[1..])
  }

  function PathValue(v: Json, path: string): Json {
    Walk(v, Split(path))
  }

  lemma {:induction false} WalkNull(segs: seq<string>)
    ensures Walk(Null, segs) == Null
  {
    if segs != [] {
      WalkNull(segs[1..]);
    }
  }

  method GetByPath(v: Json, path: string) returns (r: Json)
    ensures r == PathValue(v, path)
  {
    if path == "" {
      assert Walk(v, [""]) == v;
      return v;
    }
    var parts := Split(path);
    var cur := v;
    var k := 0;
    while k < |parts|
      invariant 0 <= k <= |parts|
      invariant Walk(v, parts) == Walk(cur, parts[k..])
    {
      var seg := parts[k];
      assert parts[k..][1..] == parts[k + 1..];
      WalkNull(parts[k + 1..]);
      k := k + 1;
      if seg == "" {
        continue;
      }
      var p := ParseSegment(seg);
      if !cur.Obj? {
        return Null;
      }
      cur := Get(cur.m, p.name);
      if p.hasIdx {
        if !cur.Arr? || p.idx < 0 || p.idx >= |cur.xs| {
          return Null;
        }
        cur := cur.xs[p.idx];
      }
      if cur == Null {
        return Null;
      }
    }
    r := cur;
  }

  lemma {:induction false} WalkAppend(v: Json, a: seq<string>, b: seq<string>)
    ensures Walk(v, a + b) == Walk(Walk(v, a), b)
    decreases |a|
  {
    if a == [] {
      assert a + b == b;
    } else {
      assert (a + b)[1..] == a[1..] + b;
      WalkAppend(Descend(v, a[0]), a[1..], b);
    }
  }

  lemma {:induction false} SplitJoin(p: string, q: string)
    ensures Split(p + "." + q) == Split(p) + Split(q)
  {
    if p == "" {
      assert (p + "." + q)[1..] == q;
    } else {
      assert (p + "." + q)[1..] == p[1..] + "." + q;
      SplitJoin(p[1..], q);
    }
  }

  /** A dotted path is the composition of its two halves, empty segments included. */
  lemma PathComposition(v: Json, p: string, q: string)
    ensures PathValue(v, p + "." + q) == PathValue(PathValue(v, p), q)
  {
    SplitJoin(p, q);
    WalkAppend(v, Split(p), Split(q));
  }

  lemma {:induction false} SplitPlain(s: string)
    requires '.' !in s
    ensures Split(s) == [s]
  {
    if s != "" {
      SplitPlain(s[1..]);
      assert s == [s[0]] + s[1..];
    }
  }

  /** A path without dots and brackets. */
  predicate PlainKey(key: string) {
    key != "" && '.' !in key && '[' !in key
  }

  /** The value under a key; null for a missing key, and for a value that is no map. */
  function Field(v: Json, key: string): Json {
    if v.Obj? && key in v.m then v.m[key] else Null
  }

  /** Such a path is a key. */
  lemma PlainPath(v: Json, key: string)
    requires PlainKey(key)
    ensures PathValue(v, key) == Field(v, key)
  {
    SplitPlain(key);
    assert Walk(Field(v, key), []) == Field(v, key);
  }

  lemma ItoaHasNoDot(n: int)
    ensures '.' !in Itoa(n)
  {
    var s := if n < 0 then Digits(-n) else Digits(n);
    assert forall i | 0 <= i < |s| :: IsDigit(s[i]);
  }

  /** name[n] is element n of the list under that name, counted from zero, and null for a missing list or element. */
  lemma IndexedPath(v: Json, name: string, n: int)
    requires PlainKey(name) && ']' !in name && INT64_MIN <= n <= INT64_MAX
    ensures var list := Field(v, name);
      PathValue(v, name + "[" + Itoa(n) + "]")
      == if list.Arr? && 0 <= n < |list.xs| then list.xs[n] else Null
  {
    var seg := name + "[" + Itoa(n) + "]";
    ItoaHasNoDot(n);
    SplitPlain(seg);
    ParseSegmentRoundTrip(name, n);
    assert Walk(Descend(v, seg), []) == Descend(v, seg);
  }

  lemma {:induction false} IndexOfUnique(s: string, i: nat, c: char)
    requires i < |s| && s[i] == c && c !in s[..i]
    ensures IndexOf(s, c) == i
  {
    if i > 0 {
      assert s[0] == s[..i][0];
      assert s[1..][..i - 1] == s[..i][1..];
      IndexOfUnique(s[1..], i - 1, c);
    }
  }

  lemma ItoaHasNoBracket(n: int)
    ensures ']' !in Itoa(n)
  {
    var s := if n < 0 then Digits(-n) else Digits(n);
    assert forall i | 0 <= i < |s| :: IsDigit(s[i]);
  }

  /** name[decimal] is read back as exactly that name and that index. */
  lemma ParseSegmentRoundTrip(name: string, n: int)
    requires '[' !in name && ']' !in name
    requires INT64_MIN <= n <= INT64_MAX
    ensures ParseSegment(name + "[" + Itoa(n) + "]") == Segment(name, n, true)
  {
    var num := Itoa(n);
    var seg := name + "[" + num + "]";
    var i, j := |name|, |name| + 1 + |num|;
    ItoaHasNoBracket(n);
    AtoiItoa(n);
    assert seg[..i] == name;
    assert seg[..j] == name + "[" + num;
    assert seg[i + 1..j] == num;
    IndexOfUnique(seg, i, '[');
    IndexOfUnique(seg, j, ']');
  }

  /** The name the first non-empty segment of a path looks up, if there is one. */
  function FirstName(segs: seq<string>): Option<string> {
    if segs == [] then None
    else if segs[0] == "" then FirstName(segs[1..])
    else Some(ParseSegment(segs[0]).name)
  }

  /** A path that starts at another name does not see a change of one top-level key. */
  lemma {:induction false} PathIgnoresOtherKeys(m: Dict, m': Dict, key: string, segs: seq<string>)
    requires m - {key} == m' - {key}
    requires FirstName(segs).Some? && FirstName(segs).value != key
    ensures Walk(Obj(m), segs) == Walk(Obj(m'), segs)
  {
    if segs[0] == "" {
      PathIgnoresOtherKeys(m, m', key, segs[1..]);
    } else {
      var name := ParseSegment(segs[0]).name;
      assert name in m <==> name in m - {key};
      assert name in m' <==> name in m' - {key};
      assert name in m ==> m[name] == (m - {key})[name];
      assert name in m' ==> m'[name] == (m' - {key})[name];
      assert Get(m, name) == Get(m', name);
    }
  }

  // ---- edges and actions ------------------------------------------------------------

  datatype Edge = Edge(from: string, action: string, to: string)

  function ActionName(action: string): string {
    if action == "" then "default" else action
  }

  predicate Matches(e: Edge, from: string, action: string) {
    e.from == from && e.action == ActionName(action)
  }

  function FindNext(edges: seq<Edge>, from: string, action: string): string {
    if edges == [] then ""
    else if Matches(edges[0], from, action) then edges[0].to
    else FindNext(edges[1..], from, action)
  }

  /** `to` is where the first edge for (from, action) leads; no such edge means the empty key. */
  ghost predicate FirstEdge(edges: seq<Edge>, from: string, action: string, to: string) {
    || (exists i | 0 <= i < |edges| ::
          && Matches(edges[i], from, action) && edges[i].to == to
          && forall j | 0 <= j < i :: !Matches(edges[j], from, action))
    || (to == "" && forall i | 0 <= i < |edges| :: !Matches(edges[i], from, action))
  }

  /** FindNext returns the target of the first matching edge, and the empty key exactly when none matches
      or the edge itself leads nowhere. In particular a non-empty action never falls back to "default". */
  lemma {:induction false} FindNextIsFirstEdge(edges: seq<Edge>, from: string, action: string)
    ensures FirstEdge(edges, from, action, FindNext(edges, from, action))
  {
    if edges != [] && !Matches(edges[0], from, action) {
      var rest := edges[1..];
      FindNextIsFirstEdge(rest, from, action);
      var to := FindNext(rest, from, action);
      if i :| 0 <= i < |rest| && Matches(rest[i], from, action) && rest[i].to == to
              && forall j | 0 <= j < i :: !Matches(rest[j], from, action) {
        assert edges[i + 1] == rest[i];
        assert forall j | 0 < j < i + 1 :: edges[j] == rest[j - 1];
      } else {
        assert forall i | 0 < i < |edges| :: edges[i] == rest[i - 1];
      }
    }
  }

  function PickAction(res: Json, key: string): string {
    AsStr(Get(AsObj(res), key))
  }
}
