/** Progress of a fan-out node as the set of its settled branches, and the number of batches it takes. */
module FanProgress {
  import opened Json
  import opened Types
  import opened Fanout

  ghost predicate Distinct(keys: seq<string>) {
    forall a, b | 0 <= a < b < |keys| :: keys[a] != keys[b]
  }

  type Answers = map<string, Outcome>

  function KeySet(keys: seq<string>): set<string> {
    set i | 0 <= i < |keys| :: keys[i]
  }

  ghost predicate Settles(out: Answers, keys: seq<string>) {
    forall i | 0 <= i < |keys| :: keys[i] in out && !out[keys[i]].Pending?
  }

  function DoneOf(out: Answers, d: set<string>): Dict {
    map k | k in d && k in out && out[k].Ok? :: out[k].value
  }

  function ErrsOf(out: Answers, d: set<string>): Dict {
    map k | k in d && k in out && out[k].Err? :: Str(out[k].msg)
  }

  function ProgressOf(out: Answers, d: set<string>): Progress {
    Progress(DoneOf(out, d), ErrsOf(out, d), false, false)
  }

  function Keys(got: seq<(string, Outcome)>): set<string> {
    set i | 0 <= i < |got| :: got[i].0
  }

  ghost predicate AnyErr(out: Answers, ks: set<string>) {
    exists k | k in ks :: k in out && out[k].Err?
  }

  lemma ReceiveOne(out: Answers, d: set<string>, hadErr: bool, k: string)
    requires k in out && !out[k].Pending?
    ensures Receive(ProgressOf(out, d).(hadErr := hadErr), k, out[k])
         == ProgressOf(out, d + {k}).(hadErr := hadErr || out[k].Err?)
  {
    if out[k].Ok? {
      assert DoneOf(out, d + {k}) == DoneOf(out, d)[k := out[k].value];
      assert ErrsOf(out, d + {k}) == ErrsOf(out, d);
    } else {
      assert DoneOf(out, d + {k}) == DoneOf(out, d);
      assert ErrsOf(out, d + {k}) == ErrsOf(out, d)[k := Str(out[k].msg)];
    }
  }

  /** Receiving answers adds exactly their keys, in whatever order they come. */
  lemma {:induction false} ReceiveAnswers(out: Answers, d: set<string>, got: seq<(string, Outcome)>)
    requires forall i | 0 <= i < |got| :: got[i].0 in out && got[i].1 == out[got[i].0] && !got[i].1.Pending?
    ensures ReceiveAll(ProgressOf(out, d), got)
         == ProgressOf(out, d + Keys(got)).(hadErr := AnyErr(out, Keys(got)))
  {
    if got == [] {
      assert d + Keys(got) == d;
    } else {
      var n := |got| - 1;
      ReceiveAnswers(out, d, got[..n]);
      ReceiveOne(out, d + Keys(got[..n]), AnyErr(out, Keys(got[..n])), got[n].0);
      assert Keys(got) == Keys(got[..n]) + {got[n].0};
      assert d + Keys(got) == d + Keys(got[..n]) + {got[n].0};
    }
  }

  // ---- any answers ------------------------------------------------------------------

  ghost predicate AnyPending(out: Answers, ks: set<string>) {
    exists k | k in ks :: k in out && out[k].Pending?
  }

  ghost function Received(p: Progress, out: Answers, ks: set<string>): Progress {
    Progress(p.done + DoneOf(out, ks), p.errs + ErrsOf(out, ks),
      p.hadErr || AnyErr(out, ks), p.pending || AnyPending(out, ks))
  }

  lemma OneMore(out: Answers, ks: set<string>, k: string)
    requires k in out
    ensures AnyPending(out, ks + {k}) <==> AnyPending(out, ks) || out[k].Pending?
    ensures AnyErr(out, ks + {k}) <==> AnyErr(out, ks) || out[k].Err?
  {
    assert k in ks + {k};
  }

  lemma ReceivedOne(p: Progress, out: Answers, ks: set<string>, k: string)
    requires k in out
    ensures Receive(Received(p, out, ks), k, out[k]) == Received(p, out, ks + {k})
  {
    OneMore(out, ks, k);
    var d, e := DoneOf(out, ks), ErrsOf(out, ks);
    match out[k]
    case Ok(v) =>
      assert DoneOf(out, ks + {k}) == d[k := v];
      assert ErrsOf(out, ks + {k}) == e;
      assert p.done + d[k := v] == (p.done + d)[k := v];
    case Err(msg, _) =>
      assert DoneOf(out, ks + {k}) == d;
      assert ErrsOf(out, ks + {k}) == e[k := Str(msg)];
      assert p.errs + e[k := Str(msg)] == (p.errs + e)[k := Str(msg)];
    case Pending =>
      assert DoneOf(out, ks + {k}) == d;
      assert ErrsOf(out, ks + {k}) == e;
  }

  /** Consistent results amount to the same progress in every order. */
  lemma {:induction false} ReceiveAllIs(p: Progress, out: Answers, got: seq<(string, Outcome)>)
    requires forall i | 0 <= i < |got| :: got[i].0 in out && got[i].1 == out[got[i].0]
    ensures ReceiveAll(p, got) == Received(p, out, Keys(got))
  {
    if got == [] {
      assert Keys(got) == {};
      assert DoneOf(out, {}) == map[] && ErrsOf(out, {}) == map[];
    } else {
      var n := |got| - 1;
      ReceiveAllIs(p, out, got[..n]);
      ReceivedOne(p, out, Keys(got[..n]), got[n].0);
      assert Keys(got) == Keys(got[..n]) + {got[n].0};
    }
  }

  /** The keys a batch settles do not depend on the arrival order. */
  lemma ArrivalKeys(f: Fan, sel: seq<nat>, env: Env)
    requires ValidFan(f) && forall i | 0 <= i < |sel| :: sel[i] < |f.keys|
    ensures Keys(Arrivals(f, sel, env)) == set i | 0 <= i < |sel| :: f.keys[sel[i]]
  {
    var got, order := Arrivals(f, sel, env), ArrivalOrder(env, |sel|);
    forall i | 0 <= i < |sel|
      ensures f.keys[sel[i]] in Keys(got)
    {
      assert i in order;
      var a :| 0 <= a < |order| && order[a] == i;
      assert got[a].0 == f.keys[sel[i]];
    }
  }

  // ---- remaining branches -----------------------------------------------------------

  lemma {:induction false} RemainingAre(keys: seq<string>, p: Progress, i: nat)
    ensures i in Remaining(keys, p) <==> i < |keys| && !Settled(keys[i], p)
  {
    if keys != [] {
      RemainingAre(keys[..|keys| - 1], p, i);
    }
  }

  lemma {:induction false} RemainingSorted(keys: seq<string>, p: Progress)
    ensures forall a, b | 0 <= a < b < |Remaining(keys, p)| :: Remaining(keys, p)[a] < Remaining(keys, p)[b]
  {
    if keys != [] {
      RemainingSorted(keys[..|keys| - 1], p);
    }
  }

  function IndexSet(sel: seq<nat>): set<nat> {
    set i | 0 <= i < |sel| :: sel[i]
  }

  lemma {:induction false} IndexSetSize(sel: seq<nat>)
    requires forall a, b | 0 <= a < b < |sel| :: sel[a] < sel[b]
    ensures |IndexSet(sel)| == |sel|
  {
    if sel != [] {
      var n := |sel| - 1;
      IndexSetSize(sel[..n]);
      assert IndexSet(sel) == IndexSet(sel[..n]) + {sel[n]};
    }
  }

  /** The open branches as a set of positions; Remaining lists them without repetition. */
  function OpenSet(keys: seq<string>, p: Progress): set<nat> {
    set i: nat | i < |keys| && !Settled(keys[i], p)
  }

  lemma RemainingCount(keys: seq<string>, p: Progress)
    ensures IndexSet(Remaining(keys, p)) == OpenSet(keys, p)
    ensures |Remaining(keys, p)| == |OpenSet(keys, p)|
  {
    RemainingSorted(keys, p);
    IndexSetSize(Remaining(keys, p));
    forall i: nat ensures i in IndexSet(Remaining(keys, p)) <==> i in OpenSet(keys, p) {
      RemainingAre(keys, p, i);
    }
  }

  function BatchKeys(keys: seq<string>, sel: seq<nat>): set<string> {
    set a | 0 <= a < |sel| && sel[a] < |keys| :: keys[sel[a]]
  }

  lemma BatchIsOpen(keys: seq<string>, p: Progress, sel: seq<nat>)
    requires sel <= Remaining(keys, p)
    ensures IndexSet(sel) <= OpenSet(keys, p) && |IndexSet(sel)| == |sel|
    ensures forall a | 0 <= a < |sel| :: sel[a] < |keys|
  {
    RemainingSorted(keys, p);
    assert forall a | 0 <= a < |sel| :: sel[a] == Remaining(keys, p)[a];
    IndexSetSize(sel);
  }

  /** p' settles what p settles and the keys of the batch. */
  ghost predicate SettlesBatch(keys: seq<string>, p: Progress, p': Progress, sel: seq<nat>) {
    && (forall a | 0 <= a < |sel| :: sel[a] < |keys|)
    && (forall i | 0 <= i < |keys| ::
          Settled(keys[i], p') <==> Settled(keys[i], p) || keys[i] in BatchKeys(keys, sel))
  }

  lemma BatchLeaves(keys: seq<string>, p: Progress, p': Progress, sel: seq<nat>, a: nat)
    requires SettlesBatch(keys, p, p', sel) && a < |sel|
    ensures sel[a] !in OpenSet(keys, p')
  {
    assert keys[sel[a]] in BatchKeys(keys, sel);
  }

  lemma OnlyBatchLeaves(keys: seq<string>, p: Progress, p': Progress, sel: seq<nat>, i: nat)
    requires SettlesBatch(keys, p, p', sel) && Distinct(keys)
    requires i in OpenSet(keys, p) && i !in OpenSet(keys, p')
    ensures i in IndexSet(sel)
  {
    var a :| 0 <= a < |sel| && keys[sel[a]] == keys[i];
    assert sel[a] == i;
  }

  /** Settling a batch of open branches leaves fewer; with distinct keys exactly the batch is gone. */
  lemma BatchSettles(keys: seq<string>, p: Progress, p': Progress, sel: seq<nat>)
    requires sel <= Remaining(keys, p) && sel != [] && SettlesBatch(keys, p, p', sel)
    ensures |Remaining(keys, p')| < |Remaining(keys, p)|
    ensures Distinct(keys) ==> |Remaining(keys, p')| == |Remaining(keys, p)| - |sel|
  {
    RemainingCount(keys, p);
    RemainingCount(keys, p');
    BatchIsOpen(keys, p, sel);
    var open, open' := OpenSet(keys, p), OpenSet(keys, p');
    assert open' <= open;
    assert sel[0] in IndexSet(sel);
    BatchLeaves(keys, p, p', sel, 0);
    ProperSubsetSize(open', open);
    if Distinct(keys) {
      forall i: nat | i in open ensures i in open' <==> i !in IndexSet(sel) {
        if i in IndexSet(sel) {
          var a: nat :| a < |sel| && sel[a] == i;
          BatchLeaves(keys, p, p', sel, a);
        } else if i !in open' {
          OnlyBatchLeaves(keys, p, p', sel, i);
        }
      }
      assert open' == open - IndexSet(sel);
    }
  }

  lemma {:induction false} ReceivedSettles(p: Progress, got: seq<(string, Outcome)>, k: string)
    ensures var p' := ReceiveAll(p, got);
      && (p.pending ==> p'.pending)
      && (!p'.pending ==> (Settled(k, p') <==> Settled(k, p) || k in Keys(got)))
  {
    if got != [] {
      var n := |got| - 1;
      ReceivedSettles(p, got[..n], k);
      assert Keys(got) == Keys(got[..n]) + {got[n].0};
    }
  }

  /** Whatever the branches answer, a batch without a pending one settles exactly its branches. */
  lemma BatchDecreases(f: Fan, p: Progress, sel: seq<nat>, env: Env)
    requires ValidFan(f) && sel != [] && sel <= Remaining(f.keys, p)
    requires forall i | 0 <= i < |sel| :: sel[i] < |f.keys|
    requires !ReceiveAll(p, Arrivals(f, sel, env)).pending
    ensures var p' := ReceiveAll(p, Arrivals(f, sel, env));
      && SettlesBatch(f.keys, p, p', sel)
      && |Remaining(f.keys, p')| < |Remaining(f.keys, p)|
      && (Distinct(f.keys) ==> |Remaining(f.keys, p')| == |Remaining(f.keys, p)| - |sel|)
  {
    var got := Arrivals(f, sel, env);
    var p' := ReceiveAll(p, got);
    ArrivalKeys(f, sel, env);
    forall i | 0 <= i < |f.keys|
      ensures Settled(f.keys[i], p')
         <==> Settled(f.keys[i], p) || f.keys[i] in BatchKeys(f.keys, sel)
    {
      ReceivedSettles(p, got, f.keys[i]);
    }
    BatchSettles(f.keys, p, p', sel);
  }

  lemma SameProgress(keys: seq<string>, p: Progress, p': Progress)
    requires p.done == p'.done && p.errs == p'.errs
    ensures Remaining(keys, p) == Remaining(keys, p')
    decreases |keys|
  {
    if keys != [] {
      SameProgress(keys[..|keys| - 1], p, p');
    }
  }

  lemma ProperSubsetSize(a: set<nat>, b: set<nat>)
    requires a < b
    ensures |a| < |b|
  {
    assert b == a + (b - a);
  }
  // ---- batches ----------------------------------------------------------------------

  /** How the branches are batched and what each of them answers. */
  datatype Plan = Plan(concurrent: bool, max: int, keys: seq<string>, out: Answers) {
    ghost predicate Valid() {
      Settles(out, keys)
    }

    function Remaining(d: set<string>): (rem: seq<nat>)
      ensures forall i | 0 <= i < |rem| :: rem[i] < |keys|
    {
      Fanout.Remaining(keys, ProgressOf(out, d))
    }

    function Open(d: set<string>): nat {
      |Remaining(d)|
    }

    function Unsettled(d: set<string>): nat {
      |KeySet(keys) - d|
    }

    function Size(n: nat): (size: nat)
      ensures size <= n && (n > 0 ==> size > 0)
    {
      if n == 0 then 0 else if concurrent then BatchSize(max, n) else 1
    }

    function Batch(d: set<string>): (sel: seq<nat>)
      ensures forall a | 0 <= a < |sel| :: sel[a] < |keys|
    {
      Remaining(d)[..Size(Open(d))]
    }

    function Next(d: set<string>): set<string> {
      d + BatchKeys(keys, Batch(d))
    }

    /** The settled keys after n batches. */
    function After(n: nat): set<string> {
      if n == 0 then {} else Next(After(n - 1))
    }

    /** The number of batches for n branches with distinct keys. */
    function Rounds(n: nat): nat {
      if n == 0 then 0 else 1 + Rounds(n - Size(n))
    }
  }

  /** Sequential mode takes one step a branch, unbounded concurrency one step, and a bound m exactly ceil(n/m). */
  lemma {:induction false} RoundsClosedForm(p: Plan, n: nat)
    ensures !p.concurrent ==> p.Rounds(n) == n
    ensures p.concurrent && p.max <= 0 ==> p.Rounds(n) == if n == 0 then 0 else 1
    ensures p.concurrent && p.max > 0 ==> n <= p.Rounds(n) * p.max < n + p.max
  {
    if n > 0 {
      RoundsClosedForm(p, n - p.Size(n));
      if p.concurrent && p.max > 0 {
        var r := p.Rounds(n - p.Size(n));
        assert (1 + r) * p.max == p.max + r * p.max;
      }
    }
  }

  lemma SettledIn(out: Answers, d: set<string>, k: string)
    requires k in out && !out[k].Pending?
    ensures Settled(k, ProgressOf(out, d)) <==> k in d
  {
  }

  lemma NextSettlesBatch(p: Plan, d: set<string>)
    requires p.Valid()
    ensures SettlesBatch(p.keys, ProgressOf(p.out, d), ProgressOf(p.out, p.Next(d)), p.Batch(d))
  {
    forall i | 0 <= i < |p.keys|
      ensures Settled(p.keys[i], ProgressOf(p.out, d)) <==> p.keys[i] in d
      ensures Settled(p.keys[i], ProgressOf(p.out, p.Next(d))) <==> p.keys[i] in p.Next(d)
    {
      SettledIn(p.out, d, p.keys[i]);
      SettledIn(p.out, p.Next(d), p.keys[i]);
    }
  }

  /** A batch leaves fewer branches open; with distinct keys exactly its own are gone. */
  lemma NextIsCloser(p: Plan, d: set<string>)
    requires p.Valid() && p.Open(d) > 0
    ensures p.Open(p.Next(d)) < p.Open(d)
    ensures Distinct(p.keys) ==> p.Open(p.Next(d)) == p.Open(d) - p.Size(p.Open(d))
  {
    NextSettlesBatch(p, d);
    BatchSettles(p.keys, ProgressOf(p.out, d), ProgressOf(p.out, p.Next(d)), p.Batch(d));
  }

  lemma NextStaysInside(p: Plan, d: set<string>)
    requires d <= KeySet(p.keys)
    ensures p.Next(d) <= KeySet(p.keys)
  {
  }

  /** Sequentially each batch settles one more key. */
  lemma OneMoreKey(p: Plan, d: set<string>)
    requires p.Valid() && !p.concurrent && p.Open(d) > 0
    ensures p.Unsettled(d) == p.Unsettled(p.Next(d)) + 1
  {
    var i := p.Remaining(d)[0];
    var k := p.keys[i];
    assert p.Batch(d) == [i];
    SettledIn(p.out, d, k);
    assert BatchKeys(p.keys, [i]) == {k};
    assert k in KeySet(p.keys) - d;
    assert KeySet(p.keys) - p.Next(d) == (KeySet(p.keys) - d) - {k};
  }

  lemma {:induction false} NothingSettled(keys: seq<string>, p: Progress)
    requires p.done == map[] && p.errs == map[]
    ensures |Fanout.Remaining(keys, p)| == |keys|
  {
    if keys != [] {
      NothingSettled(keys[..|keys| - 1], p);
    }
  }

  lemma EmptyProgress(out: Answers)
    ensures ProgressOf(out, {}) == Progress(map[], map[], false, false)
  {
    assert DoneOf(out, {}) == map[] && ErrsOf(out, {}) == map[];
  }

  lemma NothingOpenYet(p: Plan)
    ensures p.Open({}) == |p.keys| && p.Unsettled({}) == |KeySet(p.keys)|
  {
    EmptyProgress(p.out);
    NothingSettled(p.keys, ProgressOf(p.out, {}));
    assert KeySet(p.keys) - {} == KeySet(p.keys);
  }

  lemma NothingOpenLeft(p: Plan, d: set<string>)
    requires p.Valid() && p.Open(d) == 0
    ensures KeySet(p.keys) <= d && p.Unsettled(d) == 0
  {
    forall i: nat | i < |p.keys| ensures p.keys[i] in d {
      RemainingAre(p.keys, ProgressOf(p.out, d), i);
    }
    assert KeySet(p.keys) - d == {};
  }

  /** How many batches are still to come. */
  ghost function BatchesLeft(p: Plan, d: set<string>): nat
    requires p.Valid()
    decreases p.Open(d)
  {
    if p.Open(d) == 0 then 0
    else
      NextIsCloser(p, d);
      1 + BatchesLeft(p, p.Next(d))
  }

  /** After n batches the rest of the total is left. */
  ghost predicate LeftAfter(p: Plan, n: nat, total: nat)
    requires p.Valid()
  {
    BatchesLeft(p, p.After(n)) + n == total && p.After(n) <= KeySet(p.keys)
  }

  lemma LeftNext(p: Plan, n: nat, n': nat, total: nat)
    requires p.Valid() && LeftAfter(p, n, total) && n' == n + 1 && n < total
    ensures LeftAfter(p, n', total)
  {
    NextStaysInside(p, p.After(n));
    assert p.After(n') == p.Next(p.After(n));
  }

  lemma {:induction false} AfterLeft(p: Plan, n: nat, total: nat)
    requires p.Valid() && n <= total && LeftAfter(p, 0, total)
    ensures LeftAfter(p, n, total)
  {
    if n > 0 {
      var m := n - 1;
      AfterLeft(p, m, total);
      LeftNext(p, m, n, total);
    }
  }

  /** The batches of a visit one after another. */
  lemma AfterLeaves(p: Plan, n: nat)
    requires p.Valid() && n <= BatchesLeft(p, {})
    ensures p.After(n) <= KeySet(p.keys)
    ensures n < BatchesLeft(p, {}) <==> p.Open(p.After(n)) > 0
  {
    AfterLeft(p, n, BatchesLeft(p, {}));
  }

  lemma {:induction false} DistinctBatches(p: Plan, d: set<string>)
    requires p.Valid() && Distinct(p.keys)
    ensures BatchesLeft(p, d) == p.Rounds(p.Open(d))
    decreases p.Open(d)
  {
    if p.Open(d) > 0 {
      NextIsCloser(p, d);
      DistinctBatches(p, p.Next(d));
    }
  }

  lemma {:induction false} SequentialBatches(p: Plan, d: set<string>)
    requires p.Valid() && !p.concurrent
    ensures BatchesLeft(p, d) == p.Unsettled(d)
    decreases p.Open(d)
  {
    if p.Open(d) > 0 {
      NextIsCloser(p, d);
      OneMoreKey(p, d);
      SequentialBatches(p, p.Next(d));
    } else {
      NothingOpenLeft(p, d);
    }
  }

  /** From the start: one batch for each distinct key sequentially, and the closed form for distinct keys. */
  lemma BatchCount(p: Plan)
    requires p.Valid()
    ensures Distinct(p.keys) ==> BatchesLeft(p, {}) == p.Rounds(|p.keys|)
    ensures !p.concurrent ==> BatchesLeft(p, {}) == |KeySet(p.keys)|
  {
    NothingOpenYet(p);
    if Distinct(p.keys) {
      DistinctBatches(p, {});
    }
    if !p.concurrent {
      SequentialBatches(p, {});
    }
  }
}
