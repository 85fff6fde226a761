/** The memoised critical path of a build (lib/Analysis/CriticalPath.swift:9-120). Weights are
    modelled as real numbers. */
module CriticalPathSearch {
  import opened Options

  datatype Element = Element(identifier: nat, weight: real, dependencies: seq<nat>)

  datatype CriticalPath = CriticalPath(weight: real, elements: seq<Element>)

  const EMPTY: CriticalPath := CriticalPath(0.0, [])

  datatype Checked = Path(path: CriticalPath) | MissingDependency(previous: Element, following: Element)

  function Appending(p: CriticalPath, other: CriticalPath): CriticalPath {
    CriticalPath(p.weight + other.weight, p.elements + other.elements)
  }

  function Single(e: Element): CriticalPath {
    CriticalPath(e.weight, [e])
  }

  // ---- Chains -------------------------------------------------------------------------------------

  function Sum(q: seq<Element>): real {
    if q == [] then 0.0 else Sum(q[..|q| - 1]) + q[|q| - 1].weight
  }

  /** Each element depends on the one before it. */
  ghost predicate Linked(q: seq<Element>) {
    forall k :: 0 <= k < |q| - 1 ==> q[k].identifier in q[k + 1].dependencies
  }

  /** A dependency chain of the graph. */
  ghost predicate Chain(es: seq<Element>, q: seq<Element>) {
    Linked(q) && forall k :: 0 <= k < |q| ==> q[k].identifier < |es| && es[q[k].identifier] == q[k]
  }

  /** The heaviest chain that ends with element `i`. */
  ghost predicate Heaviest(es: seq<Element>, i: nat, p: CriticalPath) {
    && p.elements != [] && Chain(es, p.elements) && p.elements[|p.elements| - 1].identifier == i
    && p.weight == Sum(p.elements)
    && forall q: seq<Element> :: q != [] && Chain(es, q) && q[|q| - 1].identifier == i ==> Sum(q) <= p.weight
  }

  lemma SumPush(q: seq<Element>, e: Element)
    ensures Sum(q + [e]) == Sum(q) + e.weight
  {
    assert (q + [e])[..|q|] == q;
  }

  // ---- The checked initialiser -----------------------------------------------------------------------

  /** Everything up to position `k` is linked, and what follows is not. */
  ghost predicate FirstGap(q: seq<Element>, k: nat)
    requires k < |q| - 1
  {
    Linked(q[..k + 1]) && q[k].identifier !in q[k + 1].dependencies
  }

  /** Succeeds exactly on linked lists, with the sum of the weights; otherwise it names the first
      pair that is not linked. */
  method CheckedInit(elements: seq<Element>) returns (r: Checked)
    ensures r.Path? <==> Linked(elements)
    ensures r.Path? ==> r.path == CriticalPath(Sum(elements), elements)
    ensures r.MissingDependency? ==> exists k :: 0 <= k < |elements| - 1 && FirstGap(elements, k) && r == MissingDependency(elements[k], elements[k + 1])
  {
    var cost := 0.0;
    var current: Option<Element> := None;
    for i := 0 to |elements|
      invariant cost == Sum(elements[..i]) && Linked(elements[..i])
      invariant current == if i == 0 then None else Some(elements[i - 1])
    {
      var element := elements[i];
      assert elements[..i + 1] == elements[..i] + [element];
      SumPush(elements[..i], element);
      cost := cost + element.weight;
      if current.Some? && current.value.identifier !in element.dependencies {
        assert FirstGap(elements, i - 1);
        return MissingDependency(current.value, element);
      }
      current := Some(element);
    }
    assert elements[..|elements|] == elements;
    r := Path(CriticalPath(cost, elements));
  }

  // ---- The search ------------------------------------------------------------------------------------

  type Cache = seq<Option<CriticalPath>>

  /** The graph has no cycles, and identifiers and dependencies are indices. */
  ghost predicate Ranked(es: seq<Element>, rank: seq<nat>) {
    && |rank| == |es|
    && forall i :: 0 <= i < |es| ==> es[i].identifier == i && forall d :: d in es[i].dependencies ==> d < |es| && rank[d] < rank[i]
  }

  function Heavier(b: Option<CriticalPath>, p: CriticalPath): CriticalPath {
    if b.Some? && !(b.value.weight < p.weight) then b.value else p
  }

  /** `generatePath`. A path found in the cache gets the tail appended; a path that has to be
      computed does not. */
  ghost function Generate(es: seq<Element>, rank: seq<nat>, cache: Cache, i: nat, tail: CriticalPath): (r: (CriticalPath, Cache))
    requires Ranked(es, rank) && |cache| == |es| && i < |es|
    ensures |r.1| == |es|
    decreases rank[i], |es[i].dependencies| + 1
  {
    if cache[i].Some? then (Appending(cache[i].value, tail), cache) else
    var (best, cache') := Best(es, rank, cache, i, |es[i].dependencies|, Single(es[i]));
    var maxPath := if best.Some? then best.value else Single(es[i]);
    (maxPath, cache'[i := Some(maxPath)])
  }

  /** The heaviest of the paths generated for the first `n` dependencies of element `i`. */
  ghost function Best(es: seq<Element>, rank: seq<nat>, cache: Cache, i: nat, n: nat, tail: CriticalPath): (r: (Option<CriticalPath>, Cache))
    requires Ranked(es, rank) && |cache| == |es| && i < |es| && n <= |es[i].dependencies|
    ensures |r.1| == |es| && (n > 0 ==> r.0.Some?)
    decreases rank[i], n
  {
    if n == 0 then (None, cache) else
    var (b, cache1) := Best(es, rank, cache, i, n - 1, tail);
    var d := es[i].dependencies[n - 1];
    assert d in es[i].dependencies;
    var (p, cache2) := Generate(es, rank, cache1, d, tail);
    (Some(Heavier(b, p)), cache2)
  }

  /** The heaviest of the paths generated for the first `n` elements. */
  ghost function Overall(es: seq<Element>, rank: seq<nat>, n: nat): (r: (Option<CriticalPath>, Cache))
    requires Ranked(es, rank) && n <= |es|
    ensures |r.1| == |es| && (n > 0 ==> r.0.Some?)
  {
    if n == 0 then (None, seq(|es|, _ => None)) else
    var (b, cache) := Overall(es, rank, n - 1);
    var (p, cache') := Generate(es, rank, cache, n - 1, EMPTY);
    (Some(Heavier(b, p)), cache')
  }

  method GeneratePath(es: seq<Element>, ghost rank: seq<nat>, cache: array<Option<CriticalPath>>, i: nat, tail: CriticalPath) returns (r: CriticalPath)
    requires Ranked(es, rank) && cache.Length == |es| && i < |es|
    modifies cache
    ensures (r, cache[..]) == Generate(es, rank, old(cache[..]), i, tail)
    decreases rank[i]
  {
    if cache[i].Some? {
      return Appending(cache[i].value, tail);
    }
    var newPath := Single(es[i]);
    var best: Option<CriticalPath> := None;
    var ds := es[i].dependencies;
    for n := 0 to |ds|
      invariant (best, cache[..]) == Best(es, rank, old(cache[..]), i, n, newPath)
    {
      assert ds[n] in es[i].dependencies;
      var p := GeneratePath(es, rank, cache, ds[n], newPath);
      best := Some(Heavier(best, p));
    }
    r := if best.Some? then best.value else newPath;
    cache[i] := Some(r);
  }

  method CalculateCriticalPath(es: seq<Element>, ghost rank: seq<nat>) returns (r: CriticalPath)
    requires Ranked(es, rank)
    ensures r == Calculated(es, rank)
  {
    if es == [] { return EMPTY; }
    var cache := new Option<CriticalPath>[|es|](_ => None);
    var best: Option<CriticalPath> := None;
    assert cache[..] == seq(|es|, _ => None);
    for n := 0 to |es|
      invariant (best, cache[..]) == Overall(es, rank, n)
    {
      var p := GeneratePath(es, rank, cache, n, EMPTY);
      best := Some(Heavier(best, p));
    }
    r := best.value;
  }

  ghost function Calculated(es: seq<Element>, rank: seq<nat>): CriticalPath
    requires Ranked(es, rank)
  {
    if es == [] then EMPTY else Overall(es, rank, |es|).0.value
  }

  // ---- The result is optimal, if dependencies come before their users ----------------------------------

  ghost predicate Ordered(es: seq<Element>) {
    forall i :: 0 <= i < |es| ==> es[i].identifier == i && es[i].weight >= 0.0 && forall d :: d in es[i].dependencies ==> d < i
  }

  ghost predicate Filled(es: seq<Element>, cache: Cache, n: nat)
    requires |cache| == |es|
  {
    forall j :: 0 <= j < |es| ==> if j < n then cache[j].Some? && Heaviest(es, j, cache[j].value) else cache[j].None?
  }

  lemma {:induction false} SumNonNegative(es: seq<Element>, q: seq<Element>)
    requires Ordered(es) && Chain(es, q)
    ensures Sum(q) >= 0.0
    decreases |q|
  {
    if q != [] {
      var e := q[|q| - 1];
      assert es[e.identifier] == e;
      SumNonNegative(es, q[..|q| - 1]);
    }
  }

  /** A chain that ends with `i` is `i` alone, or a chain that ends with a dependency of `i`. */
  lemma ChainEnds(es: seq<Element>, q: seq<Element>)
    requires q != [] && Chain(es, q)
    ensures var e := q[|q| - 1]; var front := q[..|q| - 1];
      && Sum(q) == Sum(front) + e.weight && es[e.identifier] == e && Chain(es, front)
      && (front != [] ==> front[|front| - 1].identifier in e.dependencies)
  {
    var n := |q| - 1;
    if n > 0 { assert q[n - 1].identifier in q[n - 1 + 1].dependencies; }
    var front := q[..n];
    forall k | 0 <= k < |front| - 1 ensures front[k].identifier in front[k + 1].dependencies { assert q[k].identifier in q[k + 1].dependencies; }
  }

  /** The heaviest chain through dependency `d`. */
  lemma Extend(es: seq<Element>, i: nat, d: nat, p: CriticalPath)
    requires Ordered(es) && i < |es| && d in es[i].dependencies && Heaviest(es, d, p)
    ensures EndsWith(es, i, Appending(p, Single(es[i])))
  {
    SumPush(p.elements, es[i]);
    var q := p.elements + [es[i]];
    forall k | 0 <= k < |q| - 1 ensures q[k].identifier in q[k + 1].dependencies {
      if k < |p.elements| - 1 { assert p.elements[k].identifier in p.elements[k + 1].dependencies; }
    }
  }

  /** `p` is a chain through one of the first `n` dependencies of `i`, and at least as heavy as
      the heaviest through each of them. */
  ghost predicate BestThrough(es: seq<Element>, cache: Cache, i: nat, n: nat, p: CriticalPath)
    requires |cache| == |es| && i < |es| && n <= |es[i].dependencies|
  {
    && EndsWith(es, i, p)
    && forall m :: 0 <= m < n && es[i].dependencies[m] < |es| && cache[es[i].dependencies[m]].Some? ==>
         cache[es[i].dependencies[m]].value.weight + es[i].weight <= p.weight
  }

  /** A chain that ends with `i`, with its weight. */
  ghost predicate EndsWith(es: seq<Element>, i: nat, p: CriticalPath)
    requires i < |es|
  {
    p.elements != [] && Chain(es, p.elements) && p.elements[|p.elements| - 1] == es[i] && p.weight == Sum(p.elements)
  }

  lemma BestMore(es: seq<Element>, cache: Cache, i: nat, n: nat, b: Option<CriticalPath>, p: CriticalPath)
    requires |cache| == |es| && i < |es| && 0 < n <= |es[i].dependencies| && EndsWith(es, i, p)
    requires var d := es[i].dependencies[n - 1]; d < |es| && cache[d].Some? && p.weight == cache[d].value.weight + es[i].weight
    requires if n == 1 then b.None? else b.Some? && BestThrough(es, cache, i, n - 1, b.value)
    ensures BestThrough(es, cache, i, n, Heavier(b, p))
  {
    hide EndsWith;
  }

  lemma {:induction false} BestIs(es: seq<Element>, rank: seq<nat>, cache: Cache, i: nat, n: nat)
    requires Ordered(es) && Ranked(es, rank) && |cache| == |es| && i < |es| && n <= |es[i].dependencies| && Filled(es, cache, i)
    ensures var r := Best(es, rank, cache, i, n, Single(es[i]));
      r.1 == cache && (n == 0 ==> r.0.None?) && (n > 0 ==> BestThrough(es, cache, i, n, r.0.value))
    decreases n
  {
    hide Heaviest, EndsWith;
    if n > 0 {
      BestIs(es, rank, cache, i, n - 1);
      var d := es[i].dependencies[n - 1];
      assert d in es[i].dependencies;
      assert d < i && cache[d].Some? && Heaviest(es, d, cache[d].value);
      Extend(es, i, d, cache[d].value);
      var (b, _) := Best(es, rank, cache, i, n - 1, Single(es[i]));
      var p := Appending(cache[d].value, Single(es[i]));
      assert Generate(es, rank, cache, d, Single(es[i])) == (p, cache);
      assert Best(es, rank, cache, i, n, Single(es[i])) == (Some(Heavier(b, p)), cache);
      hide Best, Generate, Filled, Ordered, Ranked, Appending;
      BestMore(es, cache, i, n, b, p);
    }
  }

  /** The new entry for `i` is the heaviest chain that ends with `i`. */
  lemma HeaviestThrough(es: seq<Element>, cache: Cache, i: nat, p: CriticalPath)
    requires Ordered(es) && |cache| == |es| && i < |es| && Filled(es, cache, i)
    requires var ds := es[i].dependencies; if ds == [] then p == Single(es[i]) else BestThrough(es, cache, i, |ds|, p)
    ensures Heaviest(es, i, p)
  {
    var ds := es[i].dependencies;
    if ds == [] { assert Sum([es[i]]) == Sum([]) + es[i].weight by { SumPush([], es[i]); } }
    forall q: seq<Element> | q != [] && Chain(es, q) && q[|q| - 1].identifier == i ensures Sum(q) <= p.weight {
      ChainEnds(es, q);
      var front := q[..|q| - 1];
      if front == [] {
        if ds != [] {
          assert ds[0] in ds;
          SumNonNegative(es, cache[ds[0]].value.elements);
        }
      } else {
        var d := front[|front| - 1].identifier;
        var m :| 0 <= m < |ds| && ds[m] == d;
        assert Heaviest(es, d, cache[d].value);
      }
    }
  }

  lemma GenerateIs(es: seq<Element>, rank: seq<nat>, cache: Cache, i: nat)
    requires Ordered(es) && Ranked(es, rank) && |cache| == |es| && i < |es| && Filled(es, cache, i)
    ensures var (p, cache') := Generate(es, rank, cache, i, EMPTY); Heaviest(es, i, p) && Filled(es, cache', i + 1)
  {
    hide Heaviest;
    var n := |es[i].dependencies|;
    BestIs(es, rank, cache, i, n);
    var (p, cache') := Generate(es, rank, cache, i, EMPTY);
    HeaviestThrough(es, cache, i, p);
  }

  lemma {:induction false} OverallIs(es: seq<Element>, rank: seq<nat>, n: nat)
    requires Ordered(es) && Ranked(es, rank) && n <= |es|
    ensures var (b, cache) := Overall(es, rank, n); Filled(es, cache, n)
    ensures n > 0 ==> var b := Overall(es, rank, n).0.value;
      (exists j :: 0 <= j < n && Heaviest(es, j, b)) && forall q: seq<Element> :: q != [] && Chain(es, q) && q[|q| - 1].identifier < n ==> Sum(q) <= b.weight
  {
    if n > 0 {
      OverallIs(es, rank, n - 1);
      var (b, cache) := Overall(es, rank, n - 1);
      GenerateIs(es, rank, cache, n - 1);
      var (p, cache') := Generate(es, rank, cache, n - 1, EMPTY);
      var r := Heavier(b, p);
      assert r == p || b == Some(r);
      forall q: seq<Element> | q != [] && Chain(es, q) && q[|q| - 1].identifier < n ensures Sum(q) <= r.weight {
        if q[|q| - 1].identifier == n - 1 { assert Sum(q) <= p.weight; }
      }
    }
  }

  /** For a graph whose dependencies come before their users and whose weights are not negative,
      the result is a dependency chain, its weight is the sum of its elements' weights, and no
      dependency chain weighs more. */
  lemma CriticalPathIsOptimal(es: seq<Element>, rank: seq<nat>)
    requires Ordered(es) && Ranked(es, rank)
    ensures var r := Calculated(es, rank); Chain(es, r.elements) && r.weight == Sum(r.elements)
    ensures forall q: seq<Element> :: Chain(es, q) ==> Sum(q) <= Calculated(es, rank).weight
  {
    if es != [] {
      OverallIs(es, rank, |es|);
      var r := Calculated(es, rank);
      assert r.elements != [];
      forall q: seq<Element> | Chain(es, q) ensures Sum(q) <= r.weight {
        if q == [] { SumNonNegative(es, r.elements); }
      }
    } else {
      forall q: seq<Element> | Chain(es, q) ensures Sum(q) == 0.0 { assert forall k :: 0 <= k < |q| ==> q[k].identifier < 0; }
    }
  }

  // ---- Exactly then --------------------------------------------------------------------------------------

  /** The dependencies of each element. */
  type Shape = seq<seq<nat>>

  ghost function ShapeOf(es: seq<Element>): (r: Shape)
    ensures |r| == |es| && forall i :: 0 <= i < |es| ==> r[i] == es[i].dependencies
  {
    seq(|es|, i requires 0 <= i < |es| => es[i].dependencies)
  }

  /** The same graph with other weights. */
  ghost function Reweigh(es: seq<Element>, w: seq<real>): (r: seq<Element>)
    requires |w| == |es|
    ensures |r| == |es| && forall i :: 0 <= i < |es| ==> r[i] == es[i].(weight := w[i])
  {
    seq(|es|, i requires 0 <= i < |es| => es[i].(weight := w[i]))
  }

  ghost predicate Optimal(es: seq<Element>, rank: seq<nat>)
    requires Ranked(es, rank)
  {
    var r := Calculated(es, rank);
    Chain(es, r.elements) && r.weight == Sum(r.elements) && forall q: seq<Element> :: Chain(es, q) ==> Sum(q) <= r.weight
  }

  /** Whatever the weights are, the result is optimal. */
  ghost predicate AlwaysOptimal(es: seq<Element>, rank: seq<nat>)
    requires Ranked(es, rank)
  {
    forall w: seq<real> :: |w| == |es| && (forall i :: 0 <= i < |w| ==> w[i] >= 0.0) ==> Optimal(Reweigh(es, w), rank)
  }

  ghost predicate InOrder(es: seq<Element>) {
    forall i, d :: 0 <= i < |es| && d in es[i].dependencies ==> d < i
  }

  ghost predicate RankedShape(ds: Shape, rank: seq<nat>) {
    |rank| == |ds| && forall i :: 0 <= i < |ds| ==> forall d :: d in ds[i] ==> d < |ds| && rank[d] < rank[i]
  }

  /** No element lists a dependency twice. */
  ghost predicate NoRepeats(ds: Shape) {
    forall i, m, n :: 0 <= i < |ds| && 0 <= m < n < |ds[i]| ==> ds[i][m] != ds[i][n]
  }

  /** With the elements in `known` in the cache, all dependencies of `x` are found there. */
  ghost predicate Ready(ds: Shape, known: set<nat>, x: nat)
    requires x < |ds|
  {
    forall d :: d in ds[x] ==> d in known
  }

  /** Starting with the elements in `known` in the cache, the search reaches an element `r.0` that is
      the first one finished after it missed the cache for a dependency; `r.1` is such a dependency.
      The search is at dependency `n` of element `i`, and `missed` is the first one missed before. */
  ghost function LostFrom(ds: Shape, rank: seq<nat>, known: set<nat>, i: nat, n: nat, missed: Option<nat>): (r: (nat, nat))
    requires RankedShape(ds, rank) && i < |ds| && n <= |ds[i]| && i !in known
    requires if missed.Some? then missed.value in ds[i] else exists m :: n <= m < |ds[i]| && ds[i][m] !in known
    ensures r.0 < |ds| && r.0 !in known && r.1 in ds[r.0] && rank[r.0] <= rank[i]
    ensures r.0 == i && missed.Some? ==> r.1 == missed.value
    ensures r.0 != i || missed.None? ==> r.1 !in known
    decreases rank[i], |ds[i]| - n
  {
    if n == |ds[i]| then (i, missed.value) else
    var x := ds[i][n];
    assert x in ds[i];
    if x in known then LostFrom(ds, rank, known, i, n + 1, missed)
    else if Ready(ds, known, x) then LostFrom(ds, rank, known + {x}, i, n + 1, if missed.Some? then missed else Some(x))
    else Lost(ds, rank, known, x)
  }

  ghost function Lost(ds: Shape, rank: seq<nat>, known: set<nat>, i: nat): (r: (nat, nat))
    requires RankedShape(ds, rank) && i < |ds| && i !in known && !Ready(ds, known, i)
    ensures r.0 < |ds| && r.0 !in known && r.1 in ds[r.0] && r.1 !in known && rank[r.0] <= rank[i]
    decreases rank[i], |ds[i]| + 1
  {
    var d :| d in ds[i] && d !in known;
    var m :| 0 <= m < |ds[i]| && ds[i][m] == d;
    LostFrom(ds, rank, known, i, 0, None)
  }

  /** Only `j` and its dependency `d` weigh anything. */
  ghost predicate Weighted(es: seq<Element>, j: nat, d: nat) {
    && j < |es| && d in es[j].dependencies && d != j
    && forall x :: 0 <= x < |es| ==> es[x].weight == if x == j || x == d then 1.0 else 0.0
  }

  ghost predicate Holds(cache: Cache, known: set<nat>) {
    forall x: nat :: x in known <==> x < |cache| && cache[x].Some?
  }

  ghost predicate AtMost(cache: Cache, known: set<nat>, c: real) {
    forall x :: x in known && x < |cache| && cache[x].Some? ==> cache[x].value.weight <= c
  }

  /** Neither `j` nor `d` has been reached. */
  ghost predicate Early(cache: Cache, known: set<nat>, j: nat, d: nat) {
    Holds(cache, known) && AtMost(cache, known, 0.0) && j !in known && d !in known
  }

  /** Both have, and no path in the cache has both. */
  ghost predicate Late(cache: Cache, j: nat, d: nat) {
    && j < |cache| && d < |cache| && cache[j].Some? && cache[d].Some?
    && forall x :: 0 <= x < |cache| && cache[x].Some? ==> cache[x].value.weight <= 1.0
  }

  ghost predicate Light(b: Option<CriticalPath>, c: real) {
    b.Some? ==> b.value.weight <= c
  }

  /** Once both have been reached apart from each other, they are never put together. */
  lemma {:induction false} GenerateLate(es: seq<Element>, rank: seq<nat>, cache: Cache, i: nat, tail: CriticalPath, j: nat, d: nat)
    requires Ranked(es, rank) && |cache| == |es| && i < |es| && Weighted(es, j, d) && Late(cache, j, d) && tail.weight <= 0.0
    ensures var r := Generate(es, rank, cache, i, tail); r.0.weight <= 1.0 && Late(r.1, j, d)
    decreases rank[i], |es[i].dependencies| + 1
  {
    if cache[i].None? {
      BestLate(es, rank, cache, i, 0, |es[i].dependencies|, j, d);
    }
  }

  lemma {:induction false} BestLate(es: seq<Element>, rank: seq<nat>, cache: Cache, i: nat, m: nat, n: nat, j: nat, d: nat)
    requires Ranked(es, rank) && |cache| == |es| && i < |es| && m <= n <= |es[i].dependencies| && Weighted(es, j, d) && i != j && i != d
    requires var r := Best(es, rank, cache, i, m, Single(es[i])); Light(r.0, 1.0) && Late(r.1, j, d)
    ensures var r := Best(es, rank, cache, i, n, Single(es[i])); Light(r.0, 1.0) && Late(r.1, j, d)
    decreases rank[i], n
  {
    hide Late, Generate;
    if m < n {
      BestLate(es, rank, cache, i, m, n - 1, j, d);
      var x := es[i].dependencies[n - 1];
      assert x in es[i].dependencies;
      GenerateLate(es, rank, Best(es, rank, cache, i, n - 1, Single(es[i])).1, x, Single(es[i]), j, d);
    }
  }

  /** When all dependencies of `x` are in the cache, only `x` is added to it. */
  lemma {:induction false} BestHits(es: seq<Element>, rank: seq<nat>, cache: Cache, x: nat, n: nat, known: set<nat>, c: real)
    requires Ranked(es, rank) && |cache| == |es| && x < |es| && n <= |es[x].dependencies|
    requires Holds(cache, known) && AtMost(cache, known, c) && forall y :: y in es[x].dependencies ==> y in known
    ensures var r := Best(es, rank, cache, x, n, Single(es[x])); r.1 == cache && Light(r.0, c + es[x].weight)
    decreases n
  {
    if n > 0 {
      BestHits(es, rank, cache, x, n - 1, known, c);
      var y := es[x].dependencies[n - 1];
      assert y in es[x].dependencies;
    }
  }

  lemma Hits(es: seq<Element>, rank: seq<nat>, cache: Cache, x: nat, tail: CriticalPath, known: set<nat>, c: real)
    requires Ranked(es, rank) && |cache| == |es| && x < |es| && x !in known && c >= 0.0
    requires Holds(cache, known) && AtMost(cache, known, c) && Ready(ShapeOf(es), known, x)
    ensures var r := Generate(es, rank, cache, x, tail);
      r.0.weight <= c + es[x].weight && r.1 == cache[x := Some(r.0)] && Holds(r.1, known + {x})
  {
    BestHits(es, rank, cache, x, |es[x].dependencies|, known, c);
  }

  lemma BestNext(es: seq<Element>, rank: seq<nat>, cache: Cache, i: nat, n: nat, tail: CriticalPath)
    requires Ranked(es, rank) && |cache| == |es| && i < |es| && n < |es[i].dependencies|
    ensures var (b, cache1) := Best(es, rank, cache, i, n, tail); var x := es[i].dependencies[n]; x < |es|
    ensures var (b, cache1) := Best(es, rank, cache, i, n, tail); var x := es[i].dependencies[n];
      var (p, cache2) := Generate(es, rank, cache1, x, tail); Best(es, rank, cache, i, n + 1, tail) == (Some(Heavier(b, p)), cache2)
  {
    assert es[i].dependencies[n] in es[i].dependencies;
  }

  /** What `LostFrom` needs. */
  ghost predicate MayLose(ds: Shape, known: set<nat>, i: nat, n: nat, missed: Option<nat>) {
    && i < |ds| && n <= |ds[i]| && i !in known
    && if missed.Some? then missed.value in ds[i] else exists m :: n <= m < |ds[i]| && ds[i][m] !in known
  }

  /** At dependency `n` of `j`, which is the element that loses: what was in the cache before, weighs
      nothing, and what the search has added is one of the dependencies already visited. */
  ghost predicate Losing(ds: Shape, rank: seq<nat>, cache: Cache, before: set<nat>, known: set<nat>, j: nat, d: nat, n: nat, missed: Option<nat>)
    requires RankedShape(ds, rank)
  {
    && MayLose(ds, known, j, n, missed) && LostFrom(ds, rank, known, j, n, missed) == (j, d)
    && Holds(cache, known) && AtMost(cache, before, 0.0) && AtMost(cache, known, 1.0)
    && (forall x :: x in known <==> x in before || x in ds[j][..n])
    && (missed.None? ==> known == before) && (missed.Some? ==> d in known)
  }

  lemma LosingHit(ds: Shape, before: set<nat>, known: set<nat>, j: nat, n: nat)
    requires NoRepeats(ds) && j < |ds| && n < |ds[j]| && ds[j][n] in known
    requires forall x :: x in known <==> x in before || x in ds[j][..n]
    ensures ds[j][n] in before
  {
    forall m | 0 <= m < n ensures ds[j][..n][m] != ds[j][n] { assert ds[j][m] != ds[j][n]; }
  }

  lemma LosingStep(es: seq<Element>, rank: seq<nat>, cache: Cache, before: set<nat>, known: set<nat>, j: nat, d: nat, n: nat, missed: Option<nat>)
    returns (known': set<nat>, missed': Option<nat>)
    requires Ranked(es, rank) && NoRepeats(ShapeOf(es)) && |cache| == |es| && Weighted(es, j, d) && n < |es[j].dependencies|
    requires Losing(ShapeOf(es), rank, cache, before, known, j, d, n, missed)
    ensures var x := es[j].dependencies[n]; x < |es|
    ensures var r := Generate(es, rank, cache, es[j].dependencies[n], Single(es[j]));
      r.0.weight <= 1.0 && Losing(ShapeOf(es), rank, r.1, before, known', j, d, n + 1, missed')
  {
    var ds := ShapeOf(es);
    var x := ds[j][n];
    assert x in ds[j] && ds[j][..n + 1] == ds[j][..n] + [x];
    if x in known {
      LosingHit(ds, before, known, j, n);
      known', missed' := known, missed;
    } else {
      assert Ready(ds, known, x);
      known', missed' := known + {x}, if missed.Some? then missed else Some(x);
      if missed.Some? {
        Hits(es, rank, cache, x, Single(es[j]), known, 1.0);
      } else {
        Hits(es, rank, cache, x, Single(es[j]), known, 0.0);
      }
    }
  }

  /** The element that loses is finished without its dependency: no path has both. */
  lemma LosesHere(es: seq<Element>, rank: seq<nat>, cache: Cache, known: set<nat>, j: nat, tail: CriticalPath, d: nat)
    requires Ranked(es, rank) && NoRepeats(ShapeOf(es)) && |cache| == |es| && Weighted(es, j, d) && Early(cache, known, j, d)
    requires !Ready(ShapeOf(es), known, j) && Lost(ShapeOf(es), rank, known, j) == (j, d)
    ensures var r := Generate(es, rank, cache, j, tail); r.0.weight <= 1.0 && Late(r.1, j, d)
  {
    var ds := ShapeOf(es);
    var n, b, now, known', missed := 0, None, cache, known, None;
    hide Generate;
    while n < |ds[j]|
      invariant 0 <= n <= |ds[j]| && |now| == |es| && (b, now) == Best(es, rank, cache, j, n, Single(es[j])) && Light(b, 1.0)
      invariant Losing(ds, rank, now, known, known', j, d, n, missed)
    {
      BestNext(es, rank, cache, j, n, Single(es[j]));
      var known'', missed' := LosingStep(es, rank, now, known, known', j, d, n, missed);
      var (p, next) := Generate(es, rank, now, ds[j][n], Single(es[j]));
      b, now, known', missed, n := Some(Heavier(b, p)), next, known'', missed', n + 1;
    }
    LosesFinally(es, rank, cache, j, tail, d, known, known', missed);
  }

  lemma LosesFinally(es: seq<Element>, rank: seq<nat>, cache: Cache, j: nat, tail: CriticalPath, d: nat, before: set<nat>, known: set<nat>, missed: Option<nat>)
    requires Ranked(es, rank) && |cache| == |es| && Weighted(es, j, d) && cache[j].None?
    requires var n := |es[j].dependencies|; var r := Best(es, rank, cache, j, n, Single(es[j]));
      Light(r.0, 1.0) && Losing(ShapeOf(es), rank, r.1, before, known, j, d, n, missed)
    ensures var r := Generate(es, rank, cache, j, tail); r.0.weight <= 1.0 && Late(r.1, j, d)
  {
    hide Best;
  }

  /** On the way to the element that loses, nothing that weighs is reached. */
  ghost predicate Passing(ds: Shape, rank: seq<nat>, cache: Cache, known: set<nat>, i: nat, n: nat, missed: Option<nat>, j: nat, d: nat)
    requires RankedShape(ds, rank)
  {
    MayLose(ds, known, i, n, missed) && LostFrom(ds, rank, known, i, n, missed) == (j, d) && Early(cache, known, j, d)
  }

  lemma PassingStep(es: seq<Element>, rank: seq<nat>, cache: Cache, known: set<nat>, i: nat, n: nat, missed: Option<nat>, j: nat, d: nat)
    returns (known': set<nat>, missed': Option<nat>)
    requires Ranked(es, rank) && |cache| == |es| && i < |es| && Weighted(es, j, d) && i != j && i != d && n < |es[i].dependencies|
    requires Passing(ShapeOf(es), rank, cache, known, i, n, missed, j, d)
    requires var x := es[i].dependencies[n]; x < |es| && (x in known || Ready(ShapeOf(es), known, x))
    ensures var r := Generate(es, rank, cache, es[i].dependencies[n], Single(es[i]));
      r.0.weight <= 1.0 && Passing(ShapeOf(es), rank, r.1, known', i, n + 1, missed', j, d)
  {
    var ds := ShapeOf(es);
    var x := ds[i][n];
    if x in known {
      known', missed' := known, missed;
    } else {
      known', missed' := known + {x}, if missed.Some? then missed else Some(x);
      assert x in ds[i] && MayLose(ds, known', i, n + 1, missed');
      assert LostFrom(ds, rank, known', i, n + 1, missed') == (j, d);
      assert j !in known' && d !in known';
      Hits(es, rank, cache, x, Single(es[i]), known, 0.0);
    }
  }

  /** Wherever the search of `i` first loses an element, the two are kept apart from then on. */
  lemma {:induction false} Loses(es: seq<Element>, rank: seq<nat>, cache: Cache, known: set<nat>, i: nat, tail: CriticalPath, j: nat, d: nat)
    requires Ranked(es, rank) && NoRepeats(ShapeOf(es)) && |cache| == |es| && Weighted(es, j, d) && Early(cache, known, j, d)
    requires i < |es| && i !in known && !Ready(ShapeOf(es), known, i) && Lost(ShapeOf(es), rank, known, i) == (j, d)
    ensures var r := Generate(es, rank, cache, i, tail); r.0.weight <= 1.0 && Late(r.1, j, d)
    decreases rank[i]
  {
    var ds := ShapeOf(es);
    if i == j {
      LosesHere(es, rank, cache, known, j, tail, d);
    } else {
      assert i != d by { assert d in ds[j]; }
      LosesBelow(es, rank, cache, known, i, j, d);
      GenerateFinally(es, rank, cache, i, tail, j, d);
    }
  }

  lemma GenerateFinally(es: seq<Element>, rank: seq<nat>, cache: Cache, i: nat, tail: CriticalPath, j: nat, d: nat)
    requires Ranked(es, rank) && |cache| == |es| && i < |es| && Weighted(es, j, d) && i != j && i != d && cache[i].None?
    requires var r := Best(es, rank, cache, i, |es[i].dependencies|, Single(es[i])); Light(r.0, 1.0) && Late(r.1, j, d)
    ensures var r := Generate(es, rank, cache, i, tail); r.0.weight <= 1.0 && Late(r.1, j, d)
  {
    hide Best;
  }

  lemma {:induction false} LosesBelow(es: seq<Element>, rank: seq<nat>, cache: Cache, known: set<nat>, i: nat, j: nat, d: nat)
    requires Ranked(es, rank) && NoRepeats(ShapeOf(es)) && |cache| == |es| && Weighted(es, j, d) && Early(cache, known, j, d)
    requires i < |es| && i !in known && !Ready(ShapeOf(es), known, i) && Lost(ShapeOf(es), rank, known, i) == (j, d) && i != j && i != d
    ensures var r := Best(es, rank, cache, i, |es[i].dependencies|, Single(es[i])); Light(r.0, 1.0) && Late(r.1, j, d)
    decreases rank[i], 0
  {
    var ds := ShapeOf(es);
    var n, b, now, known', missed := 0, None, cache, known, None;
    var tail := Single(es[i]);
    hide Generate, Early, Late;
    while n < |ds[i]|
      invariant 0 <= n <= |ds[i]| && |now| == |es| && (b, now) == Best(es, rank, cache, i, n, tail) && Light(b, 1.0)
      invariant Passing(ds, rank, now, known', i, n, missed, j, d)
    {
      BestNext(es, rank, cache, i, n, tail);
      var x := ds[i][n];
      assert x in ds[i] && x in es[i].dependencies;
      if x !in known' && !Ready(ds, known', x) {
        assert Lost(ds, rank, known', x) == (j, d);
        Loses(es, rank, now, known', x, tail, j, d);
        BestLate(es, rank, cache, i, n + 1, |ds[i]|, j, d);
        return;
      }
      var known'', missed' := PassingStep(es, rank, now, known', i, n, missed, j, d);
      var (p, next) := Generate(es, rank, now, x, tail);
      b, now, known', missed, n := Some(Heavier(b, p)), next, known'', missed', n + 1;
    }
    assert false;
  }

  // ---- The whole search ------------------------------------------------------------------------------------

  ghost function Below(n: nat): (r: set<nat>)
    ensures forall x: nat :: x in r <==> x < n
  {
    if n == 0 then {} else Below(n - 1) + {n - 1}
  }

  ghost predicate OrderedBelow(ds: Shape, n: nat) {
    forall i, d :: 0 <= i < n && i < |ds| && d in ds[i] ==> d < i
  }

  lemma {:induction false} OverallEarly(es: seq<Element>, rank: seq<nat>, n: nat, m: nat, j: nat, d: nat)
    requires Ranked(es, rank) && n <= m <= |es| && OrderedBelow(ShapeOf(es), m) && Weighted(es, j, d) && j >= m && d >= m
    ensures var r := Overall(es, rank, n); Light(r.0, 1.0) && Early(r.1, Below(n), j, d)
  {
    if n > 0 {
      OverallEarly(es, rank, n - 1, m, j, d);
      var (b, cache) := Overall(es, rank, n - 1);
      Hits(es, rank, cache, n - 1, EMPTY, Below(n - 1), 0.0);
      assert Below(n) == Below(n - 1) + {n - 1};
    }
  }

  lemma {:induction false} OverallLate(es: seq<Element>, rank: seq<nat>, n: nat, m: nat, j: nat, d: nat)
    requires Ranked(es, rank) && NoRepeats(ShapeOf(es)) && m < n <= |es| && OrderedBelow(ShapeOf(es), m) && Weighted(es, j, d)
    requires !Ready(ShapeOf(es), Below(m), m) && Lost(ShapeOf(es), rank, Below(m), m) == (j, d)
    ensures var r := Overall(es, rank, n); Light(r.0, 1.0) && Late(r.1, j, d)
  {
    hide Generate, Early, Late, Lost, Ready;
    if n == m + 1 {
      assert j !in Below(m) && d !in Below(m);
      OverallEarly(es, rank, m, m, j, d);
      Loses(es, rank, Overall(es, rank, m).1, Below(m), m, EMPTY, j, d);
    } else {
      OverallLate(es, rank, n - 1, m, j, d);
      GenerateLate(es, rank, Overall(es, rank, n - 1).1, n - 1, EMPTY, j, d);
    }
  }

  /** The weights that give an element away that is out of order. */
  lemma OutOfOrderFails(es: seq<Element>, rank: seq<nat>, m: nat)
    requires Ranked(es, rank) && NoRepeats(ShapeOf(es)) && m < |es| && OrderedBelow(ShapeOf(es), m) && !Ready(ShapeOf(es), Below(m), m)
    ensures !AlwaysOptimal(es, rank)
  {
    hide Lost, Ready, OrderedBelow, NoRepeats, Ranked, Optimal, Weighted, Below;
    var ds := ShapeOf(es);
    assert RankedShape(ds, rank) by { ShapeRanked(es, rank); }
    var (j, d) := Lost(ds, rank, Below(m), m);
    var w := Weigh(es, rank, j, d);
    var es' := Reweigh(es, w);
    OverallLate(es', rank, |es|, m, j, d);
    NotOptimal(es', rank, j, d);
  }

  lemma ShapeRanked(es: seq<Element>, rank: seq<nat>)
    requires Ranked(es, rank)
    ensures RankedShape(ShapeOf(es), rank)
  {
  }

  lemma Weigh(es: seq<Element>, rank: seq<nat>, j: nat, d: nat) returns (w: seq<real>)
    requires Ranked(es, rank) && j < |es| && d in es[j].dependencies
    ensures |w| == |es| && forall i :: 0 <= i < |w| ==> w[i] >= 0.0
    ensures var es' := Reweigh(es, w); ShapeOf(es') == ShapeOf(es) && Ranked(es', rank) && Weighted(es', j, d)
  {
    w := seq(|es|, x => if x == j || x == d then 1.0 else 0.0);
  }

  lemma NotOptimal(es: seq<Element>, rank: seq<nat>, j: nat, d: nat)
    requires Ranked(es, rank) && Weighted(es, j, d) && Light(Overall(es, rank, |es|).0, 1.0)
    ensures !Optimal(es, rank)
  {
    hide Overall, Sum, Chain, Ranked;
    TooHeavy(es, rank, j, d);
  }

  lemma TooHeavy(es: seq<Element>, rank: seq<nat>, j: nat, d: nat)
    requires Ranked(es, rank) && Weighted(es, j, d)
    ensures d < |es| && Chain(es, [es[d], es[j]]) && Sum([es[d], es[j]]) == 2.0
  {
    SumPush([es[d]], es[j]);
    SumPush([], es[d]);
    assert [es[d]] + [es[j]] == [es[d], es[j]] && [] + [es[d]] == [es[d]];
  }

  lemma {:induction false} FirstOutOfOrder(ds: Shape, n: nat) returns (m: nat)
    requires n <= |ds| && !OrderedBelow(ds, n)
    ensures m < n && OrderedBelow(ds, m) && !Ready(ds, Below(m), m)
  {
    if OrderedBelow(ds, n - 1) {
      m := n - 1;
    } else {
      m := FirstOutOfOrder(ds, n - 1);
    }
  }

  /** The order is exactly what is needed: for a graph without cycles and repeated dependencies, the
      result is optimal whatever the weights are if and only if dependencies come before their
      users. */
  lemma OptimalIffInOrder(es: seq<Element>, rank: seq<nat>)
    requires Ranked(es, rank) && NoRepeats(ShapeOf(es))
    ensures AlwaysOptimal(es, rank) <==> InOrder(es)
  {
    if InOrder(es) {
      forall w: seq<real> | |w| == |es| && (forall i :: 0 <= i < |w| ==> w[i] >= 0.0) ensures Optimal(Reweigh(es, w), rank) {
        CriticalPathIsOptimal(Reweigh(es, w), rank);
      }
    } else {
      var m := FirstOutOfOrder(ShapeOf(es), |es|);
      OutOfOrderFails(es, rank, m);
    }
  }

  /** The order is needed: where a user comes before its dependency, the user is lost. */
  lemma OrderIsNeeded()
    ensures var es := [Element(0, 1.0, [1]), Element(1, 1.0, [])];
      Ranked(es, [1, 0]) && Chain(es, [es[1], es[0]]) && Sum([es[1], es[0]]) == 2.0 && Calculated(es, [1, 0]).weight == 1.0
  {
    var es := [Element(0, 1.0, [1]), Element(1, 1.0, [])];
    var rank: seq<nat> := [1, 0];
    assert Ranked(es, rank);
    SumPush([es[1]], es[0]);
    SumPush([], es[1]);
    assert [es[1]] + [es[0]] == [es[1], es[0]] && [] + [es[1]] == [es[1]];
    var c0: Cache := seq(2, _ => None);
    var one := Single(es[1]);
    assert Generate(es, rank, c0, 1, Single(es[0])) == (one, c0[1 := Some(one)]);
    assert Best(es, rank, c0, 0, 1, Single(es[0])) == (Some(one), c0[1 := Some(one)]);
    assert Generate(es, rank, c0, 0, EMPTY) == (one, c0[1 := Some(one)][0 := Some(one)]);
    assert Overall(es, rank, 0) == (None, c0);
    assert Overall(es, rank, 1).0 == Some(one);
    assert Overall(es, rank, 2).0.value.weight == 1.0;
  }
}
