/** The search for a cycle (`findCycle`, lib/Core/BuildEngine.cpp:1163-1287): a depth-first walk
    that keeps only the current path, and no set of finished nodes. */
module CycleSearch {
  import opened Options
  import opened EngineState
  import opened EngineSteps
  import opened EngineInvariant
  import opened EngineTheorems

  /** For each rule, the rules it waits for. */
  type Graph = map<KeyID, seq<KeyID>>

  ghost predicate Path(g: Graph, p: seq<KeyID>) {
    forall i :: 0 <= i < |p| - 1 ==> p[i + 1] in At(g, p[i])
  }

  /** No path that starts with `p` comes back to where it has been. */
  ghost predicate Acyclic(g: Graph, p: seq<KeyID>) {
    forall q :: Path(g, p + q) ==> NoDuplicates(p + q)
  }

  /** A path whose last node, and no other, repeats an earlier one. */
  ghost predicate Cycle(g: Graph, p: seq<KeyID>) {
    |p| > 0 && Path(g, p) && NoDuplicates(Front(p)) && Last(p) in Front(p)
  }

  datatype WorkItem = WorkItem(node: KeyID, predecessorIndex: nat)

  ghost function Nodes(stack: seq<WorkItem>): seq<KeyID> {
    seq(|stack|, i requires 0 <= i < |stack| => stack[i].node)
  }

  // ---- Why the search ends ------------------------------------------------------------------------

  function Pow(w: nat, n: nat): nat {
    if n == 0 then 1 else w * Pow(w, n - 1)
  }

  lemma {:induction false} PowPositive(w: nat, n: nat)
    requires w > 0
    ensures Pow(w, n) > 0
  {
    if n > 0 { PowPositive(w, n - 1); }
  }

  function Remaining(g: Graph, item: WorkItem): nat {
    if item.predecessorIndex <= |At(g, item.node)| then |At(g, item.node)| - item.predecessorIndex else 0
  }

  /** Each level of the stack weighs more than everything that can still be stacked on it. */
  ghost function Measure(g: Graph, w: nat, h: nat, stack: seq<WorkItem>): nat
    requires |stack| <= h
  {
    if stack == [] then 0
    else Measure(g, w, h, Front(stack)) + (Remaining(g, Last(stack)) + 1) * Pow(w, h - |stack|)
  }

  lemma MeasurePop(g: Graph, w: nat, h: nat, stack: seq<WorkItem>)
    requires 0 < |stack| <= h && w > 0
    ensures Measure(g, w, h, Front(stack)) < Measure(g, w, h, stack)
  {
    PowPositive(w, h - |stack|);
    assert (Remaining(g, Last(stack)) + 1) * Pow(w, h - |stack|) > 0;
  }

  lemma Outweighs(w: nat, r: nat, e: nat)
    requires r + 2 <= w
    ensures (r + 1) * Pow(w, e) < Pow(w, e + 1)
  {
    PowPositive(w, e);
    assert Pow(w, e + 1) == w * Pow(w, e);
    assert (r + 1) * Pow(w, e) + Pow(w, e) == (r + 2) * Pow(w, e);
    assert (r + 2) * Pow(w, e) <= w * Pow(w, e);
  }

  lemma MeasureLast(g: Graph, w: nat, h: nat, stack: seq<WorkItem>, below: seq<WorkItem>, item: WorkItem)
    requires stack == below + [item] && |stack| <= h
    ensures Measure(g, w, h, stack) == Measure(g, w, h, below) + (Remaining(g, item) + 1) * Pow(w, h - |stack|)
  {
    assert Front(stack) == below && Last(stack) == item;
  }

  lemma Distribute(r: nat, x: nat)
    ensures (r + 1) * x == r * x + x
  {
  }

  lemma MeasurePush(g: Graph, w: nat, h: nat, stack: seq<WorkItem>, child: KeyID)
    requires 0 < |stack| < h && |At(g, child)| + 2 <= w
    requires Last(stack).predecessorIndex < |At(g, Last(stack).node)|
    ensures Measure(g, w, h, Advanced(stack) + [WorkItem(child, 0)]) < Measure(g, w, h, stack)
  {
    hide Measure, Pow;
    var top := Advanced(stack);
    var below := Front(stack);
    var e := h - |stack| - 1;
    var r := Remaining(g, Last(top));
    MeasureLast(g, w, h, stack, below, Last(stack));
    MeasureLast(g, w, h, top, below, Last(top));
    MeasureLast(g, w, h, top + [WorkItem(child, 0)], top, WorkItem(child, 0));
    Distribute(r + 1, Pow(w, e + 1));
    Outweighs(w, |At(g, child)|, e);
  }

  /** The stack once its top item moves to its next predecessor. */
  function Advanced(stack: seq<WorkItem>): seq<WorkItem>
    requires stack != []
  {
    stack[|stack| - 1 := Last(stack).(predecessorIndex := Last(stack).predecessorIndex + 1)]
  }

  ghost predicate Wide(g: Graph, w: nat) {
    forall k :: |At(g, k)| + 2 <= w
  }

  lemma {:induction false} SomeWidth(g: Graph) returns (w: nat)
    ensures Wide(g, w)
    decreases |g|
  {
    if k :| k in g {
      var v := SomeWidth(g - {k});
      w := v + |g[k]|;
      forall x ensures |At(g, x)| + 2 <= w {
        assert |At(g - {k}, x)| + 2 <= v;
      }
    } else {
      w := 2;
    }
  }

  /** Everything a path can visit. */
  ghost function Universe(g: Graph, root: KeyID): set<KeyID> {
    {root} + set k, i | k in g && 0 <= i < |g[k]| :: g[k][i]
  }

  lemma InUniverse(g: Graph, root: KeyID, p: seq<KeyID>)
    requires Path(g, p) && (p != [] ==> p[0] == root)
    ensures forall x :: x in p ==> x in Universe(g, root)
  {
    forall i | 0 <= i < |p| ensures p[i] in Universe(g, root) {
      if i > 0 { assert p[i - 1 + 1] in At(g, p[i - 1]); }
    }
  }

  // ---- What the search has established -------------------------------------------------------------

  /** The first `n` predecessors of the last node of `p` lead to no cycle. */
  ghost predicate Explored(g: Graph, p: seq<KeyID>, n: nat)
    requires p != []
  {
    forall j :: 0 <= j < n && j < |At(g, Last(p))| ==> Acyclic(g, p + [At(g, Last(p))[j]])
  }

  lemma ExploredAll(g: Graph, p: seq<KeyID>)
    requires p != [] && NoDuplicates(p) && Explored(g, p, |At(g, Last(p))|)
    ensures Acyclic(g, p)
  {
    forall q | Path(g, p + q) ensures NoDuplicates(p + q) {
      if q == [] {
        assert p + q == p;
      } else {
        assert (p + q)[|p| - 1 + 1] in At(g, (p + q)[|p| - 1]);
        var j :| 0 <= j < |At(g, Last(p))| && At(g, Last(p))[j] == q[0];
        assert Acyclic(g, p + [q[0]]);
        assert p + q == (p + [q[0]]) + q[1..];
      }
    }
  }

  /** An item below the top is at the predecessor above it, and has explored those before. */
  ghost predicate Level(g: Graph, stack: seq<WorkItem>, i: nat)
    requires i < |stack| - 1
  {
    var n := stack[i].predecessorIndex;
    && 0 < n <= |At(g, stack[i].node)| && At(g, stack[i].node)[n - 1] == stack[i + 1].node
    && Explored(g, Nodes(stack)[..i + 1], n - 1)
  }

  /** Where the search stands. */
  ghost predicate Searching(g: Graph, root: KeyID, stack: seq<WorkItem>) {
    && (stack != [] ==> stack[0].node == root && Explored(g, Nodes(stack), Last(stack).predecessorIndex))
    && Path(g, Nodes(stack))
    && (forall i :: 0 <= i < |stack| - 1 ==> Level(g, stack, i))
  }

  lemma PushSearch(g: Graph, root: KeyID, stack: seq<WorkItem>)
    requires Searching(g, root, stack) && stack != []
    requires Last(stack).predecessorIndex < |At(g, Last(stack).node)|
    ensures Searching(g, root, Advanced(stack) + [WorkItem(At(g, Last(stack).node)[Last(stack).predecessorIndex], 0)])
  {
    hide Explored;
    var n := |stack|;
    var child := At(g, Last(stack).node)[Last(stack).predecessorIndex];
    var all := Advanced(stack) + [WorkItem(child, 0)];
    assert Nodes(all) == Nodes(stack) + [child];
    ExploredNone(g, Nodes(all));
    forall i | 0 <= i < |all| - 1 ensures Level(g, all, i) {
      assert Nodes(all)[..i + 1] == Nodes(stack)[..i + 1];
      if i < n - 1 {
        assert Level(g, stack, i);
      } else {
        assert Nodes(stack)[..n] == Nodes(stack);
      }
    }
  }

  lemma ExploredNone(g: Graph, p: seq<KeyID>)
    requires p != []
    ensures Explored(g, p, 0)
  {
  }

  lemma ExploredOne(g: Graph, p: seq<KeyID>, n: nat)
    requires p != [] && Explored(g, p, n) && n < |At(g, Last(p))| && Acyclic(g, p + [At(g, Last(p))[n]])
    ensures Explored(g, p, n + 1)
  {
  }

  lemma PopSearch(g: Graph, root: KeyID, stack: seq<WorkItem>)
    requires Searching(g, root, stack) && |stack| > 1 && Acyclic(g, Nodes(stack))
    ensures Searching(g, root, Front(stack)) && Last(Front(stack)).predecessorIndex > 0
  {
    hide Explored, Acyclic;
    var n := |stack| - 1;
    var below := Front(stack);
    assert Nodes(below) == Nodes(stack)[..n];
    forall i | 0 <= i < n - 1 ensures Level(g, below, i) {
      assert Level(g, stack, i);
      assert Nodes(below)[..i + 1] == Nodes(stack)[..i + 1];
    }
    var item := stack[n - 1];
    assert Level(g, stack, n - 1);
    assert Last(Nodes(below)) == item.node;
    assert Nodes(stack) == Nodes(below) + [At(g, item.node)[item.predecessorIndex - 1]];
    ExploredOne(g, Nodes(below), item.predecessorIndex - 1);
  }

  // ---- The path on which the search stands, `cycleList`, and its items, `cycleItems` ----------------

  /** Once the top item has been visited. */
  ghost predicate Visited(stack: seq<WorkItem>, cycleList: seq<KeyID>, cycleItems: set<KeyID>) {
    cycleList == Nodes(stack) && NoDuplicates(cycleList) && forall x :: x in cycleItems <==> x in cycleList
  }

  /** Before that, if it is new. */
  ghost predicate OnPath(stack: seq<WorkItem>, cycleList: seq<KeyID>, cycleItems: set<KeyID>) {
    if stack != [] && Last(stack).predecessorIndex == 0 then Visited(Front(stack), cycleList, cycleItems)
    else Visited(stack, cycleList, cycleItems)
  }

  lemma Visit(stack: seq<WorkItem>, cycleList: seq<KeyID>, cycleItems: set<KeyID>)
    requires stack != [] && Visited(Front(stack), cycleList, cycleItems) && Last(stack).node !in cycleItems
    ensures Visited(stack, cycleList + [Last(stack).node], cycleItems + {Last(stack).node})
  {
    assert Nodes(stack) == Nodes(Front(stack)) + [Last(stack).node];
  }

  lemma Leave(stack: seq<WorkItem>, cycleList: seq<KeyID>, cycleItems: set<KeyID>)
    requires stack != [] && Visited(stack, cycleList, cycleItems)
    ensures cycleList != [] && Visited(Front(stack), Front(cycleList), cycleItems - {Last(stack).node})
  {
    var x := Last(stack).node;
    assert cycleList == Front(cycleList) + [x];
    forall i | 0 <= i < |cycleList| - 1 ensures cycleList[i] != x { assert cycleList[i] != cycleList[|cycleList| - 1]; }
    forall i, j | 0 <= i < j < |cycleList| - 1 ensures Front(cycleList)[i] != Front(cycleList)[j] { assert cycleList[i] != cycleList[j]; }
  }

  lemma Descend(stack: seq<WorkItem>, child: KeyID, cycleList: seq<KeyID>, cycleItems: set<KeyID>)
    requires stack != [] && Visited(stack, cycleList, cycleItems)
    ensures OnPath(Advanced(stack) + [WorkItem(child, 0)], cycleList, cycleItems)
  {
    var all := Advanced(stack) + [WorkItem(child, 0)];
    assert Front(all) == Advanced(stack) && Nodes(Advanced(stack)) == Nodes(stack);
  }

  lemma Fits(g: Graph, root: KeyID, stack: seq<WorkItem>)
    requires Searching(g, root, stack) && NoDuplicates(Nodes(stack))
    ensures |stack| <= |Universe(g, root)|
  {
    InUniverse(g, root, Nodes(stack));
    DistinctCount(Nodes(stack), Universe(g, root));
  }

  lemma Begin(g: Graph, root: KeyID)
    ensures Searching(g, root, [WorkItem(root, 0)]) && OnPath([WorkItem(root, 0)], [], {}) && Searching(g, root, [])
  {
    assert Nodes([WorkItem(root, 0)]) == [root] && Nodes([]) == [];
    ExploredNone(g, [root]);
  }

  lemma SearchedAll(g: Graph, root: KeyID, stack: seq<WorkItem>)
    requires Searching(g, root, stack) && stack != [] && NoDuplicates(Nodes(stack))
    requires Last(stack).predecessorIndex >= |At(g, Last(stack).node)|
    ensures Acyclic(g, Nodes(stack)) && (|stack| == 1 ==> Nodes(stack) == [root])
  {
    ExploredAll(g, Nodes(stack));
  }

  lemma RepeatsLast(p: seq<KeyID>)
    requires p != [] && Last(p) in Front(p)
    ensures !NoDuplicates(p)
  {
    var i :| 0 <= i < |p| - 1 && p[i] == p[|p| - 1];
  }

  lemma FoundCycle(g: Graph, root: KeyID, stack: seq<WorkItem>, cycleList: seq<KeyID>, cycleItems: set<KeyID>)
    requires Searching(g, root, stack) && stack != [] && Visited(Front(stack), cycleList, cycleItems)
    requires Last(stack).node in cycleItems
    ensures var p := cycleList + [Last(stack).node]; p[0] == root && Cycle(g, p) && !Acyclic(g, [root])
  {
    hide Explored, Level;
    var p := cycleList + [Last(stack).node];
    assert p == Nodes(stack) && Front(p) == cycleList && Last(p) in Front(p);
    assert [root] + p[1..] == p;
    RepeatsLast(p);
    assert Path(g, [root] + p[1..]);
  }

  /** Where a turn of the loop begins. The stack is never higher than `h`. */
  ghost predicate Turn(g: Graph, root: KeyID, h: nat, stack: seq<WorkItem>, cycleList: seq<KeyID>, cycleItems: set<KeyID>) {
    && |stack| <= h && h == |Universe(g, root)| + 1
    && Searching(g, root, stack) && OnPath(stack, cycleList, cycleItems)
    && (stack == [] ==> Acyclic(g, [root]) && cycleList == [])
  }

  lemma FirstTurn(g: Graph, root: KeyID)
    ensures Turn(g, root, |Universe(g, root)| + 1, [WorkItem(root, 0)], [], {})
  {
    hide Searching, OnPath, Universe, Acyclic;
    Begin(g, root);
  }

  lemma TurnParts(g: Graph, root: KeyID, h: nat, stack: seq<WorkItem>, cycleList: seq<KeyID>, cycleItems: set<KeyID>)
    requires Turn(g, root, h, stack, cycleList, cycleItems)
    ensures |stack| <= h && Searching(g, root, stack) && (stack == [] ==> Acyclic(g, [root]) && cycleList == [])
    ensures stack != [] ==>
      if Last(stack).predecessorIndex == 0 then Visited(Front(stack), cycleList, cycleItems) else Visited(stack, cycleList, cycleItems)
  {
    hide Searching, Visited, Acyclic, Universe;
  }

  lemma Down(g: Graph, root: KeyID, w: nat, h: nat, stack: seq<WorkItem>, cycleList: seq<KeyID>, cycleItems: set<KeyID>)
    requires Wide(g, w) && h == |Universe(g, root)| + 1
    requires stack != [] && Searching(g, root, stack) && Visited(stack, cycleList, cycleItems)
    requires Last(stack).predecessorIndex < |At(g, Last(stack).node)|
    ensures var next := Push(stack, At(g, Last(stack).node)[Last(stack).predecessorIndex]);
      && Turn(g, root, h, next, cycleList, cycleItems)
      && |stack| <= h && Measure(g, w, h, next) < Measure(g, w, h, stack)
  {
    hide Searching, Visited, OnPath, Measure, Wide, Universe, Nodes, Advanced, Acyclic;
    var child := At(g, Last(stack).node)[Last(stack).predecessorIndex];
    VisitedOnce(stack, cycleList, cycleItems);
    Fits(g, root, stack);
    PushSearch(g, root, stack);
    WideAt(g, w, child);
    MeasurePush(g, w, h, stack, child);
    Descend(stack, child, cycleList, cycleItems);
  }

  lemma BackOnPath(stack: seq<WorkItem>, cycleList: seq<KeyID>, cycleItems: set<KeyID>)
    requires Visited(stack, cycleList, cycleItems) && (stack != [] ==> Last(stack).predecessorIndex > 0)
    ensures OnPath(stack, cycleList, cycleItems) && (stack == [] ==> cycleList == [])
  {
  }

  lemma Back(g: Graph, root: KeyID, w: nat, h: nat, stack: seq<WorkItem>, cycleList: seq<KeyID>, cycleItems: set<KeyID>)
    requires w > 0 && h == |Universe(g, root)| + 1
    requires 0 < |stack| <= h && Searching(g, root, stack) && Visited(stack, cycleList, cycleItems)
    requires Last(stack).predecessorIndex >= |At(g, Last(stack).node)|
    ensures cycleList != [] && Turn(g, root, h, Front(stack), Front(cycleList), cycleItems - {Last(stack).node})
    ensures Measure(g, w, h, Front(stack)) < Measure(g, w, h, stack)
  {
    hide Searching, Visited, OnPath, Measure, Universe, Nodes, Acyclic;
    VisitedOnce(stack, cycleList, cycleItems);
    SearchedAll(g, root, stack);
    MeasurePop(g, w, h, stack);
    Leave(stack, cycleList, cycleItems);
    if |stack| > 1 { PopSearch(g, root, stack); } else { Begin(g, root); }
    BackOnPath(Front(stack), Front(cycleList), cycleItems - {Last(stack).node});
  }

  /** The search ends. It returns the empty list if and only if no path from `root` comes back to
      where it has been; otherwise a path from `root` along the edges of the graph whose last
      node repeats an earlier one. */
  method FindCycle(g: Graph, root: KeyID) returns (cycleList: seq<KeyID>)
    ensures cycleList == [] <==> Acyclic(g, [root])
    ensures cycleList != [] ==> cycleList[0] == root && Cycle(g, cycleList)
  {
    hide Turn, Searching, Acyclic, Visited, Measure, Wide, Universe, Cycle, Nodes, Advanced;
    ghost var w := SomeWidth(g);
    ghost var h := |Universe(g, root)| + 1;
    cycleList := [];
    var cycleItems: set<KeyID> := {};
    var stack := [WorkItem(root, 0)];
    FirstTurn(g, root);
    TurnParts(g, root, h, stack, cycleList, cycleItems);
    while stack != []
      invariant |stack| <= h && Turn(g, root, h, stack, cycleList, cycleItems)
      decreases Measure(g, w, h, stack)
    {
      var entry := Last(stack);
      TurnParts(g, root, h, stack, cycleList, cycleItems);
      if entry.predecessorIndex == 0 {
        if entry.node in cycleItems {
          FoundCycle(g, root, stack, cycleList, cycleItems);
          cycleList := cycleList + [entry.node];
          return;
        }
        Visit(stack, cycleList, cycleItems);
        cycleList := cycleList + [entry.node];
        cycleItems := cycleItems + {entry.node};
      }
      if entry.predecessorIndex < |At(g, entry.node)| {
        Down(g, root, w, h, stack, cycleList, cycleItems);
        stack := Push(stack, At(g, entry.node)[entry.predecessorIndex]);
      } else {
        Back(g, root, w, h, stack, cycleList, cycleItems);
        cycleItems := cycleItems - {entry.node};
        cycleList := Front(cycleList);
        stack := Front(stack);
      }
      TurnParts(g, root, h, stack, cycleList, cycleItems);
    }
    TurnParts(g, root, h, stack, cycleList, cycleItems);
  }

  function Push(stack: seq<WorkItem>, child: KeyID): (r: seq<WorkItem>)
    requires stack != []
    ensures r == Advanced(stack) + [WorkItem(child, 0)] && |r| == |stack| + 1
  {
    Advanced(stack) + [WorkItem(child, 0)]
  }

  lemma VisitedOnce(stack: seq<WorkItem>, cycleList: seq<KeyID>, cycleItems: set<KeyID>)
    requires Visited(stack, cycleList, cycleItems)
    ensures NoDuplicates(Nodes(stack)) && |cycleList| == |stack|
  {
  }

  lemma WideAt(g: Graph, w: nat, k: KeyID)
    requires Wide(g, w)
    ensures |At(g, k)| + 2 <= w
  {
  }
}
