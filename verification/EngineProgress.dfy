/** No wake-up is lost: when the engine has nothing to do but has not produced a key, the waits it
    has recorded contain a cycle that can be reached from that key. */
module EngineProgress {
  import opened Options
  import opened EngineState
  import opened EngineSteps
  import opened EngineCounts
  import opened EngineInvariant
  import opened EngineRuns
  import opened EngineTheorems
  import opened CycleSearch

  /** Half-way through its scan, or waiting for its task. */
  predicate Blocked(s: State, k: KeyID) {
    Scanning(s, k) || InProgress(s, k)
  }

  /** The engine has no work and is not waiting for any task to report. */
  ghost predicate Stuck(s: State) {
    Idle(s) && forall k :: !Info(s, k).phase.InProgressComputing?
  }

  lemma OpenRequestSomewhere(s: State, k: KeyID)
    requires CountsOk(s) && QueuesOk(s) && Shape(s) && Idle(s) && k in s.tasks && Waiting(s, k)
    ensures Queued(s, k) + Awaited(s, k) != multiset{}
    ensures Queued(s, k) == FlatIds(s.paused, k) && Awaited(s, k) == FlatIds(s.requestedBy, k)
  {
    hide Ids, FlatIds, Below, NoDuplicates;
    assert Counted(s, k);
    IdsNone([], k);
    assert k !in s.readyTaskInfos;
    assert s.tasks[k].waitCount != 0;
  }

  lemma TaskWaits(s: State, k: KeyID)
    requires CountsOk(s) && QueuesOk(s) && Shape(s) && Idle(s) && k in s.tasks && Waiting(s, k)
    ensures exists d :: Blocked(s, d) && WaitsOn(s, k, d)
  {
    OpenRequestSomewhere(s, k);
    hide Ids, FlatIds, Below, CountsOk, QueuesOk, Queued, Awaited;
    if i: nat :| i in FlatIds(s.paused, k) {
      FlatIdsMember(s.paused, k, i);
      var d, r :| d in s.paused && r in s.paused[d] && r.task == Some(k) && r.id == i;
      assert r in At(s.paused, d);
      var _ := Info(s, d);
      assert Blocked(s, d) && WaitsOn(s, k, d);
    } else {
      assert FlatIds(s.requestedBy, k) != multiset{};
      var i: nat :| i in FlatIds(s.requestedBy, k);
      FlatIdsMember(s.requestedBy, k, i);
      var d, r :| d in s.requestedBy && r in s.requestedBy[d] && r.task == Some(k) && r.id == i;
      assert r in At(s.requestedBy, d);
      var _ := Info(s, d);
      assert Blocked(s, d) && WaitsOn(s, k, d);
    }
  }

  lemma ScanWaits(s: State, k: KeyID)
    requires OwnersOk(s) && Shape(s) && Idle(s) && Scanning(s, k)
    ensures exists d :: Blocked(s, d) && WaitsOn(s, k, d)
  {
    hide Owners, FlatOwners;
    OwnersEmpty();
    assert AllOwners(s)[k] == 1 by { var _ := Info(s, k); }
    if k in FlatOwners(s.deferred) {
      FlatOwnersMember(s.deferred, k);
      var d, r :| d in s.deferred && r in s.deferred[d] && r.rule == k;
      assert r in At(s.deferred, d);
      var _ := Info(s, d);
      assert Blocked(s, d) && WaitsOn(s, k, d);
    } else {
      assert k in FlatOwners(s.taskDeferred);
      FlatOwnersMember(s.taskDeferred, k);
      var d, r :| d in s.taskDeferred && r in s.taskDeferred[d] && r.rule == k;
      assert r in At(s.taskDeferred, d);
      var _ := Info(s, d);
      assert Blocked(s, d) && WaitsOn(s, k, d);
    }
  }

  /** A blocked rule waits for a blocked rule. */
  lemma BlockedWaits(c: Client, s: State, k: KeyID)
    requires Between(c, s) && Stuck(s) && Blocked(s, k)
    ensures exists d :: Blocked(s, d) && WaitsOn(s, k, d)
  {
    BetweenParts(c, s);
    hide Between, Owners, FlatOwners, RequestsOk, TasksOk, VerdictsOk, OwedOk, CountsOk, QueuesOk, OwnersOk;
    var _ := Info(s, k);
    if Scanning(s, k) { ScanWaits(s, k); } else { TaskWaits(s, k); }
  }

  /** What the build owes and has not produced is blocked. */
  lemma OwedBlocked(c: Client, s: State, k: KeyID)
    requires Between(c, s) && Stuck(s) && k in s.owed && !CompleteNow(s, k)
    ensures Blocked(s, k)
  {
    BetweenParts(c, s);
    hide Between, RequestsOk, TasksOk, VerdictsOk, CountsOk, QueuesOk, OwnersOk;
    if PendingDummy(s, k) {
      assert k in s.paused;
      var _ := Info(s, k);
    }
  }

  // ---- A walk along the waits repeats itself --------------------------------------------------------

  ghost predicate Walk(s: State, p: seq<KeyID>) {
    forall i :: 0 <= i < |p| - 1 ==> WaitsOn(s, p[i], p[i + 1])
  }

  lemma {:induction false} LongWalk(c: Client, s: State, root: KeyID, n: nat) returns (p: seq<KeyID>)
    requires Between(c, s) && Stuck(s) && Blocked(s, root)
    ensures |p| == n + 1 && p[0] == root && Walk(s, p) && forall i :: 0 <= i < |p| ==> Blocked(s, p[i])
  {
    hide Between, Stuck, Blocked, WaitsOn;
    if n == 0 {
      p := [root];
    } else {
      var q := LongWalk(c, s, root, n - 1);
      BlockedWaits(c, s, q[n - 1]);
      var d :| Blocked(s, d) && WaitsOn(s, q[n - 1], d);
      p := q + [d];
    }
  }

  lemma {:induction false} Pigeonhole(p: seq<KeyID>, all: set<KeyID>)
    requires |p| > |all| && forall x :: x in p ==> x in all
    ensures exists i, j :: 0 <= i < j < |p| && p[i] == p[j]
  {
    if !exists i, j :: 0 <= i < j < |p| && p[i] == p[j] {
      DistinctCount(p, all);
    }
  }

  /** A walk from `root` that comes back to where it has been. */
  ghost predicate ReachesCycle(s: State, root: KeyID) {
    exists p: seq<KeyID>, i: nat, j: nat :: i < j < |p| && p[0] == root && Walk(s, p) && p[i] == p[j]
  }

  lemma BlockedKnown(s: State, k: KeyID)
    requires Blocked(s, k)
    ensures k in s.rules
  {
  }

  lemma CycleFrom(c: Client, s: State, root: KeyID)
    requires Between(c, s) && Stuck(s) && Blocked(s, root)
    ensures ReachesCycle(s, root)
  {
    hide Between, Stuck, Blocked, WaitsOn;
    var p := LongWalk(c, s, root, |s.rules.Keys|);
    forall x | x in p ensures x in s.rules.Keys { BlockedKnown(s, x); }
    Pigeonhole(p, s.rules.Keys);
    var i, j :| 0 <= i < j < |p| && p[i] == p[j];
    assert p[0] == root && Walk(s, p);
  }

  /** In every reachable state in which the engine has nothing to do and is waiting for no task,
      every key it owes (the key to build, and every discovered dependency) is complete, or its
      recorded waits reach a cycle. */
  lemma NoLostWakeUps(c: Client, steps: seq<Step>, root: KeyID)
    requires Legal(c, steps)
    requires var s := Exec(c, steps); Stuck(s) && root in s.owed && !CompleteNow(s, root)
    ensures ReachesCycle(Exec(c, steps), root)
  {
    hide *;
    var s := Exec(c, steps);
    RunInvariant(c, steps);
    OwedBlocked(c, s, root);
    CycleFrom(c, s, root);
  }

  lemma EmptyMap<X>(m: map<KeyID, X>)
    requires forall k :: k !in m
    ensures m == map[]
  {
    forall k ensures k !in m.Keys { assert k !in m; }
  }

  lemma NothingBlocked(c: Client, s: State)
    requires Between(c, s) && Stuck(s) && forall k :: !Info(s, k).phase.IsScanning? && !Info(s, k).phase.InProgressWaiting?
    ensures Quiet(s)
  {
    BetweenParts(c, s);
    hide Between, RequestsOk, TasksOk, VerdictsOk, OwedOk, CountsOk, OwnersOk, NoDuplicates;
    forall k ensures k !in s.tasks && k !in s.paused { var _ := Info(s, k); }
    EmptyMap(s.tasks);
    EmptyMap(s.requestedBy);
    EmptyMap(s.taskDeferred);
    EmptyMap(s.paused);
    EmptyMap(s.deferred);
    assert ComputingSet(s) == {};
  }

  /** Where nothing is in flight, nobody waits. */
  lemma QuietReachesNothing(s: State, k: KeyID)
    requires Quiet(s)
    ensures !ReachesCycle(s, k)
  {
    forall x, d ensures !WaitsOn(s, x, d) {}
    hide WaitsOn;
    forall p: seq<KeyID> | |p| > 1 ensures !Walk(s, p) { var _ := WaitsOn(s, p[0], p[0 + 1]); }
  }

  /** When the engine stops, with no work and no task computing, nothing is left in flight if and only
      if no rule's waits reach a cycle. */
  lemma StopsQuietIffAcyclic(c: Client, steps: seq<Step>)
    requires Legal(c, steps) && Stuck(Exec(c, steps))
    ensures var s := Exec(c, steps); Quiet(s) <==> !exists k :: ReachesCycle(s, k)
  {
    hide Legal, Exec, Between, Stuck, ReachesCycle, Quiet;
    var s := Exec(c, steps);
    RunInvariant(c, steps);
    if Quiet(s) {
      forall k ensures !ReachesCycle(s, k) { QuietReachesNothing(s, k); }
    } else if k :| Blocked(s, k) {
      CycleFrom(c, s, k);
    } else {
      forall k ensures !Info(s, k).phase.IsScanning? && !Info(s, k).phase.InProgressWaiting? { assert !Blocked(s, k); }
      NothingBlocked(c, s);
    }
  }

  // ---- The converse: a cycle of waits is real --------------------------------------------------------

  /** Whoever waits for a rule is itself blocked (or was forced to run), and so is that rule. */
  lemma WaitersAreBlocked(c: Client, s: State, k: KeyID, d: KeyID)
    requires Between(c, s) && WaitsOn(s, k, d) && !s.broken
    ensures Blocked(s, k) && Blocked(s, d)
  {
    hide TimesOk, CountsOk, TasksOk, QueuesOk, OwnersOk, VerdictsOk, OwedOk, DemandsOk, Scanned;
    assert Inv(c, s);
    var _ := Info(s, k);
    var _ := Info(s, d);
    if r :| r in At(s.requestedBy, d) && r.task == Some(k) {
      assert Live(s, r);
    } else if r :| r in At(s.paused, d) && r.task == Some(k) {
      assert Live(s, r);
    } else if r :| r in At(s.deferred, d) && r.rule == k {
      assert ScanOk(c, s, r);
    } else {
      var r :| r in At(s.taskDeferred, d) && r.rule == k;
      assert ScanOk(c, s, r);
    }
  }

  /** A complete rule waits for nothing. */
  lemma CompleteWaitsForNothing(c: Client, s: State, k: KeyID)
    requires Between(c, s) && !s.broken && CompleteNow(s, k)
    ensures !ReachesCycle(s, k)
  {
    hide Between, WaitsOn;
    if ReachesCycle(s, k) {
      var p: seq<KeyID>, i: nat, j: nat :| i < j < |p| && p[0] == k && Walk(s, p) && p[i] == p[j];
      assert WaitsOn(s, p[0], p[0 + 1]);
      WaitersAreBlocked(c, s, k, p[1]);
      assert false;
    }
  }

  // ---- The search over the engine's state ------------------------------------------------------------

  /** Adds an edge to `d` for each task whose request is parked in `m[d]`. */
  method AddInputWaits(g: Graph, m: map<KeyID, seq<InputRequest>>) returns (g': Graph)
    ensures forall k, d :: d in At(g', k) <==> d in At(g, k) || AskedBy(At(m, d), k)
  {
    g' := g;
    var todo := m.Keys;
    while exists d :: d in todo
      invariant todo <= m.Keys
      invariant forall k, d :: d in At(g', k) <==>
        d in At(g, k) || (d !in todo && AskedBy(At(m, d), k))
      decreases todo
    {
      var d0 :| d0 in todo;
      g' := AddInputsOf(g', d0, m[d0]);
      todo := todo - {d0};
    }
  }

  method AddInputsOf(g: Graph, d0: KeyID, rs: seq<InputRequest>) returns (g': Graph)
    ensures forall k, d :: d in At(g', k) <==> d in At(g, k) || (d == d0 && AskedBy(rs, k))
  {
    g' := g;
    for i := 0 to |rs|
      invariant forall k, d :: d in At(g', k) <==> d in At(g, k) || (d == d0 && AskedBy(rs[..i], k))
    {
      forall k ensures AskedBy(rs[..i + 1], k) <==> AskedBy(rs[..i], k) || rs[i].task == Some(k) { AskedByMore(rs, i, k); }
      hide AskedBy;
      if rs[i].task.Some? { g' := AddEdge(g', rs[i].task.value, d0); }
    }
    assert rs[..|rs|] == rs;
  }

  ghost predicate AskedBy(rs: seq<InputRequest>, k: KeyID) {
    exists r :: r in rs && r.task == Some(k)
  }

  lemma AskedByMore(rs: seq<InputRequest>, i: nat, k: KeyID)
    requires i < |rs|
    ensures AskedBy(rs[..i + 1], k) <==> AskedBy(rs[..i], k) || rs[i].task == Some(k)
  {
    assert rs[..i + 1] == rs[..i] + [rs[i]];
  }

  function AddEdge(g: Graph, k0: KeyID, d0: KeyID): (g': Graph)
    ensures forall k, d :: d in At(g', k) <==> d in At(g, k) || (k == k0 && d == d0)
  {
    g[k0 := At(g, k0) + [d0]]
  }

  /** Adds an edge to `d` for each rule whose scan is parked in `m[d]`. */
  method AddScanWaits(g: Graph, m: map<KeyID, seq<ScanRequest>>) returns (g': Graph)
    ensures forall k, d :: d in At(g', k) <==> d in At(g, k) || ScannedBy(At(m, d), k)
  {
    g' := g;
    var todo := m.Keys;
    while exists d :: d in todo
      invariant todo <= m.Keys
      invariant forall k, d :: d in At(g', k) <==>
        d in At(g, k) || (d !in todo && ScannedBy(At(m, d), k))
      decreases todo
    {
      var d0 :| d0 in todo;
      g' := AddScansOf(g', d0, m[d0]);
      todo := todo - {d0};
    }
  }

  method AddScansOf(g: Graph, d0: KeyID, rs: seq<ScanRequest>) returns (g': Graph)
    ensures forall k, d :: d in At(g', k) <==> d in At(g, k) || (d == d0 && ScannedBy(rs, k))
  {
    g' := g;
    for i := 0 to |rs|
      invariant forall k, d :: d in At(g', k) <==> d in At(g, k) || (d == d0 && ScannedBy(rs[..i], k))
    {
      forall k ensures ScannedBy(rs[..i + 1], k) <==> ScannedBy(rs[..i], k) || rs[i].rule == k { ScannedByMore(rs, i, k); }
      hide ScannedBy;
      g' := AddEdge(g', rs[i].rule, d0);
    }
    assert rs[..|rs|] == rs;
  }

  ghost predicate ScannedBy(rs: seq<ScanRequest>, k: KeyID) {
    exists r :: r in rs && r.rule == k
  }

  lemma ScannedByMore(rs: seq<ScanRequest>, i: nat, k: KeyID)
    requires i < |rs|
    ensures ScannedBy(rs[..i + 1], k) <==> ScannedBy(rs[..i], k) || rs[i].rule == k
  {
    assert rs[..i + 1] == rs[..i] + [rs[i]];
  }

  /** The graph `findCycle` gathers and inverts: for each rule, the rules it waits for. */
  method WaitGraph(requestedBy: map<KeyID, seq<InputRequest>>, taskDeferred: map<KeyID, seq<ScanRequest>>,
                   paused: map<KeyID, seq<InputRequest>>, deferred: map<KeyID, seq<ScanRequest>>, ghost s: State) returns (g: Graph)
    requires requestedBy == s.requestedBy && taskDeferred == s.taskDeferred && paused == s.paused && deferred == s.deferred
    ensures forall k, d :: d in At(g, k) <==> WaitsOn(s, k, d)
  {
    var g1 := AddInputWaits(map[], requestedBy);
    var g2 := AddScanWaits(g1, taskDeferred);
    var g3 := AddInputWaits(g2, paused);
    g := AddScanWaits(g3, deferred);
    forall k, d ensures d in At(g, k) <==> WaitsOn(s, k, d) {
      assert d in At(g3, k) <==> d in At(g2, k) || exists r :: r in At(s.paused, d) && r.task == Some(k);
      assert d in At(g2, k) <==> d in At(g1, k) || exists r :: r in At(s.taskDeferred, d) && r.rule == k;
      assert d in At(g1, k) <==> exists r :: r in At(s.requestedBy, d) && r.task == Some(k);
      assert d in At(g, k) <==> d in At(g3, k) || exists r :: r in At(s.deferred, d) && r.rule == k;
    }
  }

  lemma PathIsWalk(s: State, g: Graph, p: seq<KeyID>)
    requires forall k, d :: d in At(g, k) <==> WaitsOn(s, k, d)
    ensures Path(g, p) <==> Walk(s, p)
  {
    hide WaitsOn;
    if Path(g, p) {
      forall i | 0 <= i < |p| - 1 ensures WaitsOn(s, p[i], p[i + 1]) { assert p[i + 1] in At(g, p[i]); }
    }
    if Walk(s, p) {
      forall i | 0 <= i < |p| - 1 ensures p[i + 1] in At(g, p[i]) { assert WaitsOn(s, p[i], p[i + 1]); }
    }
  }

  lemma CyclesAgree(s: State, g: Graph, root: KeyID)
    requires forall k, d :: d in At(g, k) <==> WaitsOn(s, k, d)
    ensures Acyclic(g, [root]) <==> !ReachesCycle(s, root)
  {
    hide WaitsOn, Walk, Path;
    if !Acyclic(g, [root]) {
      var q :| Path(g, [root] + q) && !NoDuplicates([root] + q);
      var p := [root] + q;
      PathIsWalk(s, g, p);
      var i, j :| 0 <= i < j < |p| && p[i] == p[j];
      assert p[0] == root && Walk(s, p);
    }
    if ReachesCycle(s, root) {
      var p: seq<KeyID>, i: nat, j: nat :| i < j < |p| && p[0] == root && Walk(s, p) && p[i] == p[j];
      PathIsWalk(s, g, p);
      assert p == [root] + p[1..];
    }
  }

  /** What `findCycle` returns in a state of the engine: nothing if and only if no waits from
      `root` come back to where they have been; otherwise a walk along real waits that does. */
  method FindWaitCycle(requestedBy: map<KeyID, seq<InputRequest>>, taskDeferred: map<KeyID, seq<ScanRequest>>,
                       paused: map<KeyID, seq<InputRequest>>, deferred: map<KeyID, seq<ScanRequest>>, ghost s: State, root: KeyID)
    returns (cycleList: seq<KeyID>)
    requires requestedBy == s.requestedBy && taskDeferred == s.taskDeferred && paused == s.paused && deferred == s.deferred
    ensures cycleList == [] <==> !ReachesCycle(s, root)
    ensures cycleList != [] ==>
      cycleList[0] == root && Walk(s, cycleList) && NoDuplicates(Front(cycleList)) && Last(cycleList) in Front(cycleList)
  {
    var g := WaitGraph(requestedBy, taskDeferred, paused, deferred, s);
    cycleList := FindCycle(g, root);
    CyclesAgree(s, g, root);
    PathIsWalk(s, g, cycleList);
  }

  /** So, where the source calls `resolveCycle`, with nothing to do, no task computing and tasks left: a
      cycle is found if the key to build is not complete; and before any cycle has been broken in this
      build, only then. */
  lemma CycleFoundIff(c: Client, steps: seq<Step>, root: KeyID)
    requires Legal(c, steps)
    requires var s := Exec(c, steps); Stuck(s) && s.tasks != map[] && root in s.owed
    ensures var s := Exec(c, steps); !CompleteNow(s, root) ==> ReachesCycle(s, root)
    ensures var s := Exec(c, steps); !s.broken ==> (ReachesCycle(s, root) <==> !CompleteNow(s, root))
  {
    hide *;
    var s := Exec(c, steps);
    RunInvariant(c, steps);
    if !CompleteNow(s, root) {
      NoLostWakeUps(c, steps, root);
    } else if !s.broken {
      CompleteWaitsForNothing(c, s, root);
    }
  }
}
