/** What every run of the engine guarantees, whatever its client asks for. Each theorem follows
    from the invariant in the state reached. */
module EngineTheorems {
  import opened Options
  import opened EngineState
  import opened EngineSteps
  import opened EngineCounts
  import opened EngineInvariant
  import opened EngineRuns

  lemma BetweenParts(c: Client, s: State)
    requires Between(c, s)
    ensures s.curScan == [] && s.curInput == []
    ensures Shape(s) && RequestsOk(s) && CountsOk(s) && TasksOk(s) && QueuesOk(s) && OwnersOk(s) && VerdictsOk(c, s) && OwedOk(s)
  {
    hide Shape, TimesOk, RequestsOk, CountsOk, TasksOk, QueuesOk, OwnersOk, ScansOk, VerdictsOk, OwedOk, DemandsOk, Quiet;
  }

  // ---- Wait counts --------------------------------------------------------------------------

  /** The requests of task `t` that are still open, over every place the engine keeps one. */
  ghost function OpenRequests(s: State, t: KeyID): multiset<nat> {
    Ids(s.inputRequests, t) + FlatIds(s.paused, t) + FlatIds(s.requestedBy, t) + Ids(s.finishedInputRequests, t)
  }

  ghost predicate Conserved(s: State, t: KeyID)
    requires t in s.tasks
  {
    && s.tasks[t].waitCount == |OpenRequests(s, t)|
    && OpenRequests(s, t) + multiset(s.tasks[t].delivered) == Below(|s.tasks[t].asked|)
  }

  lemma ConservedNow(s: State, t: KeyID)
    requires CountsOk(s) && t in s.tasks && s.curInput == []
    ensures Conserved(s, t)
  {
    hide Ids, FlatIds, Below;
    assert Counted(s, t);
    assert Ids([], t) == multiset{} by { IdsNone([], t); }
    assert OpenRequests(s, t) == Queued(s, t) + Awaited(s, t);
  }

  /** In every state of every run, `waitCount` is the number of the task's open requests, and
      each request it ever made is either open, in exactly one place, or has been answered once. */
  lemma WaitCountConservation(c: Client, steps: seq<Step>, t: KeyID)
    requires Legal(c, steps) && t in Exec(c, steps).tasks
    ensures Conserved(Exec(c, steps), t)
  {
    hide *;
    RunInvariant(c, steps);
    BetweenParts(c, Exec(c, steps));
    ConservedNow(Exec(c, steps), t);
  }

  // ---- Exactly once, and only when ready ---------------------------------------------------------

  ghost predicate AtMostOnce(s: State) {
    && NoDuplicates(s.created) && NoDuplicates(s.readied)
    && (forall t :: t in s.tasks ==> t in s.created)
    && (forall t :: t in s.readied ==> t in s.created)
    && (forall t :: t in s.readyTaskInfos ==> t in s.tasks)
  }

  lemma AtMostOnceNow(s: State)
    requires QueuesOk(s)
    ensures AtMostOnce(s)
  {
    hide NoDuplicates;
  }

  /** In any build, a rule gets at most one task and a task is made ready at most once. */
  lemma ExactlyOnce(c: Client, steps: seq<Step>)
    requires Legal(c, steps)
    ensures AtMostOnce(Exec(c, steps))
  {
    hide *;
    RunInvariant(c, steps);
    BetweenParts(c, Exec(c, steps));
    AtMostOnceNow(Exec(c, steps));
  }

  /** A request that has been asked has been answered, once every request has. */
  lemma AllDelivered(task: TaskInfo)
    requires multiset(task.delivered) == Below(|task.asked|)
    ensures forall id :: 0 <= id < |task.asked| ==> id in task.delivered
  {
    forall id | 0 <= id < |task.asked| ensures id in task.delivered {
      BelowCount(|task.asked|, id);
      assert id in multiset(task.delivered);
    }
  }

  ghost predicate AllAnswered(s: State, t: KeyID)
    requires t in s.tasks
  {
    && (forall id :: 0 <= id < |s.tasks[t].asked| ==> id in s.tasks[t].delivered)
    && (!s.broken ==> forall d :: d in s.tasks[t].asked ==> CompleteNow(s, d.key))
  }

  lemma AllAnsweredNow(s: State, t: KeyID)
    requires TasksOk(s) && t in s.tasks && Conserved(s, t) && s.tasks[t].waitCount == 0
    ensures AllAnswered(s, t)
  {
    hide Ids, FlatIds, Below, RecordsAsked, Causal, CompleteNow;
    var task := s.tasks[t];
    assert OpenRequests(s, t) == multiset{};
    AllDelivered(task);
    forall d | !s.broken && d in task.asked ensures CompleteNow(s, d.key) {
      var id :| 0 <= id < |task.asked| && task.asked[id] == d;
      assert id in task.delivered;
    }
  }

  lemma NoWait(s: State, t: KeyID)
    requires QueuesOk(s) && (t in s.readyTaskInfos || (t in s.tasks && Computing(s, t)))
    ensures t in s.tasks && s.tasks[t].waitCount == 0
  {
    hide NoDuplicates, ComputingSet;
  }

  /** A task is told that its inputs are available, and computes, only when every input it asked
      for, must-follow ones included, has been answered and, unless a cycle was broken in this
      build, is complete in this epoch. */
  lemma OnlyWhenReady(c: Client, steps: seq<Step>, t: KeyID)
    requires Legal(c, steps)
    requires var s := Exec(c, steps); t in s.readyTaskInfos || (t in s.tasks && Computing(s, t))
    ensures t in Exec(c, steps).tasks && AllAnswered(Exec(c, steps), t)
  {
    hide *;
    var s := Exec(c, steps);
    RunInvariant(c, steps);
    BetweenParts(c, s);
    NoWait(s, t);
    ConservedNow(s, t);
    AllAnsweredNow(s, t);
  }

  // ---- Causal dependency recording -----------------------------------------------------------------

  /** The recorded dependencies are the requests made, each once; and what the task had received
      when it made a request is recorded before it. */
  ghost predicate RecordedInOrder(task: TaskInfo, ds: seq<Dependency>) {
    && multiset(task.recorded) == Below(|task.asked|)
    && |ds| == |task.recorded| && |task.seen| == |task.asked|
    && (forall i :: 0 <= i < |ds| ==> task.recorded[i] < |task.asked| && ds[i] == task.asked[task.recorded[i]])
    && (forall i, j :: 0 <= i < |ds| && 0 <= j < task.seen[task.recorded[i]] ==>
          j < |task.delivered| && task.delivered[j] in task.recorded[..i])
  }

  lemma RecordedNow(task: TaskInfo, ds: seq<Dependency>, q: multiset<nat>, a: multiset<nat>)
    requires Tally(task, q, a) && task.waitCount == 0 && RecordsAsked(task, ds) && Causal(task)
    ensures RecordedInOrder(task, ds)
  {
    hide Below;
    assert q == multiset{} && a == multiset{};
  }

  lemma RecordedFor(s: State, t: KeyID)
    requires CountsOk(s) && TasksOk(s) && t in s.tasks && s.tasks[t].waitCount == 0
    ensures RecordedInOrder(s.tasks[t], Info(s, t).result.dependencies)
  {
    hide Tally, RecordsAsked, Causal, RecordedInOrder, Queued, Awaited;
    assert Counted(s, t);
    RecordedNow(s.tasks[t], Info(s, t).result.dependencies, Queued(s, t), Awaited(s, t));
  }

  /** So it is for every task that is ready or running, whatever pausing and re-queuing occurred. */
  lemma CausalRecording(c: Client, steps: seq<Step>, t: KeyID)
    requires Legal(c, steps)
    requires var s := Exec(c, steps); t in s.readyTaskInfos || (t in s.tasks && Computing(s, t))
    ensures var s := Exec(c, steps); t in s.tasks && RecordedInOrder(s.tasks[t], Info(s, t).result.dependencies)
  {
    hide *;
    var s := Exec(c, steps);
    RunInvariant(c, steps);
    BetweenParts(c, s);
    NoWait(s, t);
    RecordedFor(s, t);
  }

  // ---- Ownership and cancellation ----------------------------------------------------------------------

  ghost predicate Owned(s: State, k: KeyID) {
    && (InProgress(s, k) <==> k in s.tasks) && (k in s.requestedBy <==> k in s.tasks) && (k in s.taskDeferred <==> k in s.tasks)
    && (Scanning(s, k) <==> k in s.paused) && (k in s.deferred <==> k in s.paused)
    && (Scanning(s, k) ==> (Owners(s.ruleInfosToScan) + FlatOwners(s.deferred) + FlatOwners(s.taskDeferred))[k] == 1)
  }

  lemma OwnedNow(s: State, k: KeyID)
    requires Shape(s) && OwnersOk(s) && s.curScan == []
    ensures Owned(s, k)
  {
    hide Owners, FlatOwners;
    assert Owners([]) == multiset{} by { OwnersEmpty(); }
    var _ := Info(s, k);
    assert AllOwners(s) == Owners(s.ruleInfosToScan) + FlatOwners(s.deferred) + FlatOwners(s.taskDeferred);
  }

  lemma OwnersEmpty()
    ensures Owners([]) == multiset{}
  {
  }

  lemma OutstandingNow(s: State)
    requires QueuesOk(s) && Shape(s)
    ensures s.numOutstanding == |ComputingSet(s)| && |s.finishedTaskInfos| <= s.numOutstanding
  {
    hide NoDuplicates;
    forall t | t in s.finishedTaskInfos ensures t in ComputingSet(s) { var _ := Info(s, t); }
    DistinctCount(s.finishedTaskInfos, ComputingSet(s));
  }

  lemma {:induction false} DistinctCount(xs: seq<KeyID>, all: set<KeyID>)
    requires NoDuplicates(xs) && forall x :: x in xs ==> x in all
    ensures |xs| <= |all|
  {
    if xs != [] {
      var x := Last(xs);
      forall i | 0 <= i < |xs| - 1 ensures xs[i] != x { assert xs[i] != xs[|xs| - 1]; }
      DistinctCount(Front(xs), all - {x});
    }
  }

  /** In-progress rules and tasks correspond, scanning rules and scan records correspond, the
      scan of each scanning rule is in exactly one place, and the counter of outstanding tasks is
      the number of computing ones. */
  lemma Ownership(c: Client, steps: seq<Step>, k: KeyID)
    requires Legal(c, steps)
    ensures var s := Exec(c, steps);
      Owned(s, k) && s.numOutstanding == |ComputingSet(s)| && |s.finishedTaskInfos| <= s.numOutstanding
  {
    hide *;
    var s := Exec(c, steps);
    RunInvariant(c, steps);
    BetweenParts(c, s);
    OwnedNow(s, k);
    OutstandingNow(s);
  }

  /** Rules that were being scanned or built are incomplete; nothing else about any rule has changed. */
  ghost predicate RuleCleanedUp(s: State, s': State, k: KeyID) {
    Info(s', k) == if Scanning(s, k) || InProgress(s, k) then Info(s, k).(phase := Incomplete) else Info(s, k)
  }

  /** Nothing is in flight. */
  ghost predicate CleanedUp(s: State, s': State) {
    Quiet(s') && s'.db == s.db && s'.epoch == s.epoch && forall k :: RuleCleanedUp(s, s', k)
  }

  lemma CleanedUpNow(c: Client, s: State)
    requires Shape(s) && Quiet(Cancel(s))
    ensures CleanedUp(s, Cancel(s))
  {
    hide Shape, Quiet, RuleCleanedUp;
    forall k ensures RuleCleanedUp(s, Cancel(s), k) { CancelRule(s, k); }
  }

  lemma CancelRule(s: State, k: KeyID)
    requires Shape(s)
    ensures RuleCleanedUp(s, Cancel(s), k)
  {
    assert k in s.tasks <==> InProgress(s, k);
  }

  lemma CancelRuns(c: Client, steps: seq<Step>)
    requires Legal(c, steps) && AllReported(Exec(c, steps))
    ensures Legal(c, steps + [DoCancel]) && Exec(c, steps + [DoCancel]) == Cancel(Exec(c, steps))
  {
    hide Cancel, AllReported;
    assert Front(steps + [DoCancel]) == steps;
  }

  /** Cancellation, from any reachable state in which every running task has reported, leaves no
      work, no task and no scan record. The rules that were being scanned or built become incomplete,
      and keep their results; the other rules stay as they are, and so does the database. */
  lemma CleanCancellation(c: Client, steps: seq<Step>)
    requires Legal(c, steps) && AllReported(Exec(c, steps))
    ensures Legal(c, steps + [DoCancel]) && CleanedUp(Exec(c, steps), Exec(c, steps + [DoCancel]))
  {
    hide *;
    var s := Exec(c, steps);
    RunInvariant(c, steps);
    BetweenParts(c, s);
    CancelRuns(c, steps);
    BetweenInv(c, s);
    CancelKeeps(c, s);
    CleanedUpNow(c, s);
  }

  lemma BetweenInv(c: Client, s: State)
    requires Between(c, s)
    ensures Inv(c, s)
  {
    hide Inv;
  }
}
