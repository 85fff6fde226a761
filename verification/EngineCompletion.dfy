/** Running and finishing tasks keeps the invariant. */
module EngineCompletion {
  import opened Options
  import opened EngineState
  import opened EngineSteps
  import opened EngineCounts
  import opened EngineInvariant
  import opened EngineFrames
  import opened EngineRules
  import opened EngineDemand
  import opened EngineScanning

  // ---- A task that waits for nothing has no request anywhere -------------------------------

  ghost predicate NoneLeft(s: State, t: KeyID) {
    && (forall r :: r in s.inputRequests ==> r.task != Some(t))
    && (forall r :: r in s.curInput ==> r.task != Some(t))
    && (forall r :: r in s.finishedInputRequests ==> r.task != Some(t))
    && (forall d, r :: d in s.paused && r in s.paused[d] ==> r.task != Some(t))
    && (forall d, r :: d in s.requestedBy && r in s.requestedBy[d] ==> r.task != Some(t))
  }

  lemma NoIds(rs: seq<InputRequest>, t: KeyID)
    requires Ids(rs, t) == multiset{}
    ensures forall r :: r in rs ==> r.task != Some(t)
  {
    hide Ids;
    forall r | r in rs ensures r.task != Some(t) { IdsMember(rs, t, r.id); }
  }

  lemma NoFlatIds(m: map<KeyID, seq<InputRequest>>, t: KeyID)
    requires FlatIds(m, t) == multiset{}
    ensures forall d, r :: d in m && r in m[d] ==> r.task != Some(t)
  {
    hide Ids, FlatIds;
    forall d, r | d in m && r in m[d] ensures r.task != Some(t) {
      FlatIdsRemove(m, t, d);
      NoIds(m[d], t);
    }
  }

  lemma NothingLeft(s: State, t: KeyID)
    requires CountsOk(s) && t in s.tasks && s.tasks[t].waitCount == 0
    ensures NoneLeft(s, t)
  {
    hide Ids, FlatIds, Below;
    assert Counted(s, t);
    assert Queued(s, t) == multiset{} && Awaited(s, t) == multiset{};
    NoIds(s.inputRequests, t);
    NoIds(s.curInput, t);
    NoIds(s.finishedInputRequests, t);
    NoFlatIds(s.paused, t);
    NoFlatIds(s.requestedBy, t);
  }

  lemma LiveOther(s: State, s': State, t: KeyID, r: InputRequest)
    requires Live(s, r) && r.task != Some(t) && Only(s, s', t)
    requires forall x :: x in s.tasks && x != t ==> x in s'.tasks && s'.tasks[x] == s.tasks[x]
    ensures Live(s', r)
  {
  }

  // ---- Ready --------------------------------------------------------------------------------

  ghost predicate CanRun(s: State, t: KeyID) {
    s.readyTaskInfos != [] && t == s.readyTaskInfos[0] && t in s.tasks && Waiting(s, t) && s.tasks[t].waitCount == 0
    && (s.building ==> Info(s, t).result.builtAt < s.epoch)
  }

  lemma ReadySame(s: State, t: KeyID)
    requires CanRun(s, t)
    ensures var s' := ReadyOne(s);
      && Only(s, s', t) && Info(s', t) == Info(s, t).(phase := InProgressComputing)
      && SameRequests(s, s') && SameScans(s, s') && s'.db == s.db && ScanStable(s, s', t)
      && InProgress(s, t) && InProgress(s', t) && !Scanning(s, t) && !Scanning(s', t) && !Verdict(s', t) && IsScanned(s', t)
      && s.readyTaskInfos == [t] + s'.readyTaskInfos && s'.finishedTaskInfos == s.finishedTaskInfos
      && s'.numOutstanding == s.numOutstanding + 1 && s'.created == s.created && s'.readied == s.readied
  {
  }

  lemma ReadyRequests(s: State, t: KeyID)
    requires RequestsOk(s) && CountsOk(s) && CanRun(s, t)
    ensures RequestsOk(ReadyOne(s))
  {
    hide Live, Answerable, Only, CountsOk, ReadyOne;
    var s' := ReadyOne(s);
    ReadySame(s, t);
    NothingLeft(s, t);
    forall r: InputRequest | Live(s, r) && r.task != Some(t) ensures Live(s', r) { LiveOther(s, s', t, r); }
    forall r: InputRequest | Answerable(s, r) ensures Answerable(s', r) { AnswerableFrame(s, s', t, r); }
  }

  lemma ReadyTasks(s: State, t: KeyID)
    requires TasksOk(s) && CanRun(s, t)
    ensures TasksOk(ReadyOne(s))
  {
    hide RecordsAsked, Causal, ReadyOne, ScanStable;
    ReadySame(s, t);
  }

  lemma NoDuplicatesTail(xs: seq<KeyID>, t: KeyID, ys: seq<KeyID>)
    requires NoDuplicates(xs) && xs == [t] + ys
    ensures NoDuplicates(ys) && t !in ys && forall x :: x in ys <==> x in xs && x != t
  {
    forall i, j | 0 <= i < j < |ys| ensures ys[i] != ys[j] { assert xs[i + 1] != xs[j + 1]; }
    forall i | 0 <= i < |ys| ensures ys[i] != t { assert xs[0] != xs[i + 1]; }
  }

  lemma ReadyQueues(s: State, t: KeyID)
    requires QueuesOk(s) && CanRun(s, t)
    ensures QueuesOk(ReadyOne(s))
  {
    hide NoDuplicates, ReadyOne, ScanStable, ComputingSet, CompleteNow;
    var s' := ReadyOne(s);
    ReadySame(s, t);
    NoDuplicatesTail(s.readyTaskInfos, t, s'.readyTaskInfos);
    ReadyComputes(s, t);
    forall x | x in s.created ensures InProgress(s', x) || CompleteNow(s', x) { ReadyCreated(s, t, x); }
  }

  lemma ReadyCreated(s: State, t: KeyID, x: KeyID)
    requires CanRun(s, t) && (InProgress(s, x) || CompleteNow(s, x))
    ensures InProgress(ReadyOne(s), x) || CompleteNow(ReadyOne(s), x)
  {
    hide ReadyOne, ScanStable;
    ReadySame(s, t);
  }

  lemma ReadyComputes(s: State, t: KeyID)
    requires CanRun(s, t)
    ensures |ComputingSet(ReadyOne(s))| == |ComputingSet(s)| + 1
  {
    hide ReadyOne, ScanStable;
    ReadySame(s, t);
    assert ComputingSet(ReadyOne(s)) == ComputingSet(s) + {t};
  }

  lemma ReadyKeeps(c: Client, s: State, t: KeyID)
    requires Inv(c, s) && s.readyTaskInfos != [] && CanRun(s, t)
    ensures Inv(c, ReadyOne(s)) && Keeps(s, ReadyOne(s))
  {
    hide *;
    var s' := ReadyOne(s);
    Unpack(c, s);
    ReadySame(s, t);
    ReadyFacts(c, s, t);
    KeepsFrame(s, s', t);
    ShapeFrame(s, s', t);
    ReadyRequests(s, t);
    CountsFrame(s, s');
    ReadyTasks(s, t);
    ReadyQueues(s, t);
    ScansFrame(c, s, s', t);
    OwnersFrame(s, s', t);
    VerdictsFrame(c, s, s', t);
    OwedFrame(s, s', t);
    DemandsFrame(s, s', t);
    Pack(c, s');
  }

  lemma ReadyFacts(c: Client, s: State, t: KeyID)
    requires TimesOk(s) && CanRun(s, t)
    ensures s.readyTaskInfos != [] && VerdictOk(c, ReadyOne(s), t) && TimesOk(ReadyOne(s))
  {
    hide ReadyOne;
    ReadySame(s, t);
  }

  lemma CanRunNow(c: Client, s: State)
    requires Inv(c, s) && s.readyTaskInfos != []
    ensures CanRun(s, s.readyTaskInfos[0])
  {
    hide Shape, RequestsOk, CountsOk, TasksOk, OwnersOk, ScansOk, VerdictsOk, OwedOk, DemandsOk, NoDuplicates;
    assert s.readyTaskInfos[0] in s.readyTaskInfos;
  }

  /** Telling a task that its inputs are available keeps the invariant. */
  lemma ReadyOneKeeps(c: Client, s: State)
    requires Inv(c, s) && s.readyTaskInfos != []
    ensures Inv(c, ReadyOne(s)) && Keeps(s, ReadyOne(s))
  {
    hide Inv, ReadyOne, Keeps, CanRun;
    CanRunNow(c, s);
    ReadyKeeps(c, s, s.readyTaskInfos[0]);
  }

  // ---- Complete -------------------------------------------------------------------------------

  ghost predicate CanReport(s: State, t: KeyID) {
    && t in s.tasks && Computing(s, t) && t !in s.finishedTaskInfos
    && (s.building ==> Info(s, t).result.builtAt < s.epoch)
  }

  /** `t` has reported its result, with some dependencies it discovered. */
  ghost predicate Reported(s: State, s': State, t: KeyID)
    requires t in s.tasks
  {
    && Only(s, s', t) && Info(s', t).phase == Info(s, t).phase
    && Info(s', t).result.builtAt == Info(s, t).result.builtAt && Info(s', t).result.dependencies == Info(s, t).result.dependencies
    && Info(s', t).wasForced == Info(s, t).wasForced
    && s'.tasks.Keys == s.tasks.Keys
    && (forall x :: x in s.tasks && x != t ==> s'.tasks[x] == s.tasks[x])
    && s'.tasks[t] == s.tasks[t].(discovered := s'.tasks[t].discovered)
    && SameScans(s, s') && s'.db == s.db
    && s'.requestedBy == s.requestedBy && s'.paused == s.paused && s'.inputRequests == s.inputRequests
    && s'.curInput == s.curInput && s'.finishedInputRequests == s.finishedInputRequests
    && s'.readyTaskInfos == s.readyTaskInfos && s'.finishedTaskInfos == s.finishedTaskInfos + [t]
    && s'.numOutstanding == s.numOutstanding && s'.created == s.created && s'.readied == s.readied
  }

  lemma ReportSame(c: Client, s: State, t: KeyID, value: Value, force: bool, found: seq<Delivery>)
    requires CanReport(s, t)
    ensures Reported(s, TaskIsComplete(c, s, t, value, force, found), t)
  {
    hide Discovered;
  }

  lemma ReportFrames(s: State, s': State, t: KeyID)
    requires CanReport(s, t) && Reported(s, s', t)
    ensures ScanStable(s, s', t) && InProgress(s, t) && InProgress(s', t) && !Scanning(s, t) && !Scanning(s', t)
    ensures !Verdict(s', t) && IsScanned(s', t) && !CompleteNow(s, t)
  {
  }

  lemma ReportShape(s: State, s': State, t: KeyID)
    requires Shape(s) && CanReport(s, t) && Reported(s, s', t)
    ensures Shape(s')
  {
  }

  lemma ReportTimes(s: State, s': State, t: KeyID)
    requires TimesOk(s) && CanReport(s, t) && Reported(s, s', t)
    ensures TimesOk(s')
  {
  }

  lemma ReportRequests(s: State, s': State, t: KeyID)
    requires RequestsOk(s) && CountsOk(s) && QueuesOk(s) && CanReport(s, t) && Reported(s, s', t)
    ensures RequestsOk(s')
  {
    hide Live, Answerable, Only, CountsOk;
    assert s.tasks[t].waitCount == 0;
    NothingLeft(s, t);
    forall r: InputRequest | Live(s, r) && r.task != Some(t) ensures Live(s', r) { LiveOther(s, s', t, r); }
    forall r: InputRequest | Answerable(s, r) ensures Answerable(s', r) { AnswerableFrame(s, s', t, r); }
  }

  lemma SamePlaces(s: State, s': State, x: KeyID)
    requires s'.requestedBy == s.requestedBy && s'.paused == s.paused && s'.inputRequests == s.inputRequests
    requires s'.curInput == s.curInput && s'.finishedInputRequests == s.finishedInputRequests
    ensures Queued(s', x) == Queued(s, x) && Awaited(s', x) == Awaited(s, x)
  {
  }

  lemma TallyDiscovered(task: TaskInfo, found: seq<Dependency>, q: multiset<nat>, a: multiset<nat>)
    requires Tally(task, q, a)
    ensures Tally(task.(discovered := found), q, a)
  {
  }

  lemma ReportCounts(s: State, s': State, t: KeyID)
    requires CountsOk(s) && CanReport(s, t) && Reported(s, s', t)
    ensures CountsOk(s')
  {
    hide Only, Queued, Awaited, Tally;
    forall x | x in s'.tasks ensures Counted(s', x) {
      assert Counted(s, x);
      SamePlaces(s, s', x);
      if x == t { TallyDiscovered(s.tasks[t], s'.tasks[t].discovered, Queued(s, t), Awaited(s, t)); }
    }
  }

  lemma ReportTasks(s: State, s': State, t: KeyID)
    requires TasksOk(s) && CanReport(s, t) && Reported(s, s', t)
    ensures TasksOk(s')
  {
    hide Causal;
    assert Causal(s'.tasks[t]) by { CausalDiscovered(s.tasks[t], s'.tasks[t].discovered); }
  }

  lemma CausalDiscovered(task: TaskInfo, found: seq<Dependency>)
    requires Causal(task)
    ensures Causal(task.(discovered := found))
  {
  }

  lemma NoDuplicatesAppend(xs: seq<KeyID>, t: KeyID)
    requires NoDuplicates(xs) && t !in xs
    ensures NoDuplicates(xs + [t])
  {
  }

  lemma ReportQueues(s: State, s': State, t: KeyID)
    requires QueuesOk(s) && CanReport(s, t) && Reported(s, s', t)
    ensures QueuesOk(s')
  {
    hide NoDuplicates;
    NoDuplicatesAppend(s.finishedTaskInfos, t);
    assert ComputingSet(s') == ComputingSet(s);
  }

  lemma ReportOwed(s: State, s': State, t: KeyID)
    requires OwedOk(s) && CanReport(s, t) && Reported(s, s', t)
    ensures OwedOk(s')
  {
    forall d | PendingDummy(s, d) ensures PendingDummy(s', d) {}
  }

  lemma ReportDemands(s: State, s': State, t: KeyID)
    requires DemandsOk(s) && CanReport(s, t) && Reported(s, s', t)
    ensures DemandsOk(s')
  {
    forall x | Demander(s, x) ensures Demander(s', x) {}
  }

  lemma ReportVerdict(c: Client, s: State, s': State, t: KeyID)
    requires CanReport(s, t) && Reported(s, s', t)
    ensures VerdictOk(c, s', t) && Only(s, s', t) && SameScans(s, s')
  {
  }

  lemma ReportKeeps(c: Client, s: State, s': State, t: KeyID)
    requires Inv(c, s) && CanReport(s, t) && t in s.tasks && Reported(s, s', t)
    ensures Inv(c, s') && Keeps(s, s')
  {
    hide *;
    Unpack(c, s);
    ReportFrames(s, s', t);
    ReportVerdict(c, s, s', t);
    KeepsFrame(s, s', t);
    ReportShape(s, s', t);
    ReportTimes(s, s', t);
    ReportRequests(s, s', t);
    ReportCounts(s, s', t);
    ReportTasks(s, s', t);
    ReportQueues(s, s', t);
    ScansFrame(c, s, s', t);
    OwnersFrame(s, s', t);
    VerdictsFrame(c, s, s', t);
    ReportOwed(s, s', t);
    ReportDemands(s, s', t);
    Pack(c, s');
  }

  lemma CanReportNow(c: Client, s: State, t: KeyID)
    requires Inv(c, s) && Computing(s, t) && t !in s.finishedTaskInfos
    ensures CanReport(s, t)
  {
    hide RequestsOk, CountsOk, TasksOk, OwnersOk, ScansOk, VerdictsOk, OwedOk, DemandsOk, QueuesOk;
    var _ := Info(s, t);
  }

  /** A task's report keeps the invariant. */
  lemma TaskIsCompleteKeeps(c: Client, s: State, t: KeyID, value: Value, force: bool, found: seq<Delivery>)
    requires Inv(c, s) && Computing(s, t) && t !in s.finishedTaskInfos
    ensures var s' := TaskIsComplete(c, s, t, value, force, found); Inv(c, s') && Keeps(s, s')
  {
    hide Inv, TaskIsComplete, Keeps, Reported;
    CanReportNow(c, s, t);
    ReportSame(c, s, t, value, force, found);
    ReportKeeps(c, s, TaskIsComplete(c, s, t, value, force, found), t);
  }

  // ---- Finish ---------------------------------------------------------------------------------

  ghost predicate CanFinishTask(s: State, t: KeyID) {
    s.finishedTaskInfos != [] && t == Last(s.finishedTaskInfos) && t in s.tasks && Computing(s, t)
  }

  /** The engine has processed the report of `t`, except for what it now owes. */
  ghost predicate Finished(s: State, s': State, t: KeyID)
    requires t in s.tasks
  {
    && Only(s, s', t) && CompleteNow(s', t) && Info(s', t).wasForced == Info(s, t).wasForced
    && s'.tasks == s.tasks - {t}
    && s'.requestedBy == s.requestedBy - {t} && s'.taskDeferred == s.taskDeferred - {t}
    && s'.ruleInfosToScan == s.ruleInfosToScan + At(s.taskDeferred, t)
    && s'.curScan == s.curScan && s'.deferred == s.deferred && s'.paused == s.paused
    && s'.inputRequests == s.inputRequests + Dummies(s.tasks[t].discovered)
    && s'.curInput == s.curInput
    && s'.finishedInputRequests == s.finishedInputRequests + At(s.requestedBy, t)
    && s.finishedTaskInfos == s'.finishedTaskInfos + [t]
    && s'.readyTaskInfos == s.readyTaskInfos && s'.created == s.created && s'.readied == s.readied
    && s'.numOutstanding == s.numOutstanding - 1
    && s'.db.Keys == s.db.Keys + {t} && s'.db[t] == Info(s', t).result
    && (forall k :: k in s.db && k != t ==> s'.db[k] == s.db[k])
  }

  lemma FinishSame(s: State, t: KeyID)
    requires CanFinishTask(s, t)
    ensures Finished(s, FinishOne(s).(owed := s.owed), t)
  {
    hide Dummies, KeysOf;
  }

  lemma FinishTaskFrames(c: Client, s: State, s': State, t: KeyID)
    requires CanFinishTask(s, t) && Finished(s, s', t)
    ensures ScanStable(s, s', t) && !CompleteNow(s, t) && Only(s, s', t) && VerdictOk(c, s', t)
  {
  }

  lemma FinishTaskShape(s: State, s': State, t: KeyID)
    requires Shape(s) && CanFinishTask(s, t) && Finished(s, s', t)
    ensures Shape(s')
  {
    hide Dummies;
  }

  lemma FinishTaskTimes(s: State, s': State, t: KeyID)
    requires TimesOk(s) && CanFinishTask(s, t) && Finished(s, s', t)
    ensures TimesOk(s')
  {
    hide Dummies;
  }

  lemma FinishTaskRequests(s: State, s': State, t: KeyID)
    requires RequestsOk(s) && CountsOk(s) && QueuesOk(s) && CanFinishTask(s, t) && Finished(s, s', t)
    ensures RequestsOk(s')
  {
    hide Only, CountsOk, QueuesOk, Live, Answerable;
    assert s.tasks[t].waitCount == 0 by { ComputingWaitsForNothing(s, t); }
    NothingLeft(s, t);
    forall r: InputRequest | Live(s, r) && r.task != Some(t) ensures Live(s', r) { LiveOther(s, s', t, r); }
    forall r: InputRequest | Answerable(s, r) ensures Answerable(s', r) { AnswerableFrame(s, s', t, r); }
    forall r: InputRequest | r.task.Some? && r.input == t ensures Answerable(s', r) { AnswerableNow(s', t, r); }
    forall r: InputRequest | r.task.None? ensures Live(s', r) { LiveDummy(s', r); }
  }

  lemma AnswerableNow(s: State, t: KeyID, r: InputRequest)
    requires CompleteNow(s, t) && r.task.Some? && r.input == t
    ensures Answerable(s, r)
  {
  }

  lemma LiveDummy(s: State, r: InputRequest)
    requires r.task.None?
    ensures Live(s, r)
  {
  }

  lemma ComputingWaitsForNothing(s: State, t: KeyID)
    requires QueuesOk(s) && t in s.tasks && Computing(s, t)
    ensures s.tasks[t].waitCount == 0
  {
    hide NoDuplicates, ComputingSet;
  }

  lemma FinishTaskPlaces(s: State, s': State, t: KeyID, x: KeyID)
    requires CanFinishTask(s, t) && Finished(s, s', t)
    ensures Queued(s', x) == Queued(s, x) && Awaited(s', x) == Awaited(s, x)
  {
    hide Only, Ids, FlatIds;
    IdsConcat(s.inputRequests, Dummies(s.tasks[t].discovered), x);
    IdsNone(Dummies(s.tasks[t].discovered), x);
    IdsConcat(s.finishedInputRequests, At(s.requestedBy, t), x);
    FlatIdsDrop(s.requestedBy, x, t);
  }

  lemma FinishTaskCounts(s: State, s': State, t: KeyID)
    requires CountsOk(s) && CanFinishTask(s, t) && Finished(s, s', t)
    ensures CountsOk(s')
  {
    hide Only, Queued, Awaited, Tally, Dummies;
    forall x | x in s'.tasks ensures Counted(s', x) {
      assert Counted(s, x);
      FinishTaskPlaces(s, s', t, x);
    }
  }

  lemma FinishTaskTasks(s: State, s': State, t: KeyID)
    requires TasksOk(s) && CanFinishTask(s, t) && Finished(s, s', t)
    ensures TasksOk(s')
  {
    hide RecordsAsked, Causal, Dummies;
  }

  lemma NoDuplicatesFront(xs: seq<KeyID>, t: KeyID, ys: seq<KeyID>)
    requires NoDuplicates(xs) && xs == ys + [t]
    ensures NoDuplicates(ys) && t !in ys && forall x :: x in ys <==> x in xs && x != t
  {
    forall i, j | 0 <= i < j < |ys| ensures ys[i] != ys[j] { assert xs[i] != xs[j]; }
    forall i | 0 <= i < |ys| ensures ys[i] != t { assert xs[i] != xs[|ys|]; }
  }

  lemma FinishTaskComputing(s: State, s': State, t: KeyID)
    requires CanFinishTask(s, t) && Finished(s, s', t)
    ensures |ComputingSet(s')| == |ComputingSet(s)| - 1
  {
    hide Dummies, CompleteNow, SameScans;
    forall x ensures x in ComputingSet(s') <==> x in ComputingSet(s) - {t} {
      if x != t { assert Info(s', x) == Info(s, x); }
    }
    assert ComputingSet(s') == ComputingSet(s) - {t};
    assert t in ComputingSet(s);
  }

  lemma FinishTaskQueues(s: State, s': State, t: KeyID)
    requires QueuesOk(s) && CanFinishTask(s, t) && Finished(s, s', t)
    ensures QueuesOk(s')
  {
    hide NoDuplicates, Dummies, ComputingSet;
    NoDuplicatesFront(s.finishedTaskInfos, t, s'.finishedTaskInfos);
    FinishTaskComputing(s, s', t);
  }

  lemma FinishTaskScans(c: Client, s: State, s': State, t: KeyID)
    requires ScansOk(c, s) && CanFinishTask(s, t) && Finished(s, s', t)
    ensures ScansOk(c, s')
  {
    hide Only, ScanOk, Dummies, CompleteNow, Info;
    FinishTaskFrames(c, s, s', t);
    forall r: ScanRequest | ScanOk(c, s, r) ensures ScanOk(c, s', r) { ScanFrame(c, s, s', t, r); }
  }

  lemma FinishTaskOwners(c: Client, s: State, s': State, t: KeyID)
    requires OwnersOk(s) && CanFinishTask(s, t) && Finished(s, s', t)
    ensures OwnersOk(s')
  {
    hide Owners, FlatOwners, Dummies;
    FinishTaskFrames(c, s, s', t);
    OwnersConcat(s.ruleInfosToScan, At(s.taskDeferred, t));
    FlatOwnersDrop(s.taskDeferred, t);
    assert AllOwners(s') == AllOwners(s);
  }

  lemma FinishTaskOwed(s: State, s': State, t: KeyID)
    requires OwedOk(s) && CanFinishTask(s, t) && Finished(s, s', t)
    ensures OwedOk(s')
  {
    hide Dummies;
    forall d | PendingDummy(s, d) ensures PendingDummy(s', d) {}
  }

  lemma FinishTaskDemands(c: Client, s: State, s': State, t: KeyID)
    requires DemandsOk(s) && ScansOk(c, s) && Shape(s) && CanFinishTask(s, t) && Finished(s, s', t)
    ensures DemandsOk(s')
  {
    hide Dummies, ScanOk;
    assert t in s.taskDeferred;
    forall x | Demander(s, x) ensures Demander(s', x) {}
  }

  lemma FinishTaskKeeps(c: Client, s: State, s': State, t: KeyID)
    requires Inv(c, s) && CanFinishTask(s, t) && t in s.tasks && Finished(s, s', t)
    ensures Inv(c, s') && Keeps(s, s')
  {
    hide *;
    Unpack(c, s);
    FinishTaskFrames(c, s, s', t);
    KeepsFrame(s, s', t);
    FinishTaskShape(s, s', t);
    FinishTaskTimes(s, s', t);
    FinishTaskRequests(s, s', t);
    FinishTaskCounts(s, s', t);
    FinishTaskTasks(s, s', t);
    FinishTaskQueues(s, s', t);
    FinishTaskScans(c, s, s', t);
    FinishTaskOwners(c, s, s', t);
    VerdictsFrame(c, s, s', t);
    FinishTaskOwed(s, s', t);
    FinishTaskDemands(c, s, s', t);
    Pack(c, s');
  }

  // ---- Notes ------------------------------------------------------------------------------------

  /** Only the record of what is owed changes, and whether a cycle was broken. */
  ghost predicate Noted(s: State, s': State) {
    s' == s.(owed := s'.owed, broken := s'.broken) && (s.broken ==> s'.broken)
  }

  lemma NotedInfo(s: State, s': State)
    requires Noted(s, s')
    ensures forall k :: Info(s', k) == Info(s, k)
  {
  }

  lemma NotedShape(s: State, s': State)
    requires Noted(s, s') && Shape(s) && TimesOk(s)
    ensures Shape(s') && TimesOk(s') && Keeps(s, s')
  {
    NotedInfo(s, s');
  }

  lemma NotedRequests(s: State, s': State)
    requires Noted(s, s') && RequestsOk(s)
    ensures RequestsOk(s')
  {
    hide Live, Answerable;
    forall r: InputRequest | Live(s, r) ensures Live(s', r) { NotedLive(s, s', r); }
    forall r: InputRequest | Answerable(s, r) ensures Answerable(s', r) { NotedAnswerable(s, s', r); }
  }

  lemma NotedLive(s: State, s': State, r: InputRequest)
    requires Noted(s, s') && Live(s, r)
    ensures Live(s', r)
  {
    NotedInfo(s, s');
  }

  lemma NotedAnswerable(s: State, s': State, r: InputRequest)
    requires Noted(s, s') && Answerable(s, r)
    ensures Answerable(s', r)
  {
    NotedInfo(s, s');
  }

  lemma NotedCounts(s: State, s': State)
    requires Noted(s, s') && CountsOk(s)
    ensures CountsOk(s')
  {
    hide Queued, Awaited, Tally;
    forall x | x in s'.tasks ensures Counted(s', x) {
      assert Counted(s, x);
      SamePlaces(s, s', x);
    }
  }

  lemma NotedTasks(s: State, s': State)
    requires Noted(s, s') && TasksOk(s)
    ensures TasksOk(s')
  {
    hide RecordsAsked, Causal;
    NotedInfo(s, s');
  }

  lemma NotedQueues(s: State, s': State)
    requires Noted(s, s') && QueuesOk(s)
    ensures QueuesOk(s')
  {
    hide NoDuplicates;
    NotedInfo(s, s');
    assert ComputingSet(s') == ComputingSet(s);
  }

  lemma NotedScan(c: Client, s: State, s': State, r: ScanRequest)
    requires Noted(s, s') && ScanOk(c, s, r)
    ensures ScanOk(c, s', r)
  {
    NotedInfo(s, s');
    if Scanning(s, r.rule) && r.needsToRun { NotedOutOfDate(c, s, s', r.rule); }
  }

  lemma NotedOutOfDate(c: Client, s: State, s': State, k: KeyID)
    requires Noted(s, s') && OutOfDate(c, s, k)
    ensures OutOfDate(c, s', k)
  {
    NotedInfo(s, s');
    if Matches(c, s, k) {
      var d :| d in Info(s, k).result.dependencies && Newer(s, k, d);
      assert Newer(s', k, d);
    }
  }

  lemma NotedScans(c: Client, s: State, s': State)
    requires Noted(s, s') && ScansOk(c, s) && OwnersOk(s)
    ensures ScansOk(c, s') && OwnersOk(s')
  {
    hide ScanOk, Owners, FlatOwners;
    NotedInfo(s, s');
    assert AllOwners(s') == AllOwners(s);
    forall r: ScanRequest | ScanOk(c, s, r) ensures ScanOk(c, s', r) { NotedScan(c, s, s', r); }
  }

  lemma NotedVerdict(c: Client, s: State, s': State, k: KeyID)
    requires Noted(s, s') && VerdictOk(c, s, k)
    ensures VerdictOk(c, s', k)
  {
    hide Stands;
    NotedInfo(s, s');
    if OutOfDate(c, s, k) { NotedOutOfDate(c, s, s', k); }
  }

  lemma NotedVerdicts(c: Client, s: State, s': State)
    requires Noted(s, s') && VerdictsOk(c, s)
    ensures VerdictsOk(c, s')
  {
    hide VerdictOk;
    if s.tidy {
      forall k ensures VerdictOk(c, s', k) {
        assert VerdictOk(c, s, k);
        NotedVerdict(c, s, s', k);
      }
    }
  }

  lemma NotedDemands(s: State, s': State)
    requires Noted(s, s') && DemandsOk(s)
    ensures DemandsOk(s')
  {
    NotedInfo(s, s');
    forall x | Demander(s, x) ensures Demander(s', x) {}
  }

  lemma NotedKeeps(c: Client, s: State, s': State)
    requires Inv(c, s) && Noted(s, s') && OwedOk(s')
    ensures Inv(c, s') && Keeps(s, s')
  {
    hide *;
    Unpack(c, s);
    NotedShape(s, s');
    NotedRequests(s, s');
    NotedCounts(s, s');
    NotedTasks(s, s');
    NotedQueues(s, s');
    NotedScans(c, s, s');
    NotedVerdicts(c, s, s');
    NotedDemands(s, s');
    Pack(c, s');
  }

  lemma CanFinishNow(c: Client, s: State)
    requires Inv(c, s) && s.finishedTaskInfos != []
    ensures CanFinishTask(s, Last(s.finishedTaskInfos))
  {
    hide TimesOk, RequestsOk, CountsOk, TasksOk, OwnersOk, ScansOk, VerdictsOk, OwedOk, DemandsOk, NoDuplicates;
    var t := Last(s.finishedTaskInfos);
    assert t in s.finishedTaskInfos;
    var _ := Info(s, t);
  }

  /** A dummy request is queued for each discovered dependency. */
  lemma FinishOwes(s: State, t: KeyID)
    requires CanFinishTask(s, t) && OwedOk(FinishOne(s).(owed := s.owed))
    ensures OwedOk(FinishOne(s))
  {
    var s1 := FinishOne(s).(owed := s.owed);
    var s' := FinishOne(s);
    var found := s.tasks[t].discovered;
    forall d | d in s'.owed ensures CompleteNow(s', d) || InProgress(s', d) || PendingDummy(s', d) {
      if d in KeysOf(found) {
        DummyQueued(found, d);
        var r :| r in Dummies(found) && r.task.None? && r.input == d;
        assert r in s'.inputRequests;
      } else {
        assert CompleteNow(s1, d) || InProgress(s1, d) || PendingDummy(s1, d);
      }
    }
  }

  lemma DummyQueued(found: seq<Dependency>, d: KeyID)
    requires d in KeysOf(found)
    ensures exists r :: r in Dummies(found) && r.task.None? && r.input == d
  {
    var i :| 0 <= i < |found| && found[i].key == d;
    assert Dummies(found)[i] in Dummies(found);
  }

  /** Processing a finished task keeps the invariant. */
  lemma FinishOneKeeps(c: Client, s: State)
    requires Inv(c, s) && s.finishedTaskInfos != []
    ensures Inv(c, FinishOne(s)) && Keeps(s, FinishOne(s))
  {
    hide Inv, FinishOne, Keeps, Finished, CanFinishTask, OwedOk;
    var t := Last(s.finishedTaskInfos);
    CanFinishNow(c, s);
    assert t in s.tasks by { CanFinishMeans(s, t); }
    FinishSame(s, t);
    var s1 := FinishOne(s).(owed := s.owed);
    FinishTaskKeeps(c, s, s1, t);
    assert OwedOk(s1) by { Unpack(c, s1); }
    FinishOwes(s, t);
    assert Noted(s1, FinishOne(s));
    NotedKeeps(c, s1, FinishOne(s));
    KeepsTrans(s, s1, FinishOne(s));
  }

  lemma CanFinishMeans(s: State, t: KeyID)
    requires CanFinishTask(s, t)
    ensures t in s.tasks
  {
  }
}
