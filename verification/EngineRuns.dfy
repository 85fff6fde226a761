/** Breaking cycles, cancelling, and starting builds keep the invariant; so it holds in every
    state of every run. */
module EngineRuns {
  import opened Options
  import opened EngineState
  import opened EngineSteps
  import opened EngineCounts
  import opened EngineInvariant
  import opened EngineFrames
  import opened EngineRules
  import opened EngineDemand
  import opened EngineScanning
  import opened EngineInputs
  import opened EngineDelivery
  import opened EngineCompletion

  // ---- Noting that a cycle was broken ---------------------------------------------------------

  lemma BrokenOwed(s: State)
    requires OwedOk(s)
    ensures OwedOk(s.(broken := true))
  {
    forall d | PendingDummy(s, d) ensures PendingDummy(s.(broken := true), d) {}
  }

  lemma BrokenKeeps(c: Client, s: State)
    requires Inv(c, s)
    ensures Inv(c, s.(broken := true)) && Keeps(s, s.(broken := true))
  {
    hide Inv, Keeps, OwedOk;
    assert OwedOk(s) by { Unpack(c, s); }
    BrokenOwed(s);
    NotedKeeps(c, s, s.(broken := true));
  }

  // ---- Forcing a rule ----------------------------------------------------------------------------

  ghost predicate CanForce(s: State, k: KeyID) {
    Scanning(s, k) && s.broken && Info(s, k).result.builtAt < s.epoch && k !in s.tasks && s.curScan == [] && s.curInput == []
  }

  /** The scan of `k` has been cut short, and `k` has to run. */
  ghost predicate Forced(s: State, s': State, k: KeyID) {
    && Only(s, s', k) && Info(s', k) == RuleInfo(NeedsToRun, Info(s, k).result, true)
    && s'.tasks == s.tasks && SameQueues(s, s') && s'.db == s.db
    && s'.requestedBy == s.requestedBy && s'.taskDeferred == s.taskDeferred
    && s'.curScan == s.curScan && s'.curInput == s.curInput && s'.finishedInputRequests == s.finishedInputRequests
    && s'.ruleInfosToScan == s.ruleInfosToScan + At(s.deferred, k) && s'.deferred == s.deferred - {k}
    && s'.inputRequests == s.inputRequests + At(s.paused, k) && s'.paused == s.paused - {k}
  }

  lemma ForceSame(s: State, k: KeyID)
    requires Idle(s) && Scanning(s, k)
    ensures Forced(s.(broken := true), ForceBuild(s, k), k)
  {
    assert WithoutScansOf(s.ruleInfosToScan, k) == [];
  }

  lemma ForceShape(s: State, s': State, k: KeyID)
    requires Shape(s) && TimesOk(s) && CanForce(s, k) && Forced(s, s', k)
    ensures Shape(s') && TimesOk(s')
  {
  }

  lemma ForceRequests(s: State, s': State, k: KeyID)
    requires RequestsOk(s) && CanForce(s, k) && Forced(s, s', k)
    ensures RequestsOk(s')
  {
    hide Live, Answerable, Only, CanForce;
    assert k !in s.tasks by { var _ := CanForce(s, k); ForceMeans(s, k); }
    forall q: InputRequest | Live(s, q) ensures Live(s', q) { LiveFrame(s, s', k, q); }
    forall q: InputRequest | Answerable(s, q) ensures Answerable(s', q) { AnswerableFrame(s, s', k, q); }
  }

  lemma ForceMeans(s: State, k: KeyID)
    requires CanForce(s, k)
    ensures k !in s.tasks && !InProgress(s, k)
  {
  }

  lemma ForceCounts(s: State, s': State, k: KeyID)
    requires CountsOk(s) && Forced(s, s', k)
    ensures CountsOk(s')
  {
    hide Ids, FlatIds, Tally, Only;
    forall t | t in s'.tasks ensures Counted(s', t) {
      assert Counted(s, t);
      IdsConcat(s.inputRequests, At(s.paused, k), t);
      FlatIdsDrop(s.paused, t, k);
      assert Queued(s', t) == Queued(s, t) && Awaited(s', t) == Awaited(s, t);
    }
  }

  lemma ForceScans(c: Client, s: State, s': State, k: KeyID)
    requires ScansOk(c, s) && CanForce(s, k) && Forced(s, s', k)
    ensures ScansOk(c, s')
  {
    hide ScanOk, Only;
    forall q: ScanRequest | ScanOk(c, s, q) ensures ScanOk(c, s', q) { ForceScan(c, s, s', k, q); }
  }

  lemma ForceScan(c: Client, s: State, s': State, k: KeyID, q: ScanRequest)
    requires ScanOk(c, s, q) && CanForce(s, k) && Forced(s, s', k)
    ensures ScanOk(c, s', q)
  {
    hide Scanned;
    if q.rule != k { ScanFrame(c, s, s', k, q); }
  }

  lemma ForceOwners(s: State, s': State, k: KeyID)
    requires OwnersOk(s) && CanForce(s, k) && Forced(s, s', k)
    ensures OwnersOk(s')
  {
    hide Owners, FlatOwners;
    OwnersConcat(s.ruleInfosToScan, At(s.deferred, k));
    FlatOwnersDrop(s.deferred, k);
    assert AllOwners(s') == AllOwners(s);
  }

  lemma ForceOwed(s: State, s': State, k: KeyID)
    requires OwedOk(s) && CanForce(s, k) && Forced(s, s', k)
    ensures OwedOk(s')
  {
    forall d | PendingDummy(s, d) ensures PendingDummy(s', d) {}
  }

  lemma ForceDemands(c: Client, s: State, s': State, k: KeyID)
    requires DemandsOk(s) && ScansOk(c, s) && Shape(s) && CanForce(s, k) && Forced(s, s', k)
    ensures DemandsOk(s')
  {
    hide ScanOk;
    assert k in s.deferred;
  }

  lemma ForceFrames(c: Client, s: State, s': State, k: KeyID)
    requires CanForce(s, k) && Forced(s, s', k)
    ensures Only(s, s', k) && VerdictOk(c, s', k) && k !in s.tasks && !InProgress(s, k) && !InProgress(s', k)
    ensures s'.tasks == s.tasks && SameQueues(s, s')
  {
  }

  lemma ForcedKeeps(c: Client, s: State, s': State, k: KeyID)
    requires Inv(c, s) && CanForce(s, k) && Forced(s, s', k)
    ensures Inv(c, s') && Keeps(s, s')
  {
    hide *;
    Unpack(c, s);
    ForceFrames(c, s, s', k);
    KeepsFrame(s, s', k);
    ForceShape(s, s', k);
    ForceRequests(s, s', k);
    ForceCounts(s, s', k);
    TasksFrame(s, s', k);
    QueuesFrame(s, s', k);
    ForceScans(c, s, s', k);
    ForceOwners(s, s', k);
    VerdictsFrame(c, s, s', k);
    ForceOwed(s, s', k);
    ForceDemands(c, s, s', k);
    Pack(c, s');
  }

  lemma CanForceNow(c: Client, s: State, k: KeyID)
    requires Inv(c, s) && s.building && Idle(s) && Scanning(s, k)
    ensures CanForce(s.(broken := true), k)
  {
    hide RequestsOk, CountsOk, TasksOk, QueuesOk, OwnersOk, ScansOk, VerdictsOk, OwedOk, DemandsOk;
    var _ := Info(s, k);
  }

  /** Breaking a cycle by forcing a rule keeps the invariant. */
  lemma ForceBuildKeeps(c: Client, s: State, k: KeyID)
    requires Inv(c, s) && s.building && Idle(s) && Scanning(s, k)
    ensures Inv(c, ForceBuild(s, k)) && Keeps(s, ForceBuild(s, k))
  {
    hide Inv, Keeps, ForceBuild, Forced, CanForce, Idle, Scanning;
    BrokenKeeps(c, s);
    CanForceNow(c, s, k);
    ForceSame(s, k);
    ForcedKeeps(c, s.(broken := true), ForceBuild(s, k), k);
    KeepsTrans(s, s.(broken := true), ForceBuild(s, k));
  }

  // ---- Supplying a prior value ----------------------------------------------------------------------

  ghost predicate CanSupply(s: State, k: KeyID, i: nat) {
    s.broken && k in s.requestedBy && i < |s.requestedBy[k]|
  }

  ghost predicate Supplied(s: State, s': State, k: KeyID, i: nat)
    requires CanSupply(s, k, i)
  {
    var rs := s.requestedBy[k];
    s' == s.(requestedBy := s.requestedBy[k := rs[..i] + rs[i + 1..]],
             finishedInputRequests := s.finishedInputRequests + [rs[i].(forcePriorValue := true)])
  }

  lemma SupplySame(s: State, k: KeyID, i: nat)
    requires i < |At(s.requestedBy, k)|
    ensures CanSupply(s.(broken := true), k, i) && Supplied(s.(broken := true), SupplyPriorValue(s, k, i), k, i)
  {
  }

  lemma SuppliedOnly(s: State, s': State, k: KeyID, i: nat)
    requires CanSupply(s, k, i) && Supplied(s, s', k, i)
    ensures Only(s, s', 0) && Info(s', 0) == Info(s, 0) && SameScans(s, s') && SameQueues(s, s') && s'.db == s.db && s'.tasks == s.tasks
    ensures ScanStable(s, s', 0)
    ensures s'.inputRequests == s.inputRequests && s'.curInput == s.curInput && s'.paused == s.paused
    ensures s'.requestedBy.Keys == s.requestedBy.Keys
    ensures InProgress(s, 0) ==> InProgress(s', 0)
  {
  }

  lemma SuppliedShape(s: State, s': State, k: KeyID, i: nat)
    requires CanSupply(s, k, i) && Supplied(s, s', k, i) && Shape(s)
    ensures Shape(s')
  {
    SuppliedOnly(s, s', k, i);
  }

  lemma SuppliedLive(s: State, s': State, k: KeyID, i: nat, r: InputRequest)
    requires CanSupply(s, k, i) && Supplied(s, s', k, i) && Live(s, r)
    ensures Live(s', r) && Live(s', r.(forcePriorValue := true))
  {
    SuppliedOnly(s, s', k, i);
  }

  lemma SuppliedRequests(s: State, s': State, k: KeyID, i: nat)
    requires CanSupply(s, k, i) && Supplied(s, s', k, i) && RequestsOk(s)
    ensures RequestsOk(s')
  {
    hide Live, Answerable;
    SuppliedOnly(s, s', k, i);
    var r := s.requestedBy[k][i];
    forall q: InputRequest | Live(s, q) ensures Live(s', q) { SuppliedLive(s, s', k, i, q); }
    forall q: InputRequest | Answerable(s, q) ensures Answerable(s', q) { AnswerableFrame(s, s', 0, q); }
    assert r in s.requestedBy[k];
    SuppliedLive(s, s', k, i, r);
    assert Answerable(s', r.(forcePriorValue := true)) by { PriorAnswers(s', r); }
  }

  lemma PriorAnswers(s: State, r: InputRequest)
    requires s.broken && r.task.Some?
    ensures Answerable(s, r.(forcePriorValue := true))
  {
  }

  lemma SuppliedPlaces(s: State, s': State, k: KeyID, i: nat, t: KeyID)
    requires CanSupply(s, k, i) && Supplied(s, s', k, i)
    ensures Queued(s', t) == Queued(s, t) && Awaited(s', t) == Awaited(s, t)
  {
    hide Ids, FlatIds;
    var rs := s.requestedBy[k];
    var r := rs[i].(forcePriorValue := true);
    FlatIdsRemove(s.requestedBy, t, k);
    FlatIdsUpdate(s.requestedBy, t, k, rs[..i] + rs[i + 1..]);
    assert rs == (rs[..i] + [rs[i]]) + rs[i + 1..];
    IdsConcat(rs[..i] + [rs[i]], rs[i + 1..], t);
    IdsAppend(rs[..i], rs[i], t);
    IdsConcat(rs[..i], rs[i + 1..], t);
    IdsAppend(s.finishedInputRequests, r, t);
  }

  lemma SuppliedCounts(s: State, s': State, k: KeyID, i: nat)
    requires CanSupply(s, k, i) && Supplied(s, s', k, i) && CountsOk(s)
    ensures CountsOk(s')
  {
    hide Queued, Awaited, Tally;
    forall t | t in s'.tasks ensures Counted(s', t) {
      assert Counted(s, t);
      SuppliedPlaces(s, s', k, i, t);
    }
  }

  lemma SuppliedOwed(s: State, s': State, k: KeyID, i: nat)
    requires CanSupply(s, k, i) && Supplied(s, s', k, i) && OwedOk(s)
    ensures OwedOk(s')
  {
    SuppliedOnly(s, s', k, i);
    forall d | PendingDummy(s, d) ensures PendingDummy(s', d) {}
  }

  lemma SuppliedDemands(s: State, s': State, k: KeyID, i: nat)
    requires CanSupply(s, k, i) && Supplied(s, s', k, i) && DemandsOk(s)
    ensures DemandsOk(s')
  {
    SuppliedOnly(s, s', k, i);
  }

  lemma SuppliedKeeps(c: Client, s: State, s': State, k: KeyID, i: nat)
    requires Inv(c, s) && CanSupply(s, k, i) && Supplied(s, s', k, i)
    ensures Inv(c, s') && Keeps(s, s')
  {
    hide *;
    Unpack(c, s);
    SuppliedOnly(s, s', k, i);
    KeepsFrame(s, s', 0);
    SuppliedShape(s, s', k, i);
    TimesFrame(s, s', 0);
    SuppliedRequests(s, s', k, i);
    SuppliedCounts(s, s', k, i);
    TasksFrame(s, s', 0);
    QueuesFrame(s, s', 0);
    ScansFrame(c, s, s', 0);
    OwnersFrame(s, s', 0);
    VerdictsMove(c, s, s');
    SuppliedOwed(s, s', k, i);
    SuppliedDemands(s, s', k, i);
    Pack(c, s');
  }

  /** Breaking a cycle by supplying a prior value keeps the invariant. */
  lemma SupplyPriorValueKeeps(c: Client, s: State, k: KeyID, i: nat)
    requires Inv(c, s) && i < |At(s.requestedBy, k)|
    ensures Inv(c, SupplyPriorValue(s, k, i)) && Keeps(s, SupplyPriorValue(s, k, i))
  {
    hide Inv, Keeps, SupplyPriorValue, CanSupply, Supplied;
    BrokenKeeps(c, s);
    SupplySame(s, k, i);
    SuppliedKeeps(c, s.(broken := true), SupplyPriorValue(s, k, i), k, i);
    KeepsTrans(s, s.(broken := true), SupplyPriorValue(s, k, i));
  }

  // ---- Between builds -----------------------------------------------------------------------------

  /** No rule is half-way through anything. */
  ghost predicate AtRest(s: State) {
    forall k :: var p := Info(s, k).phase; p.Incomplete? || p.Complete? || (!s.tidy && (p.NeedsToRun? || p.DoesNotNeedToRun?))
  }

  /** A state with nothing in flight satisfies the invariant if no rule is half-way and the
      times are right. */
  lemma RestInv(c: Client, s: State)
    requires Quiet(s) && TimesOk(s) && AtRest(s) && s.created == [] && s.readied == [] && s.owed == {}
    ensures Inv(c, s)
  {
    hide TimesOk;
    assert ComputingSet(s) == {};
    assert AllOwners(s) == multiset{};
    assert Shape(s);
  }

  lemma CancelRest(s: State)
    requires Shape(s)
    ensures forall k :: Info(Cancel(s), k).result == Info(s, k).result
    ensures AtRest(Cancel(s))
  {
    var s' := Cancel(s);
    forall k ensures Info(s', k).result == Info(s, k).result && !InProgress(s', k) && !Scanning(s', k) {
      var _ := Info(s, k);
    }
  }

  lemma CancelTimes(s: State)
    requires Shape(s) && TimesOk(s)
    ensures TimesOk(Cancel(s))
  {
    var s' := Cancel(s);
    CancelRest(s);
    forall k ensures Info(s, k).phase.Complete? ==> Info(s', k).phase.Complete? { var _ := Info(s, k); }
  }

  /** Cancelling a build keeps the invariant, and leaves nothing in flight. */
  lemma CancelKeeps(c: Client, s: State)
    requires Inv(c, s) && s.curScan == [] && s.curInput == []
    ensures Inv(c, Cancel(s)) && Quiet(Cancel(s))
  {
    hide Inv, Shape, TimesOk, AtRest;
    Unpack(c, s);
    CancelRest(s);
    CancelTimes(s);
    RestInv(c, Cancel(s));
  }

  lemma InitialInv(c: Client)
    ensures Inv(c, INITIAL) && Quiet(INITIAL)
  {
    RestInv(c, INITIAL);
  }

  lemma NewEngineKeeps(c: Client, s: State)
    requires Inv(c, s)
    ensures Inv(c, NewEngine(s)) && Quiet(NewEngine(s))
  {
    hide Shape, RequestsOk, CountsOk, TasksOk, QueuesOk, OwnersOk, ScansOk, VerdictsOk, OwedOk, DemandsOk, Inv;
    Unpack(c, s);
    RestInv(c, NewEngine(s));
  }

  /** A new epoch has begun; nothing has been asked for yet. */
  function NewEpoch(s: State): State {
    s.(epoch := s.epoch + 1, created := [], readied := [], owed := {}, broken := false, building := true,
       tidy := forall k :: k in s.rules ==> !Verdict(s, k))
  }

  lemma NewEpochRest(s: State)
    requires Quiet(s) && Shape(s) && TimesOk(s)
    ensures Quiet(NewEpoch(s)) && TimesOk(NewEpoch(s)) && AtRest(NewEpoch(s))
  {
    var s' := NewEpoch(s);
    forall k ensures Info(s', k) == Info(s, k) {}
    forall k ensures Info(s, k).phase.NeedsToRun? || Info(s, k).phase.DoesNotNeedToRun? ==> !s'.tidy {}
  }

  lemma AskFirst(c: Client, s: State, root: KeyID)
    requires Inv(c, s) && Quiet(s)
    ensures Inv(c, s.(inputRequests := [Dummy(Dependency(root, false, false))]))
  {
    var r := Dummy(Dependency(root, false, false));
    var s' := s.(inputRequests := [r]);
    InputsInfo(s, s');
    AskShape(c, s, s', r);
    AskDemands(c, s, s', r);
    hide Inv, InputsMove;
    InputsMoveKeeps(c, s, s');
  }

  lemma AskShape(c: Client, s: State, s': State, r: InputRequest)
    requires Inv(c, s) && Quiet(s) && r.task.None? && s' == s.(inputRequests := [r])
    ensures Shape(s') && RequestsOk(s') && CountsOk(s')
  {
    InputsInfo(s, s');
  }

  lemma AskDemands(c: Client, s: State, s': State, r: InputRequest)
    requires Inv(c, s) && Quiet(s) && r.task.None? && s' == s.(inputRequests := [r])
    ensures OwedOk(s') && DemandsOk(s')
  {
    hide RequestsOk, CountsOk, TasksOk, QueuesOk, OwnersOk, ScansOk, VerdictsOk, TimesOk;
    InputsInfo(s, s');
    forall d | PendingDummy(s, d) ensures PendingDummy(s', d) {}
    forall x | Demander(s, x) ensures Demander(s', x) {}
  }

  lemma RootOwed(s: State, root: KeyID)
    requires s.inputRequests == [Dummy(Dependency(root, false, false))] && s.owed == {root}
    ensures OwedOk(s)
  {
    assert Dummy(Dependency(root, false, false)) in s.inputRequests;
  }

  /** Starting a build keeps the invariant. */
  lemma StartBuildKeeps(c: Client, s: State, root: KeyID)
    requires Inv(c, s) && Quiet(s)
    ensures Inv(c, StartBuild(s, root))
  {
    var s1 := NewEpoch(s);
    var s2 := s1.(inputRequests := [Dummy(Dependency(root, false, false))]);
    var s' := StartBuild(s, root);
    assert s' == s2.(owed := {root});
    assert Noted(s2, s');
    hide Inv, Shape, TimesOk, AtRest, OwedOk, Noted, StartBuild;
    Unpack(c, s);
    NewEpochRest(s);
    RestInv(c, s1);
    AskFirst(c, s1, root);
    RootOwed(s', root);
    NotedKeeps(c, s2, s');
  }

  // ---- Runs -----------------------------------------------------------------------------------------

  /** Between two steps: nothing is in hand, and unless a build has started nothing is going on. */
  ghost predicate Between(c: Client, s: State) {
    Inv(c, s) && s.curScan == [] && s.curInput == [] && (s.building || Quiet(s))
  }

  /** Processing a scan request leaves this alone, and ends with nothing in hand. */
  ghost predicate Laid(s: State, s': State) {
    && s'.curScan == [] && s'.curInput == s.curInput && s'.building == s.building
    && s'.tidy == s.tidy && s'.broken == s.broken && s'.epoch == s.epoch && s'.db == s.db && s'.owed == s.owed
    && s'.cancelled == s.cancelled && s'.finishedTaskInfos == s.finishedTaskInfos
  }

  lemma FinishHands(s: State, k: KeyID, phase: Phase)
    ensures Laid(s, FinishHand(s, k, phase))
  {
  }

  lemma AdvanceHands(s: State, r: ScanRequest)
    ensures Laid(s, Advance(s, r))
  {
    hide FinishHand;
    FinishHands(s, r.rule, if r.needsToRun then NeedsToRun else DoesNotNeedToRun);
  }

  lemma ConcludeHands(c: Client, s: State, r: ScanRequest, d: KeyID)
    ensures Laid(s, Conclude(c, s, r, d))
  {
    hide FinishHand, Advance, Laid, InputRebuilt;
    FinishHands(s, r.rule, NeedsToRun);
    AdvanceHands(s, r);
    AdvanceHands(s, r.(needsToRun := true));
  }

  lemma DeferHands(s: State, r: ScanRequest, d: KeyID)
    ensures Laid(s, DeferOnScan(s, r, d)) && Laid(s, DeferOnTask(s, r, d))
  {
  }

  lemma LaidAfter(s: State, s1: State, s': State)
    requires SameBuild(s, s1) && Laid(s1, s')
    ensures Laid(s, s')
  {
  }

  lemma AfterLookUpHands(c: Client, s: State, r: ScanRequest, d: KeyID)
    ensures Laid(s, AfterLookUp(c, s, r, d))
  {
    hide ScanRule, DemandRule, Conclude, CompleteNow, Scanning, Laid, DeferOnScan, DeferOnTask, SameBuild, IsScanned;
    var s2 := ScanRule(c, s, d);
    ScanRuleMarks(c, s, d);
    if Scanning(s2, d) {
      DeferHands(s2, r, d);
      LaidAfter(s, s2, DeferOnScan(s2, r, d));
    } else {
      var s3 := DemandRule(c, s2, d);
      DemandRuleMarks(c, s2, d);
      ConcludeHands(c, s3, r, d);
      DeferHands(s3, r, d);
      LaidAfter(s2, s3, Conclude(c, s3, r, d));
      LaidAfter(s2, s3, DeferOnTask(s3, r, d));
      LaidAfter(s, s2, Conclude(c, s3, r, d));
      LaidAfter(s, s2, DeferOnTask(s3, r, d));
    }
  }

  lemma ProcessScanHands(c: Client, s: State, r: ScanRequest)
    ensures Laid(s, ProcessScan(c, s, r))
  {
    hide Advance, AfterLookUp, LookUp, SkipsDependency, Scanning;
    if !Scanning(s, r.rule) {
    } else if SkipsDependency(c, s, r) {
      AdvanceHands(s, r);
    } else {
      LookUpSome(s, r);
      var r' := LookUp(s, r);
      AfterLookUpHands(c, s.(curScan := [r']), r', r'.input.value);
    }
  }

  lemma LookUpSome(s: State, r: ScanRequest)
    ensures LookUp(s, r).input.Some?
  {
  }

  lemma ScanOneHands(c: Client, s: State)
    requires s.ruleInfosToScan != []
    ensures Laid(s, ScanOne(c, s))
  {
    hide ProcessScan;
    ProcessScanHands(c, TakeScan(s), Last(s.ruleInfosToScan));
  }

  /** Likewise for an input request. */
  ghost predicate Handed(s: State, s': State) {
    && s'.curScan == s.curScan && s'.curInput == [] && s'.building == s.building
    && s'.tidy == s.tidy && s'.broken == s.broken && s'.epoch == s.epoch && s'.db == s.db && s'.owed == s.owed
    && s'.cancelled == s.cancelled && s'.finishedTaskInfos == s.finishedTaskInfos
  }

  lemma RecordedHands(s: State, r: InputRequest, t: KeyID)
    ensures Handed(s, Recorded(s, r, t))
  {
    hide Info, TaskOf;
  }

  lemma RecordHands(s: State, r: InputRequest, t: KeyID)
    ensures Handed(s, Record(s, r, t))
  {
    hide Recorded, CompleteNow;
    RecordedHands(s, r, t);
  }

  lemma ProcessInputHands(c: Client, s: State, r: InputRequest)
    ensures Handed(s, ProcessInput(c, s, r))
  {
    hide ScanRule, DemandRule, Scanning, Record, IsScanned;
    var s1 := ScanRule(c, s, r.input);
    ScanRuleMarks(c, s, r.input);
    if !Scanning(s1, r.input) {
      DemandRuleMarks(c, s1, r.input);
      if r.task.Some? { RecordHands(DemandRule(c, s1, r.input), r, r.task.value); }
    }
  }

  lemma InputOneHands(c: Client, s: State)
    requires s.inputRequests != []
    ensures Handed(s, InputOne(c, s))
  {
    hide ProcessInput;
    ProcessInputHands(c, TakeInput(s), s.inputRequests[0]);
  }

  /** Steps within a build. */
  predicate WithinBuild(step: Step) {
    !step.DoCancel? && !step.DoStartBuild? && !step.DoNewEngine?
  }

  lemma Building(c: Client, s: State, step: Step)
    requires Between(c, s) && Enabled(s, step) && WithinBuild(step)
    ensures s.building
  {
    if step.DoTaskIsComplete? {
      assert Shape(s) by { Unpack(c, s); }
      assert step.task in s.tasks by { var _ := Info(s, step.task); }
    }
  }

  /** Every step within a build keeps the invariant, and leaves alone what is complete. */
  lemma StepKeeps(c: Client, s: State, step: Step)
    requires Between(c, s) && Enabled(s, step) && WithinBuild(step)
    ensures Inv(c, Apply(c, s, step)) && Keeps(s, Apply(c, s, step))
  {
    Building(c, s, step);
    hide Inv, Keeps, Quiet, ScanOne, InputOne, DeliverOne, ReadyOne, TaskIsComplete, FinishOne, ForceBuild, SupplyPriorValue;
    match step {
      case DoScan => ScanOneKeeps(c, s);
      case DoInput => InputOneKeeps(c, s);
      case DoDeliver => DeliverOneKeeps(c, s);
      case DoReady => ReadyOneKeeps(c, s);
      case DoTaskIsComplete(t, v, f, found) => TaskIsCompleteKeeps(c, s, t, v, f, found);
      case DoFinish => FinishOneKeeps(c, s);
      case DoForceBuild(k) => ForceBuildKeeps(c, s, k);
      case DoSupplyPriorValue(k, i) => SupplyPriorValueKeeps(c, s, k, i);
    }
  }

  lemma StepHands(c: Client, s: State, step: Step)
    requires Enabled(s, step) && WithinBuild(step) && s.curScan == [] && s.curInput == []
    ensures var s' := Apply(c, s, step); s'.curScan == [] && s'.curInput == [] && s'.building == s.building
  {
    hide ScanOne, InputOne, DeliverOne, ReadyOne, TaskIsComplete, FinishOne, ForceBuild, SupplyPriorValue;
    match step {
      case DoScan => ScanOneHands(c, s);
      case DoInput => InputOneHands(c, s);
      case DoDeliver => DeliverHands(c, s);
      case DoReady => ReadyHands(s);
      case DoTaskIsComplete(t, v, f, found) => ReportHands(c, s, t, v, f, found);
      case DoFinish => FinishTaskHands(s);
      case DoForceBuild(k) => ForceHands(s, k);
      case DoSupplyPriorValue(k, i) => SupplyHands(s, k, i);
    }
  }

  lemma DeliverHands(c: Client, s: State)
    requires s.finishedInputRequests != []
    ensures var s' := DeliverOne(c, s); s'.curScan == s.curScan && s'.curInput == s.curInput && s'.building == s.building
  {
    hide AsksAfter, GotAfter, Deliver, Last;
    var r := Last(s.finishedInputRequests);
    if r.task.Some? { DeliverLeaves(s, r, r.task.value, GotAfter(s, r, r.task.value), AsksAfter(c, s, r, r.task.value)); }
  }

  lemma DeliverLeaves(s: State, r: InputRequest, t: KeyID, got: seq<Delivery>, asks: seq<Dependency>)
    requires s.finishedInputRequests != []
    ensures var s' := Deliver(s, r, t, got, asks); s'.curScan == s.curScan && s'.curInput == s.curInput && s'.building == s.building
  {
    hide PushIf, Requests, Asking;
  }

  lemma ReadyHands(s: State)
    requires s.readyTaskInfos != []
    ensures var s' := ReadyOne(s); s'.curScan == s.curScan && s'.curInput == s.curInput && s'.building == s.building
  {
  }

  lemma ReportHands(c: Client, s: State, t: KeyID, v: Value, f: bool, found: seq<Delivery>)
    ensures var s' := TaskIsComplete(c, s, t, v, f, found); s'.curScan == s.curScan && s'.curInput == s.curInput && s'.building == s.building
  {
  }

  lemma FinishTaskHands(s: State)
    requires s.finishedTaskInfos != []
    ensures var s' := FinishOne(s); s'.curScan == s.curScan && s'.curInput == s.curInput && s'.building == s.building
  {
  }

  lemma ForceHands(s: State, k: KeyID)
    ensures var s' := ForceBuild(s, k); s'.curScan == s.curScan && s'.curInput == s.curInput && s'.building == s.building
  {
  }

  lemma SupplyHands(s: State, k: KeyID, i: nat)
    requires i < |At(s.requestedBy, k)|
    ensures var s' := SupplyPriorValue(s, k, i); s'.curScan == s.curScan && s'.curInput == s.curInput && s'.building == s.building
  {
  }

  /** Every step leads from a good state between steps to another. */
  lemma ApplyKeeps(c: Client, s: State, step: Step)
    requires Between(c, s) && Enabled(s, step)
    ensures Between(c, Apply(c, s, step))
  {
    hide Inv, Keeps, Apply;
    if WithinBuild(step) {
      Building(c, s, step);
      StepKeeps(c, s, step);
      StepHands(c, s, step);
    } else {
      OutsideKeeps(c, s, step);
    }
  }

  lemma OutsideKeeps(c: Client, s: State, step: Step)
    requires Between(c, s) && Enabled(s, step) && !WithinBuild(step)
    ensures Between(c, Apply(c, s, step))
  {
    hide Inv;
    match step {
      case DoCancel => CancelKeeps(c, s);
      case DoStartBuild(root) => StartBuildKeeps(c, s, root);
      case DoNewEngine => NewEngineKeeps(c, s);
    }
  }

  /** The invariant holds in every state of every run: however the client behaves, and however
      often builds are started, cancelled and forced through cycles. */
  lemma {:induction false} RunInvariant(c: Client, steps: seq<Step>)
    requires Legal(c, steps)
    ensures Between(c, Exec(c, steps))
  {
    hide Inv, Apply, Enabled, Between, Quiet;
    if steps == [] {
      InitialInv(c);
      InitialBetween(c);
    } else {
      RunInvariant(c, Front(steps));
      ApplyKeeps(c, Exec(c, Front(steps)), Last(steps));
    }
  }

  lemma InitialBetween(c: Client)
    requires Inv(c, INITIAL) && Quiet(INITIAL)
    ensures Between(c, INITIAL)
  {
    hide Inv;
  }
}
