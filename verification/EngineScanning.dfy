/** Processing one scan request keeps the invariant. */
module EngineScanning {
  import opened Options
  import opened EngineState
  import opened EngineSteps
  import opened EngineCounts
  import opened EngineInvariant
  import opened EngineFrames
  import opened EngineRules
  import opened EngineDemand

  /** Only the places where scan requests are kept change. */
  ghost predicate ScansMove(s: State, s': State) {
    s' == s.(curScan := s'.curScan, ruleInfosToScan := s'.ruleInfosToScan, deferred := s'.deferred, taskDeferred := s'.taskDeferred)
  }

  lemma ScansMoveOnly(s: State, s': State, k: KeyID)
    requires ScansMove(s, s')
    ensures Only(s, s', k) && SameRequests(s, s') && SameQueues(s, s') && s'.db == s.db && s'.tasks == s.tasks
    ensures Info(s', k) == Info(s, k)
    ensures InProgress(s, k) ==> InProgress(s', k)
  {
  }

  lemma VerdictFrame(c: Client, s: State, s': State, k: KeyID)
    requires VerdictOk(c, s, k) && Only(s, s', k) && Info(s', k) == Info(s, k)
    ensures VerdictOk(c, s', k)
  {
    if OutOfDate(c, s, k) { OutOfDateFrame(c, s, s', k, k); }
  }

  lemma VerdictsMove(c: Client, s: State, s': State)
    requires VerdictsOk(c, s) && Only(s, s', 0) && Info(s', 0) == Info(s, 0)
    ensures VerdictsOk(c, s')
  {
    if s.tidy { VerdictFrame(c, s, s', 0); }
    VerdictsFrame(c, s, s', 0);
  }

  lemma ScansMoveKeeps(c: Client, s: State, s': State)
    requires Inv(c, s) && ScansMove(s, s')
    requires Shape(s') && ScansOk(c, s') && OwnersOk(s') && DemandsOk(s')
    ensures Inv(c, s') && Keeps(s, s')
  {
    hide *;
    Unpack(c, s);
    ScansMoveOnly(s, s', 0);
    KeepsFrame(s, s', 0);
    TimesFrame(s, s', 0);
    RequestsFrame(s, s', 0);
    CountsFrame(s, s');
    TasksFrame(s, s', 0);
    QueuesFrame(s, s', 0);
    VerdictsMove(c, s, s');
    OwedFrame(s, s', 0);
    Pack(c, s');
  }

  // ---- Moving the request in hand ---------------------------------------------------------

  lemma MoveInfo(s: State, s': State)
    requires ScansMove(s, s')
    ensures forall k :: Info(s', k) == Info(s, k)
  {
  }

  lemma ScanOkMove(c: Client, s: State, s': State)
    requires ScansMove(s, s')
    ensures forall r :: ScanOk(c, s, r) ==> ScanOk(c, s', r)
  {
    hide ScanOk, Only;
    forall r: ScanRequest | ScanOk(c, s, r) ensures ScanOk(c, s', r) {
      ScansMoveOnly(s, s', r.rule);
      ScanStableMove(s, s', r.rule);
      ScanFrame(c, s, s', r.rule, r);
    }
  }

  lemma ScanStableMove(s: State, s': State, k: KeyID)
    requires ScansMove(s, s')
    ensures ScanStable(s, s', k)
  {
    MoveInfo(s, s');
  }

  lemma OwnersMove(s: State, s': State)
    requires OwnersOk(s) && ScansMove(s, s') && AllOwners(s') == AllOwners(s)
    ensures OwnersOk(s')
  {
    hide AllOwners;
    MoveInfo(s, s');
  }

  /** A request that leaves the hand does not leave its input without anyone to demand it. */
  ghost predicate Settled(s: State, s': State, d: KeyID) {
    || (Scanning(s, d) && At(s'.deferred, d) != []) || InProgress(s, d) || CompleteNow(s, d)
    || (s.broken && !Scanning(s, d))
  }

  /** Requests already in the queues are still demanded by someone. */
  lemma DemandsMove(s: State, s': State)
    requires DemandsOk(s) && ScansMove(s, s')
    requires forall r :: r in s'.ruleInfosToScan && r.input.Some? ==> IsScanned(s, r.input.value)
    requires forall k :: At(s.deferred, k) != [] ==> At(s'.deferred, k) != []
    requires forall r :: r in s.curScan && r.input.Some? ==> r in s'.curScan || Settled(s, s', r.input.value)
    requires forall r :: r in s.ruleInfosToScan ==> r in s'.ruleInfosToScan || r in s'.curScan
    ensures DemandsOk(s')
  {
    MoveInfo(s, s');
    forall x | !s.broken && Demander(s, x) && Verdict(s, x) ensures Demander(s', x) {}
  }

  /** The owner of a request that leaves the hand for good is no longer scanning. */
  lemma OwnersDrop(s: State, s': State, k: KeyID)
    requires OwnersOk(s) && AllOwners(s) == AllOwners(s') + multiset{k} && !Scanning(s', k)
    requires forall x :: x != k ==> Info(s', x).phase == Info(s, x).phase
    ensures OwnersOk(s')
  {
    hide AllOwners;
    forall x ensures AllOwners(s')[x] <= 1 && (Info(s', x).phase.IsScanning? ==> AllOwners(s')[x] == 1) {
      assert AllOwners(s)[x] == AllOwners(s')[x] + multiset{k}[x];
    }
  }

  lemma OwnersNone()
    ensures Owners([]) == multiset{}
  {
  }

  lemma TakeScanShape(s: State)
    requires Shape(s) && s.ruleInfosToScan != [] && s.curScan == []
    ensures Shape(TakeScan(s)) && ScansMove(s, TakeScan(s))
  {
    MoveInfo(s, TakeScan(s));
  }

  lemma TakeScanOwners(s: State)
    requires s.ruleInfosToScan != [] && s.curScan == []
    ensures AllOwners(TakeScan(s)) == AllOwners(s)
  {
    hide Owners, FlatOwners;
    var r := Last(s.ruleInfosToScan);
    assert s.ruleInfosToScan == Front(s.ruleInfosToScan) + [r];
    OwnersAppend(Front(s.ruleInfosToScan), r);
    OwnersOne(r);
    OwnersNone();
  }

  lemma TakeScanScans(c: Client, s: State)
    requires Shape(s) && ScansOk(c, s) && s.ruleInfosToScan != [] && s.curScan == []
    ensures ScansOk(c, TakeScan(s))
  {
    hide ScanOk;
    TakeScanShape(s);
    ScanOkMove(c, s, TakeScan(s));
    assert s.ruleInfosToScan == Front(s.ruleInfosToScan) + [Last(s.ruleInfosToScan)];
  }

  lemma TakeScanDemands(s: State)
    requires Shape(s) && DemandsOk(s) && s.ruleInfosToScan != [] && s.curScan == []
    ensures DemandsOk(TakeScan(s))
  {
    hide IsScanned, Demander;
    var s' := TakeScan(s);
    assert s.ruleInfosToScan == s'.ruleInfosToScan + s'.curScan;
    DemandsMove(s, s');
  }

  lemma TakeScanKeeps(c: Client, s: State)
    requires Inv(c, s) && s.ruleInfosToScan != [] && s.curScan == []
    ensures Inv(c, TakeScan(s)) && Keeps(s, TakeScan(s))
  {
    hide *;
    Unpack(c, s);
    TakeScanShape(s);
    TakeScanOwners(s);
    OwnersMove(s, TakeScan(s));
    TakeScanScans(c, s);
    TakeScanDemands(s);
    ScansMoveKeeps(c, s, TakeScan(s));
  }

  /** The request in hand is about `r.input`, or will be. */
  ghost predicate InHand(s: State, r: ScanRequest) {
    s.curScan == [r] && s.curInput == []
  }

  lemma LookUpShape(s: State, r: ScanRequest)
    requires Shape(s) && InHand(s, r)
    ensures Shape(s.(curScan := [LookUp(s, r)])) && ScansMove(s, s.(curScan := [LookUp(s, r)]))
  {
    MoveInfo(s, s.(curScan := [LookUp(s, r)]));
  }

  lemma LookUpOwners(s: State, r: ScanRequest)
    requires InHand(s, r)
    ensures AllOwners(s.(curScan := [LookUp(s, r)])) == AllOwners(s)
  {
    hide Owners, FlatOwners;
    OwnersOne(r);
    OwnersOne(LookUp(s, r));
  }

  lemma LookUpScanned(c: Client, s: State, r: ScanRequest)
    requires ScanOk(c, s, r)
    ensures ScanOk(c, s, LookUp(s, r))
  {
    hide OutOfDate, Matches, Unchanged;
  }

  lemma LookUpScans(c: Client, s: State, r: ScanRequest)
    requires Shape(s) && ScansOk(c, s) && InHand(s, r)
    ensures ScansOk(c, s.(curScan := [LookUp(s, r)]))
  {
    hide ScanOk;
    LookUpShape(s, r);
    LookUpScanned(c, s, r);
    ScanOkMove(c, s, s.(curScan := [LookUp(s, r)]));
  }

  lemma LookUpDemands(s: State, r: ScanRequest)
    requires Shape(s) && DemandsOk(s) && InHand(s, r)
    ensures DemandsOk(s.(curScan := [LookUp(s, r)]))
  {
    hide IsScanned, Demander;
    DemandsMove(s, s.(curScan := [LookUp(s, r)]));
  }

  lemma LookUpKeeps(c: Client, s: State, r: ScanRequest)
    requires Inv(c, s) && InHand(s, r)
    ensures Inv(c, s.(curScan := [LookUp(s, r)])) && Keeps(s, s.(curScan := [LookUp(s, r)]))
  {
    hide *;
    Unpack(c, s);
    LookUpShape(s, r);
    LookUpOwners(s, r);
    OwnersMove(s, s.(curScan := [LookUp(s, r)]));
    LookUpScans(c, s, r);
    LookUpDemands(s, r);
    ScansMoveKeeps(c, s, s.(curScan := [LookUp(s, r)]));
  }

  lemma DeferOnScanShape(s: State, r: ScanRequest, d: KeyID)
    requires Shape(s) && InHand(s, r) && r.input == Some(d) && Scanning(s, d)
    ensures Shape(DeferOnScan(s, r, d)) && ScansMove(s, DeferOnScan(s, r, d))
  {
    MoveInfo(s, DeferOnScan(s, r, d));
  }

  lemma DeferOnScanOwners(s: State, r: ScanRequest, d: KeyID)
    requires InHand(s, r) && r.input == Some(d) && Scanning(s, d)
    ensures AllOwners(DeferOnScan(s, r, d)) == AllOwners(s)
  {
    hide Owners, FlatOwners;
    OwnersOne(r);
    OwnersNone();
    FlatOwnersAdd(s.deferred, d, r);
  }

  lemma DeferOnScanScans(c: Client, s: State, r: ScanRequest, d: KeyID)
    requires Shape(s) && ScansOk(c, s) && InHand(s, r) && r.input == Some(d) && Scanning(s, d)
    ensures ScansOk(c, DeferOnScan(s, r, d))
  {
    hide ScanOk, Scanning;
    DeferOnScanShape(s, r, d);
    ScanOkMove(c, s, DeferOnScan(s, r, d));
  }

  lemma DeferOnScanDemands(s: State, r: ScanRequest, d: KeyID)
    requires Shape(s) && DemandsOk(s) && InHand(s, r) && r.input == Some(d) && Scanning(s, d)
    ensures DemandsOk(DeferOnScan(s, r, d))
  {
    hide IsScanned, Demander;
    DemandsMove(s, DeferOnScan(s, r, d));
  }

  lemma DeferOnScanKeeps(c: Client, s: State, r: ScanRequest, d: KeyID)
    requires Inv(c, s) && InHand(s, r) && r.input == Some(d) && Scanning(s, d)
    ensures Inv(c, DeferOnScan(s, r, d)) && Keeps(s, DeferOnScan(s, r, d))
  {
    hide *;
    Unpack(c, s);
    DeferOnScanShape(s, r, d);
    DeferOnScanOwners(s, r, d);
    OwnersMove(s, DeferOnScan(s, r, d));
    DeferOnScanScans(c, s, r, d);
    DeferOnScanDemands(s, r, d);
    ScansMoveKeeps(c, s, DeferOnScan(s, r, d));
  }

  lemma DeferOnTaskShape(s: State, r: ScanRequest, d: KeyID)
    requires Shape(s) && InHand(s, r) && r.input == Some(d) && InProgress(s, d)
    ensures Shape(DeferOnTask(s, r, d)) && ScansMove(s, DeferOnTask(s, r, d))
  {
    MoveInfo(s, DeferOnTask(s, r, d));
  }

  lemma DeferOnTaskOwners(s: State, r: ScanRequest, d: KeyID)
    requires InHand(s, r) && r.input == Some(d) && InProgress(s, d)
    ensures AllOwners(DeferOnTask(s, r, d)) == AllOwners(s)
  {
    hide Owners, FlatOwners;
    OwnersOne(r);
    OwnersNone();
    FlatOwnersAdd(s.taskDeferred, d, r);
  }

  lemma DeferOnTaskScans(c: Client, s: State, r: ScanRequest, d: KeyID)
    requires Shape(s) && ScansOk(c, s) && InHand(s, r) && r.input == Some(d) && InProgress(s, d)
    ensures ScansOk(c, DeferOnTask(s, r, d))
  {
    hide ScanOk, InProgress;
    DeferOnTaskShape(s, r, d);
    ScanOkMove(c, s, DeferOnTask(s, r, d));
  }

  lemma DeferOnTaskDemands(s: State, r: ScanRequest, d: KeyID)
    requires Shape(s) && DemandsOk(s) && InHand(s, r) && r.input == Some(d) && InProgress(s, d)
    ensures DemandsOk(DeferOnTask(s, r, d))
  {
    hide IsScanned, Demander;
    DemandsMove(s, DeferOnTask(s, r, d));
  }

  lemma DeferOnTaskKeeps(c: Client, s: State, r: ScanRequest, d: KeyID)
    requires Inv(c, s) && InHand(s, r) && r.input == Some(d) && InProgress(s, d)
    ensures Inv(c, DeferOnTask(s, r, d)) && Keeps(s, DeferOnTask(s, r, d))
  {
    hide *;
    Unpack(c, s);
    DeferOnTaskShape(s, r, d);
    DeferOnTaskOwners(s, r, d);
    OwnersMove(s, DeferOnTask(s, r, d));
    DeferOnTaskScans(c, s, r, d);
    DeferOnTaskDemands(s, r, d);
    ScansMoveKeeps(c, s, DeferOnTask(s, r, d));
  }

  lemma PutBackShape(s: State, r: ScanRequest, q: ScanRequest)
    requires Shape(s) && InHand(s, r) && q.rule == r.rule && q.input.None? && (r.input.Some? ==> CompleteNow(s, r.input.value))
    ensures Shape(PutBack(s, q)) && ScansMove(s, PutBack(s, q))
  {
    MoveInfo(s, PutBack(s, q));
  }

  lemma PutBackOwners(s: State, r: ScanRequest, q: ScanRequest)
    requires InHand(s, r) && q.rule == r.rule && q.input.None? && (r.input.Some? ==> CompleteNow(s, r.input.value))
    ensures AllOwners(PutBack(s, q)) == AllOwners(s)
  {
    hide Owners, FlatOwners;
    OwnersOne(r);
    OwnersNone();
    OwnersAppend(s.ruleInfosToScan, q);
  }

  lemma PutBackScans(c: Client, s: State, r: ScanRequest, q: ScanRequest)
    requires Shape(s) && ScansOk(c, s) && InHand(s, r) && q.rule == r.rule && q.input.None? && (r.input.Some? ==> CompleteNow(s, r.input.value)) && ScanOk(c, s, q)
    ensures ScansOk(c, PutBack(s, q))
  {
    hide ScanOk;
    PutBackShape(s, r, q);
    ScanOkMove(c, s, PutBack(s, q));
  }

  lemma PutBackDemands(s: State, r: ScanRequest, q: ScanRequest)
    requires Shape(s) && DemandsOk(s) && InHand(s, r) && q.rule == r.rule && q.input.None? && (r.input.Some? ==> CompleteNow(s, r.input.value))
    ensures DemandsOk(PutBack(s, q))
  {
    hide IsScanned, Demander;
    DemandsMove(s, PutBack(s, q));
  }

  lemma PutBackKeeps(c: Client, s: State, r: ScanRequest, q: ScanRequest)
    requires Inv(c, s) && InHand(s, r) && q.rule == r.rule && q.input.None? && (r.input.Some? ==> CompleteNow(s, r.input.value)) && ScanOk(c, s, q)
    ensures Inv(c, PutBack(s, q)) && Keeps(s, PutBack(s, q))
  {
    hide *;
    Unpack(c, s);
    PutBackShape(s, r, q);
    PutBackOwners(s, r, q);
    OwnersMove(s, PutBack(s, q));
    PutBackScans(c, s, r, q);
    PutBackDemands(s, r, q);
    ScansMoveKeeps(c, s, PutBack(s, q));
  }

  // ---- A request for a rule that was forced -------------------------------------------------

  lemma DropShape(s: State, r: ScanRequest)
    requires Shape(s) && InHand(s, r)
    ensures Shape(s.(curScan := [])) && ScansMove(s, s.(curScan := []))
  {
    MoveInfo(s, s.(curScan := []));
  }

  lemma DropOwners(s: State, r: ScanRequest)
    requires OwnersOk(s) && InHand(s, r) && !Scanning(s, r.rule)
    ensures OwnersOk(s.(curScan := []))
  {
    hide Owners, FlatOwners;
    MoveInfo(s, s.(curScan := []));
    OwnersOne(r);
    OwnersNone();
    assert AllOwners(s) == AllOwners(s.(curScan := [])) + multiset{r.rule};
    OwnersDrop(s, s.(curScan := []), r.rule);
  }

  lemma DropScans(c: Client, s: State, r: ScanRequest)
    requires Shape(s) && ScansOk(c, s) && InHand(s, r)
    ensures ScansOk(c, s.(curScan := []))
  {
    hide ScanOk;
    DropShape(s, r);
    ScanOkMove(c, s, s.(curScan := []));
  }

  lemma DropDemands(c: Client, s: State, r: ScanRequest)
    requires Shape(s) && ScansOk(c, s) && DemandsOk(s) && InHand(s, r) && !Scanning(s, r.rule)
    requires r.input.Some? ==> IsScanned(s, r.input.value)
    ensures DemandsOk(s.(curScan := []))
  {
    hide Demander, Scanned;
    assert ScanOk(c, s, r);
    DemandsMove(s, s.(curScan := []));
  }

  lemma DropKeeps(c: Client, s: State, r: ScanRequest)
    requires Inv(c, s) && InHand(s, r) && !Scanning(s, r.rule) && (r.input.Some? ==> IsScanned(s, r.input.value))
    ensures Inv(c, s.(curScan := [])) && Keeps(s, s.(curScan := []))
  {
    hide *;
    Unpack(c, s);
    DropShape(s, r);
    DropOwners(s, r);
    DropScans(c, s, r);
    DropDemands(c, s, r);
    ScansMoveKeeps(c, s, s.(curScan := []));
  }

  // ---- finishScanRequest ---------------------------------------------------------------------

  /** What must hold for the scan in hand to end with verdict `phase`. */
  ghost predicate CanFinish(c: Client, s: State, r: ScanRequest, phase: Phase) {
    && InHand(s, r) && Scanning(s, r.rule) && (r.input.Some? ==> CompleteNow(s, r.input.value))
    && (phase.NeedsToRun? || phase.DoesNotNeedToRun?) && Info(s, r.rule).result.builtAt < s.epoch && r.rule !in s.tasks
  }

  lemma FinishOnly(c: Client, s: State, r: ScanRequest, phase: Phase)
    requires CanFinish(c, s, r, phase)
    ensures var s' := FinishHand(s, r.rule, phase);
      && Only(s, s', r.rule) && Info(s', r.rule) == Info(s, r.rule).(phase := phase)
      && s'.tasks == s.tasks && SameQueues(s, s') && s'.db == s.db
      && !InProgress(s, r.rule) && !InProgress(s', r.rule)
  {
  }

  lemma FinishShape(c: Client, s: State, r: ScanRequest, phase: Phase)
    requires Shape(s) && CanFinish(c, s, r, phase)
    ensures Shape(FinishHand(s, r.rule, phase))
  {
    FinishOnly(c, s, r, phase);
  }

  lemma FinishRequests(c: Client, s: State, r: ScanRequest, phase: Phase)
    requires RequestsOk(s) && CanFinish(c, s, r, phase)
    ensures RequestsOk(FinishHand(s, r.rule, phase))
  {
    hide Live, Answerable, Only;
    var s' := FinishHand(s, r.rule, phase);
    FinishOnly(c, s, r, phase);
    forall q: InputRequest | Live(s, q) ensures Live(s', q) { LiveFrame(s, s', r.rule, q); }
    forall q: InputRequest | Answerable(s, q) ensures Answerable(s', q) { AnswerableFrame(s, s', r.rule, q); }
  }

  lemma FinishCounts(s: State, k: KeyID, phase: Phase)
    requires CountsOk(s)
    ensures CountsOk(FinishHand(s, k, phase))
  {
    hide Ids, FlatIds, Tally;
    var s' := FinishHand(s, k, phase);
    forall t | t in s'.tasks ensures Counted(s', t) {
      assert Counted(s, t);
      IdsConcat(s.inputRequests, At(s.paused, k), t);
      FlatIdsDrop(s.paused, t, k);
      assert Queued(s', t) == Queued(s, t);
    }
  }

  lemma FinishScans(c: Client, s: State, r: ScanRequest, phase: Phase)
    requires ScansOk(c, s) && OwnersOk(s) && CanFinish(c, s, r, phase)
    ensures ScansOk(c, FinishHand(s, r.rule, phase))
  {
    hide ScanOk, Only, AllOwners;
    var s' := FinishHand(s, r.rule, phase);
    FinishOnly(c, s, r, phase);
    NoOther(s, r);
    forall q: ScanRequest | ScanOk(c, s, q) && q.rule != r.rule ensures ScanOk(c, s', q) { ScanFrame(c, s, s', r.rule, q); }
  }

  /** The request in hand is the only one of its rule. */
  lemma NoOther(s: State, r: ScanRequest)
    requires OwnersOk(s) && s.curScan == [r]
    ensures forall q :: q in s.ruleInfosToScan ==> q.rule != r.rule
    ensures forall d, q :: d in s.deferred && q in s.deferred[d] ==> q.rule != r.rule
    ensures forall d, q :: d in s.taskDeferred && q in s.taskDeferred[d] ==> q.rule != r.rule
  {
    hide Owners, FlatOwners;
    var k := r.rule;
    OwnersOne(r);
    assert AllOwners(s)[k] <= 1 by { var _ := Info(s, k); }
    assert k !in Owners(s.ruleInfosToScan) && k !in FlatOwners(s.deferred) && k !in FlatOwners(s.taskDeferred);
    OwnersMember(s.ruleInfosToScan, k);
    forall d, q | d in s.deferred && q in s.deferred[d] ensures q.rule != k {
      FlatOwnersDrop(s.deferred, d);
      OwnersMember(s.deferred[d], k);
    }
    forall d, q | d in s.taskDeferred && q in s.taskDeferred[d] ensures q.rule != k {
      FlatOwnersDrop(s.taskDeferred, d);
      OwnersMember(s.taskDeferred[d], k);
    }
  }

  lemma FinishOwners(c: Client, s: State, r: ScanRequest, phase: Phase)
    requires OwnersOk(s) && CanFinish(c, s, r, phase)
    ensures OwnersOk(FinishHand(s, r.rule, phase))
  {
    hide Owners, FlatOwners;
    var s' := FinishHand(s, r.rule, phase);
    FinishOnly(c, s, r, phase);
    OwnersOne(r);
    OwnersNone();
    OwnersConcat(s.ruleInfosToScan, At(s.deferred, r.rule));
    FlatOwnersDrop(s.deferred, r.rule);
    assert AllOwners(s) == AllOwners(s') + multiset{r.rule};
    OwnersDrop(s, s', r.rule);
  }

  lemma FinishOwed(c: Client, s: State, r: ScanRequest, phase: Phase)
    requires OwedOk(s) && CanFinish(c, s, r, phase)
    ensures OwedOk(FinishHand(s, r.rule, phase))
  {
    var s' := FinishHand(s, r.rule, phase);
    FinishOnly(c, s, r, phase);
    forall d | PendingDummy(s, d) ensures PendingDummy(s', d) {}
  }

  lemma FinishDemanded(c: Client, s: State, r: ScanRequest, phase: Phase)
    requires DemandsOk(s) && ScansOk(c, s) && RequestsOk(s) && CanFinish(c, s, r, phase) && Shape(s)
    ensures Demander(FinishHand(s, r.rule, phase), r.rule)
  {
    hide ScanOk, Live, IsScanned;
    var k := r.rule;
    var s' := FinishHand(s, k, phase);
    assert k in s.paused && k in s.deferred;
    if s.paused[k] != [] {
      assert s.paused[k][0] in s'.inputRequests;
    } else {
      assert s.deferred[k] != [];
      assert s.deferred[k][0] in s'.ruleInfosToScan;
    }
  }

  lemma FinishDemands(c: Client, s: State, r: ScanRequest, phase: Phase)
    requires DemandsOk(s) && ScansOk(c, s) && RequestsOk(s) && CanFinish(c, s, r, phase) && Shape(s)
    ensures DemandsOk(FinishHand(s, r.rule, phase))
  {
    hide ScanOk, Live, RequestsOk, ScansOk, Shape, Demander, IsScanned;
    var s' := FinishHand(s, r.rule, phase);
    FinishOnly(c, s, r, phase);
    FinishDemanded(c, s, r, phase);
    FinishLooked(c, s, r, phase);
    FinishAwaited(c, s, r, phase);
    forall x | Demander(s, x) && Verdict(s, x) ensures Demander(s', x) { FinishDemander(c, s, r, phase, x); }
  }

  lemma FinishDemander(c: Client, s: State, r: ScanRequest, phase: Phase, x: KeyID)
    requires Demander(s, x) && Verdict(s, x) && CanFinish(c, s, r, phase)
    ensures Demander(FinishHand(s, r.rule, phase), x)
  {
    var s' := FinishHand(s, r.rule, phase);
    assert forall q :: q in s.inputRequests ==> q in s'.inputRequests;
    assert forall q :: q in s.ruleInfosToScan ==> q in s'.ruleInfosToScan;
  }

  lemma FinishLooked(c: Client, s: State, r: ScanRequest, phase: Phase)
    requires DemandsOk(s) && ScansOk(c, s) && CanFinish(c, s, r, phase) && Shape(s)
    ensures var s' := FinishHand(s, r.rule, phase); forall q :: q in s'.ruleInfosToScan && q.input.Some? ==> IsScanned(s', q.input.value)
  {
    hide ScanOk, Demander;
    FinishOnly(c, s, r, phase);
    var s' := FinishHand(s, r.rule, phase);
    assert s'.ruleInfosToScan == s.ruleInfosToScan + At(s.deferred, r.rule);
  }

  lemma FinishAwaited(c: Client, s: State, r: ScanRequest, phase: Phase)
    requires DemandsOk(s) && CanFinish(c, s, r, phase) && Shape(s)
    ensures var s' := FinishHand(s, r.rule, phase);
      forall k :: Info(s', k).phase.IsScanning? ==>
        At(s'.paused, k) != [] || At(s'.deferred, k) != [] || (exists q :: q in s'.curInput && q.input == k)
        || (exists q :: q in s'.curScan && q.input == Some(k))
  {
    hide Demander;
    FinishOnly(c, s, r, phase);
  }

  /** Ending a scan with a verdict that is right keeps the invariant. */
  lemma FinishHandKeeps(c: Client, s: State, r: ScanRequest, phase: Phase)
    requires Inv(c, s) && CanFinish(c, s, r, phase) && VerdictOk(c, FinishHand(s, r.rule, phase), r.rule)
    ensures Inv(c, FinishHand(s, r.rule, phase)) && Keeps(s, FinishHand(s, r.rule, phase))
  {
    hide *;
    var k := r.rule;
    var s' := FinishHand(s, k, phase);
    Unpack(c, s);
    FinishOnly(c, s, r, phase);
    KeepsFrame(s, s', k);
    FinishShape(c, s, r, phase);
    FinishTimes(c, s, r, phase);
    FinishRequests(c, s, r, phase);
    FinishCounts(s, k, phase);
    FinishTasksQueues(c, s, r, phase);
    FinishScans(c, s, r, phase);
    FinishOwners(c, s, r, phase);
    VerdictsFrame(c, s, s', k);
    FinishOwed(c, s, r, phase);
    FinishDemands(c, s, r, phase);
    Pack(c, s');
  }

  lemma FinishTimes(c: Client, s: State, r: ScanRequest, phase: Phase)
    requires TimesOk(s) && CanFinish(c, s, r, phase)
    ensures TimesOk(FinishHand(s, r.rule, phase))
  {
    FinishOnly(c, s, r, phase);
  }

  lemma FinishTasksQueues(c: Client, s: State, r: ScanRequest, phase: Phase)
    requires TasksOk(s) && QueuesOk(s) && CanFinish(c, s, r, phase)
    ensures TasksOk(FinishHand(s, r.rule, phase)) && QueuesOk(FinishHand(s, r.rule, phase))
  {
    hide TasksOk, QueuesOk, FinishHand, Only, SameQueues, InProgress;
    FinishOnly(c, s, r, phase);
    TasksFrame(s, FinishHand(s, r.rule, phase), r.rule);
    QueuesFrame(s, FinishHand(s, r.rule, phase), r.rule);
  }

  // ---- One scan request ------------------------------------------------------------------------

  /** What is known once the input of the request in hand has been looked up and demanded. */
  ghost predicate InputDone(s: State, r: ScanRequest) {
    r.input.Some? && CompleteNow(s, r.input.value)
  }

  lemma AdvanceScanned(c: Client, s: State, r: ScanRequest)
    requires ScanOk(c, s, r) && Scanning(s, r.rule)
    requires SkipsDependency(c, s, r) || (InputDone(s, r) && !InputRebuilt(s, r, r.input.value))
    requires r.index + 1 != |Info(s, r.rule).result.dependencies|
    ensures ScanOk(c, s, Next(r))
  {
    hide OutOfDate, Matches;
  }

  lemma AdvanceVerdict(c: Client, s: State, r: ScanRequest)
    requires ScanOk(c, s, r) && Scanning(s, r.rule)
    requires SkipsDependency(c, s, r) || (InputDone(s, r) && !InputRebuilt(s, r, r.input.value))
    requires r.index + 1 == |Info(s, r.rule).result.dependencies|
    ensures if r.needsToRun then OutOfDate(c, s, r.rule) && Checked(c, s, r.rule) else UpToDate(c, s, r.rule)
  {
    hide OutOfDate, Matches;
    var ds := Info(s, r.rule).result.dependencies;
    forall d | d in ds ensures exists j :: 0 <= j < |ds| && ds[j] == d && (j < r.index || j == r.index) {}
  }

  /** Every dependency a rule wants checked before it runs is complete. */
  ghost predicate Checked(c: Client, s: State, k: KeyID) {
    forall d :: d in Info(s, k).result.dependencies && c.mustCheck(s.epoch, k, d.key) ==> CompleteNow(s, d.key)
  }

  lemma FinishVerdict(c: Client, s: State, r: ScanRequest, phase: Phase)
    requires CanFinish(c, s, r, phase)
    requires phase.NeedsToRun? ==> OutOfDate(c, s, r.rule) && (c.checksBefore(s.epoch, r.rule) ==> Checked(c, s, r.rule))
    requires phase.DoesNotNeedToRun? ==> UpToDate(c, s, r.rule)
    ensures VerdictOk(c, FinishHand(s, r.rule, phase), r.rule)
  {
    hide Stands;
    var s' := FinishHand(s, r.rule, phase);
    FinishOnly(c, s, r, phase);
    if phase.NeedsToRun? { OutOfDateFrame(c, s, s', r.rule, r.rule); }
  }

  /** An input that changed gives a reason to run. */
  lemma Rebuilt(c: Client, s: State, r: ScanRequest)
    requires ScanOk(c, s, r) && Scanning(s, r.rule) && InputDone(s, r) && InputRebuilt(s, r, r.input.value)
    ensures OutOfDate(c, s, r.rule)
    ensures c.checksBefore(s.epoch, r.rule) ==> ScanOk(c, s, r.(needsToRun := true))
  {
    hide Matches;
    var d := Info(s, r.rule).result.dependencies[r.index];
    assert Newer(s, r.rule, d);
  }

  lemma ScanningFacts(c: Client, s: State, r: ScanRequest)
    requires Inv(c, s) && s.building && InHand(s, r) && Scanning(s, r.rule)
    ensures ScanOk(c, s, r) && r.rule !in s.tasks && Info(s, r.rule).result.builtAt < s.epoch
  {
    hide ScanOk, RequestsOk, CountsOk, TasksOk, QueuesOk, OwnersOk, VerdictsOk, OwedOk, DemandsOk;
  }

  /** `h` is in hand; `r` is that request, possibly marked as needing to run. */
  lemma AdvanceKeeps(c: Client, s: State, h: ScanRequest, r: ScanRequest)
    requires Inv(c, s) && s.building && InHand(s, h) && Scanning(s, h.rule) && h.rule == r.rule && h.input == r.input
    requires ScanOk(c, s, r)
    requires SkipsDependency(c, s, r) || (InputDone(s, r) && !InputRebuilt(s, r, r.input.value))
    ensures Inv(c, Advance(s, r)) && Keeps(s, Advance(s, r))
  {
    hide Inv, ScanOk, VerdictOk, OutOfDate, UpToDate, Checked, Keeps, FinishHand, PutBack, InputRebuilt;
    ScanningFacts(c, s, h);
    if r.index + 1 != |Info(s, r.rule).result.dependencies| {
      AdvanceScanned(c, s, r);
      PutBackKeeps(c, s, h, Next(r));
    } else {
      AdvanceVerdict(c, s, r);
      var phase := if r.needsToRun then NeedsToRun else DoesNotNeedToRun;
      FinishVerdict(c, s, h, phase);
      FinishHandKeeps(c, s, h, phase);
    }
  }

  lemma ConcludeKeeps(c: Client, s: State, r: ScanRequest, d: KeyID)
    requires Inv(c, s) && s.building && InHand(s, r) && Scanning(s, r.rule) && r.input == Some(d) && CompleteNow(s, d)
    ensures Inv(c, Conclude(c, s, r, d)) && Keeps(s, Conclude(c, s, r, d))
  {
    hide Inv, ScanOk, VerdictOk, OutOfDate, UpToDate, Checked, Keeps, FinishHand, Advance;
    ScanningFacts(c, s, r);
    if !InputRebuilt(s, r, d) {
      AdvanceKeeps(c, s, r, r);
    } else {
      Rebuilt(c, s, r);
      if c.checksBefore(s.epoch, r.rule) {
        AdvanceKeeps(c, s, r, r.(needsToRun := true));
      } else {
        FinishVerdict(c, s, r, NeedsToRun);
        FinishHandKeeps(c, s, r, NeedsToRun);
      }
    }
  }

  lemma HandOn(s: State, r: ScanRequest, d: KeyID)
    requires InHand(s, r) && r.input == Some(d)
    ensures Hand(s, d)
  {
    assert r in s.curScan;
  }

  lemma KeepsTrans(s: State, s': State, s'': State)
    requires Keeps(s, s') && Keeps(s', s'')
    ensures Keeps(s, s'')
  {
  }

  /** A scanning rule stays scanning while its input is scanned and demanded. */
  lemma StillScanning(c: Client, s: State, k: KeyID, d: KeyID)
    requires Scanning(s, k)
    ensures Scanning(ScanRule(c, s, d), k)
    ensures Scanning(DemandRule(c, s, d), k)
  {
    hide WithoutSingleUse, FirstLook, StartScan, LaunchTask, SetComplete;
    StartScanOthers(s, d, Cleaned(Info(s, d).result), FirstLook(c, s.epoch, d, Cleaned(Info(s, d).result)), k);
    LaunchOthers(s, d, c.onStart(s.epoch, d), k);
    CompleteOthers(s, d, k);
    match Info(s, d).phase case DoesNotNeedToRun => case NeedsToRun => case _ =>
  }

  lemma StartScanOthers(s: State, d: KeyID, res: Result, look: Look, k: KeyID)
    ensures k != d ==> Info(StartScan(s, d, res, look), k) == Info(s, k)
  {
    match look case MustRun => case MayStay => case MustScan(_) =>
  }

  lemma LaunchOthers(s: State, d: KeyID, asks: seq<Dependency>, k: KeyID)
    ensures k != d ==> Info(LaunchTask(s, d, asks), k) == Info(s, k)
  {
    hide Requests, Asking, PushIf;
  }

  lemma CompleteOthers(s: State, d: KeyID, k: KeyID)
    ensures k != d ==> Info(SetComplete(s, d), k) == Info(s, k)
  {
  }

  lemma AfterLookUpKeeps(c: Client, s: State, r: ScanRequest, d: KeyID)
    requires Inv(c, s) && s.building && InHand(s, r) && Scanning(s, r.rule) && r.input == Some(d)
    ensures Inv(c, AfterLookUp(c, s, r, d)) && Keeps(s, AfterLookUp(c, s, r, d))
  {
    hide Inv, ScanRule, DemandRule, DeferOnScan, DeferOnTask, Conclude, Keeps, Hand, Scanning, InProgress, CompleteNow, Verdict;
    HandOn(s, r, d);
    ScanRuleKeeps(c, s, d);
    ScanRuleMarks(c, s, d);
    StillScanning(c, s, r.rule, d);
    var s2 := ScanRule(c, s, d);
    if Scanning(s2, d) {
      DeferOnScanKeeps(c, s2, r, d);
      KeepsTrans(s, s2, DeferOnScan(s2, r, d));
    } else {
      var s3 := DemandRule(c, s2, d);
      DemandRuleKeeps(c, s2, d);
      DemandRuleMarks(c, s2, d);
      StillScanning(c, s2, r.rule, d);
      KeepsTrans(s, s2, s3);
      if CompleteNow(s3, d) {
        ConcludeKeeps(c, s3, r, d);
        KeepsTrans(s, s3, Conclude(c, s3, r, d));
      } else {
        DeferOnTaskKeeps(c, s3, r, d);
        KeepsTrans(s, s3, DeferOnTask(s3, r, d));
      }
    }
  }

  lemma ProcessScanKeeps(c: Client, s: State, r: ScanRequest)
    requires Inv(c, s) && s.building && InHand(s, r) && (r.input.Some? ==> IsScanned(s, r.input.value))
    ensures Inv(c, ProcessScan(c, s, r)) && Keeps(s, ProcessScan(c, s, r))
  {
    hide Inv, AfterLookUp, Advance, Keeps, ScanOk, IsScanned;
    if !Scanning(s, r.rule) {
      DropKeeps(c, s, r);
    } else if SkipsDependency(c, s, r) {
      ScanningFacts(c, s, r);
      AdvanceKeeps(c, s, r, r);
    } else {
      LookUpKeeps(c, s, r);
      var r1 := LookUp(s, r);
      var s1 := s.(curScan := [r1]);
      AfterLookUpKeeps(c, s1, r1, r1.input.value);
      KeepsTrans(s, s1, AfterLookUp(c, s1, r1, r1.input.value));
    }
  }

  /** Processing one scan request keeps the invariant. */
  lemma ScanOneKeeps(c: Client, s: State)
    requires Inv(c, s) && s.building && s.ruleInfosToScan != [] && s.curScan == [] && s.curInput == []
    ensures Inv(c, ScanOne(c, s)) && Keeps(s, ScanOne(c, s))
  {
    hide Inv, ProcessScan, Keeps, IsScanned, TakeScan, InHand;
    var r := Last(s.ruleInfosToScan);
    if r.input.Some? { InputScanned(c, s, r); }
    TakeScanKeeps(c, s);
    TakeScanSame(s);
    ProcessScanKeeps(c, TakeScan(s), r);
    KeepsTrans(s, TakeScan(s), ProcessScan(c, TakeScan(s), r));
  }

  lemma InputScanned(c: Client, s: State, r: ScanRequest)
    requires Inv(c, s) && r in s.ruleInfosToScan && r.input.Some?
    ensures IsScanned(s, r.input.value)
  {
    hide Shape, TimesOk, RequestsOk, CountsOk, TasksOk, QueuesOk, OwnersOk, ScansOk, VerdictsOk, OwedOk;
  }

  lemma TakeScanSame(s: State)
    requires s.ruleInfosToScan != [] && s.curInput == []
    ensures var r := Last(s.ruleInfosToScan);
      && InHand(TakeScan(s), r) && TakeScan(s).building == s.building
      && (r.input.Some? && IsScanned(s, r.input.value) ==> IsScanned(TakeScan(s), r.input.value))
  {
  }
}
