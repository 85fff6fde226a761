/** `scanRule` and `demandRule` keep the invariant. */
module EngineRules {
  import opened Options
  import opened EngineState
  import opened EngineSteps
  import opened EngineCounts
  import opened EngineInvariant
  import opened EngineFrames

  /** The request being processed is about `k`. */
  ghost predicate Hand(s: State, k: KeyID) {
    (exists r :: r in s.curInput && r.input == k) || (exists r :: r in s.curScan && r.input == Some(k))
  }

  // ---- scanRule --------------------------------------------------------------------------

  lemma SetVerdict(c: Client, s: State, k: KeyID, ri: RuleInfo)
    requires Inv(c, s) && Hand(s, k) && !IsScanned(s, k) && !Scanning(s, k) && k !in s.tasks
    requires ri.phase.NeedsToRun? || ri.phase.DoesNotNeedToRun?
    requires ri.result.builtAt == Info(s, k).result.builtAt < s.epoch
    requires VerdictOk(c, SetInfo(s, k, ri), k)
    ensures Inv(c, SetInfo(s, k, ri)) && Keeps(s, SetInfo(s, k, ri))
  {
    hide Inv, VerdictOk;
    var s' := SetInfo(s, k, ri);
    assert Demander(s', k);
    assert Only(s, s', k) && SameRequests(s, s') && SameScans(s, s') && SameQueues(s, s') && ScanStable(s, s', k);
    assert !InProgress(s, k) && !InProgress(s', k) && !Scanning(s', k);
    OneRule(c, s, s', k);
  }

  lemma NoOwner(c: Client, s: State, k: KeyID)
    requires ScansOk(c, s) && !IsScanned(s, k) && !Scanning(s, k)
    ensures AllOwners(s)[k] == 0
  {
    hide Scanned, Owners, FlatOwners;
    if k in Owners(s.ruleInfosToScan) { OwnersMember(s.ruleInfosToScan, k); }
    if k in Owners(s.curScan) { OwnersMember(s.curScan, k); }
    if k in FlatOwners(s.deferred) { FlatOwnersMember(s.deferred, k); }
    if k in FlatOwners(s.taskDeferred) { FlatOwnersMember(s.taskDeferred, k); }
  }

  ghost predicate CanScan(c: Client, s: State, k: KeyID, ri: RuleInfo, needsToRun: bool) {
    && !IsScanned(s, k) && !Scanning(s, k) && k !in s.tasks && k !in s.paused && k !in s.deferred && ri.phase.IsScanning?
    && ri.result.builtAt == Info(s, k).result.builtAt && 0 < ri.result.builtAt < s.epoch && ri.result.dependencies != []
    && Stands(c, s.epoch, k, ri.result) == !needsToRun && (needsToRun ==> c.checksBefore(s.epoch, k))
  }

  lemma BeginScanOnly(c: Client, s: State, k: KeyID, ri: RuleInfo, n: bool)
    requires CanScan(c, s, k, ri, n)
    ensures Only(s, BeginScan(s, k, ri, n), k)
  {
  }

  lemma BeginScanShape(c: Client, s: State, k: KeyID, ri: RuleInfo, n: bool)
    requires Shape(s) && CanScan(c, s, k, ri, n)
    ensures Shape(BeginScan(s, k, ri, n))
  {
    BeginScanOnly(c, s, k, ri, n);
  }

  lemma BeginScanTimes(c: Client, s: State, k: KeyID, ri: RuleInfo, n: bool)
    requires TimesOk(s) && CanScan(c, s, k, ri, n)
    ensures TimesOk(BeginScan(s, k, ri, n))
  {
    BeginScanOnly(c, s, k, ri, n);
  }

  lemma BeginScanRequests(c: Client, s: State, k: KeyID, ri: RuleInfo, n: bool)
    requires RequestsOk(s) && CanScan(c, s, k, ri, n)
    ensures RequestsOk(BeginScan(s, k, ri, n))
  {
    BeginScanOnly(c, s, k, ri, n);
  }

  lemma BeginScanCounts(s: State, k: KeyID, ri: RuleInfo, n: bool)
    requires CountsOk(s) && k !in s.paused
    ensures CountsOk(BeginScan(s, k, ri, n))
  {
    hide Ids, FlatIds, Below;
    var s' := BeginScan(s, k, ri, n);
    forall t | t in s'.tasks ensures Counted(s', t) {
      assert Counted(s, t);
      FlatIdsNew(s.paused, t, k);
    }
  }

  lemma BeginScanScans(c: Client, s: State, k: KeyID, ri: RuleInfo, n: bool)
    requires ScansOk(c, s) && CanScan(c, s, k, ri, n)
    ensures ScansOk(c, BeginScan(s, k, ri, n))
  {
    var s' := BeginScan(s, k, ri, n);
    BeginScanOnly(c, s, k, ri, n);
    forall r: ScanRequest | ScanOk(c, s, r) ensures ScanOk(c, s', r) { ScanFrame(c, s, s', k, r); }
  }

  lemma BeginScanOwners(c: Client, s: State, k: KeyID, ri: RuleInfo, n: bool)
    requires ScansOk(c, s) && OwnersOk(s) && CanScan(c, s, k, ri, n)
    ensures OwnersOk(BeginScan(s, k, ri, n))
  {
    hide ScansOk, Matches, Owners, FlatOwners;
    var s' := BeginScan(s, k, ri, n);
    NoOwner(c, s, k);
    BeginScanOnly(c, s, k, ri, n);
    OwnersAppend(s.ruleInfosToScan, ScanRequest(k, 0, None, false, n));
    FlatOwnersNew(s.deferred, k);
    assert AllOwners(s') == AllOwners(s) + multiset{k};
  }

  lemma BeginScanOwed(c: Client, s: State, k: KeyID, ri: RuleInfo, n: bool)
    requires OwedOk(s) && CanScan(c, s, k, ri, n)
    ensures OwedOk(BeginScan(s, k, ri, n))
  {
    var s' := BeginScan(s, k, ri, n);
    BeginScanOnly(c, s, k, ri, n);
    forall d | PendingDummy(s, d) ensures PendingDummy(s', d) {}
  }

  lemma BeginScanDemands(c: Client, s: State, k: KeyID, ri: RuleInfo, n: bool)
    requires DemandsOk(s) && CanScan(c, s, k, ri, n) && Hand(s, k)
    ensures DemandsOk(BeginScan(s, k, ri, n))
  {
    var s' := BeginScan(s, k, ri, n);
    BeginScanOnly(c, s, k, ri, n);
    forall x | Demander(s, x) ensures Demander(s', x) {}
  }

  lemma BeginScanSame(c: Client, s: State, k: KeyID, ri: RuleInfo, n: bool)
    requires CanScan(c, s, k, ri, n)
    ensures var s' := BeginScan(s, k, ri, n);
      && k !in s.tasks && k !in s.paused && s'.tasks == s.tasks && SameQueues(s, s')
      && !InProgress(s, k) && !InProgress(s', k) && VerdictOk(c, s', k)
  {
    hide Matches, Newer, Unchanged, OutOfDate, UpToDate;
  }

  lemma BeginScanKeeps(c: Client, s: State, k: KeyID, ri: RuleInfo, n: bool)
    requires Inv(c, s) && CanScan(c, s, k, ri, n) && Hand(s, k)
    ensures Inv(c, BeginScan(s, k, ri, n)) && Keeps(s, BeginScan(s, k, ri, n))
  {
    hide *;
    var s' := BeginScan(s, k, ri, n);
    Unpack(c, s);
    BeginScanOnly(c, s, k, ri, n);
    BeginScanSame(c, s, k, ri, n);
    KeepsFrame(s, s', k);
    BeginScanShape(c, s, k, ri, n);
    BeginScanTimes(c, s, k, ri, n);
    BeginScanRequests(c, s, k, ri, n);
    BeginScanCounts(s, k, ri, n);
    TasksFrame(s, s', k);
    QueuesFrame(s, s', k);
    BeginScanScans(c, s, k, ri, n);
    BeginScanOwners(c, s, k, ri, n);
    VerdictsFrame(c, s, s', k);
    BeginScanOwed(c, s, k, ri, n);
    BeginScanDemands(c, s, k, ri, n);
    Pack(c, s');
  }

  /** What each outcome of `scanRule`'s tests says about the stored result. */
  ghost predicate Justifies(c: Client, epoch: nat, k: KeyID, res: Result, look: Look) {
    match look
    case MustRun => !Stands(c, epoch, k, res) && (res.builtAt == 0 || !c.checksBefore(epoch, k) || res.dependencies == [])
    case MayStay => Stands(c, epoch, k, res) && res.dependencies == []
    case MustScan(n) => res.dependencies != [] && res.builtAt != 0 && Stands(c, epoch, k, res) == !n && (n ==> c.checksBefore(epoch, k))
  }

  lemma LookIsRight(c: Client, epoch: nat, k: KeyID, res: Result)
    ensures Justifies(c, epoch, k, res, FirstLook(c, epoch, k, res))
  {
  }

  lemma VerdictJustified(c: Client, s: State, k: KeyID, res: Result, look: Look)
    requires Justifies(c, s.epoch, k, res, look)
    ensures look.MustRun? ==> VerdictOk(c, SetInfo(s, k, RuleInfo(NeedsToRun, res, false)), k)
    ensures look.MayStay? ==> VerdictOk(c, SetInfo(s, k, RuleInfo(DoesNotNeedToRun, res, false)), k)
  {
    hide Newer, Unchanged, Stands;
  }

  lemma StartVerdictKeeps(c: Client, s: State, k: KeyID, res: Result, look: Look)
    requires Inv(c, s) && s.building && Hand(s, k) && !IsScanned(s, k) && !Scanning(s, k)
    requires res.builtAt == Info(s, k).result.builtAt && Justifies(c, s.epoch, k, res, look)
    requires look.MustRun? || look.MayStay?
    ensures Inv(c, StartScan(s, k, res, look)) && Keeps(s, StartScan(s, k, res, look))
  {
    hide Inv, Hand, Keeps, VerdictOk, IsScanned, Scanning, Justifies;
    NotStarted(c, s, k);
    VerdictJustified(c, s, k, res, look);
    if look.MustRun? {
      SetVerdict(c, s, k, RuleInfo(NeedsToRun, res, false));
    } else {
      SetVerdict(c, s, k, RuleInfo(DoesNotNeedToRun, res, false));
    }
  }

  lemma CanScanJustified(c: Client, s: State, k: KeyID, res: Result, look: Look)
    requires !IsScanned(s, k) && !Scanning(s, k) && k !in s.tasks && k !in s.paused && k !in s.deferred
    requires res.builtAt == Info(s, k).result.builtAt < s.epoch && look.MustScan? && Justifies(c, s.epoch, k, res, look)
    ensures CanScan(c, s, k, RuleInfo(IsScanning, res, false), look.needsToRun)
  {
    hide IsScanned, Scanning, Stands;
  }

  lemma StartRecordKeeps(c: Client, s: State, k: KeyID, res: Result, look: Look)
    requires Inv(c, s) && s.building && Hand(s, k) && !IsScanned(s, k) && !Scanning(s, k)
    requires res.builtAt == Info(s, k).result.builtAt && Justifies(c, s.epoch, k, res, look)
    requires look.MustScan?
    ensures Inv(c, StartScan(s, k, res, look)) && Keeps(s, StartScan(s, k, res, look))
  {
    hide Inv, Hand, Keeps, IsScanned, Scanning, CanScan, Justifies;
    NotStarted(c, s, k);
    CanScanJustified(c, s, k, res, look);
    BeginScanKeeps(c, s, k, RuleInfo(IsScanning, res, false), look.needsToRun);
  }

  lemma StartScanKeeps(c: Client, s: State, k: KeyID, res: Result, look: Look)
    requires Inv(c, s) && s.building && Hand(s, k) && !IsScanned(s, k) && !Scanning(s, k)
    requires res.builtAt == Info(s, k).result.builtAt && Justifies(c, s.epoch, k, res, look)
    ensures Inv(c, StartScan(s, k, res, look)) && Keeps(s, StartScan(s, k, res, look))
  {
    hide *;
    match look
    case MustRun => StartVerdictKeeps(c, s, k, res, look);
    case MayStay => StartVerdictKeeps(c, s, k, res, look);
    case MustScan(_) => StartRecordKeeps(c, s, k, res, look);
  }

  lemma KeepsItself(s: State)
    ensures Keeps(s, s)
  {
  }

  /** The parts of the state that `scanRule` never touches. */
  ghost predicate SameBuild(s: State, s': State) {
    && s'.curScan == s.curScan && s'.curInput == s.curInput && s'.building == s.building
    && s'.tidy == s.tidy && s'.broken == s.broken && s'.epoch == s.epoch && s'.db == s.db && s'.owed == s.owed
    && s'.cancelled == s.cancelled && s'.finishedTaskInfos == s.finishedTaskInfos
  }

  lemma StartScanMarks(s: State, k: KeyID, res: Result, look: Look)
    ensures var s' := StartScan(s, k, res, look); Verdict(s', k) || Scanning(s', k)
    ensures SameBuild(s, StartScan(s, k, res, look))
  {
    match look case MustRun => case MayStay => case MustScan(_) =>
  }

  lemma ScanRuleMarks(c: Client, s: State, k: KeyID)
    ensures IsScanned(ScanRule(c, s, k), k) || Scanning(ScanRule(c, s, k), k)
    ensures SameBuild(s, ScanRule(c, s, k))
  {
    hide WithoutSingleUse, FirstLook, StartScan;
    StartScanMarks(s, k, Cleaned(Info(s, k).result), FirstLook(c, s.epoch, k, Cleaned(Info(s, k).result)));
  }

  /** `scanRule` keeps the invariant. */
  lemma ScanRuleKeeps(c: Client, s: State, k: KeyID)
    requires Inv(c, s) && s.building && Hand(s, k)
    ensures Inv(c, ScanRule(c, s, k)) && Keeps(s, ScanRule(c, s, k))
  {
    hide Inv, Hand, WithoutSingleUse, Keeps, StartScan, FirstLook, Justifies;
    if !IsScanned(s, k) && !Scanning(s, k) {
      var res := Cleaned(Info(s, k).result);
      LookIsRight(c, s.epoch, k, res);
      StartScanKeeps(c, s, k, res, FirstLook(c, s.epoch, k, res));
    } else {
      KeepsItself(s);
    }
  }

  lemma NotStarted(c: Client, s: State, k: KeyID)
    requires Inv(c, s) && s.building && !IsScanned(s, k) && !Scanning(s, k)
    ensures k !in s.tasks && k !in s.paused && k !in s.deferred && Info(s, k).result.builtAt < s.epoch
  {
    hide RequestsOk, CountsOk, TasksOk, QueuesOk, OwnersOk, ScansOk, VerdictsOk, OwedOk, DemandsOk;
  }

  // ---- demandRule ------------------------------------------------------------------------

  lemma SetCompleteKeeps(c: Client, s: State, k: KeyID)
    requires Inv(c, s) && s.building && Info(s, k).phase.DoesNotNeedToRun?
    ensures Inv(c, SetComplete(s, k)) && Keeps(s, SetComplete(s, k)) && CompleteNow(SetComplete(s, k), k)
  {
    hide Inv;
    var s' := SetComplete(s, k);
    NoTask(c, s, k);
    assert Only(s, s', k) && SameRequests(s, s') && SameScans(s, s') && SameQueues(s, s') && ScanStable(s, s', k);
    assert VerdictOk(c, s', k) && CompleteNow(s', k) && !Verdict(s', k);
    assert !InProgress(s, k) && !InProgress(s', k) && !Scanning(s, k) && !Scanning(s', k) && s'.db == s.db && s'.tasks == s.tasks;
    OneRule(c, s, s', k);
  }

  lemma NoTask(c: Client, s: State, k: KeyID)
    requires Inv(c, s) && s.building && Verdict(s, k)
    ensures k !in s.tasks && k !in s.requestedBy && k !in s.taskDeferred && k !in s.created && Info(s, k).result.builtAt < s.epoch
  {
    hide RequestsOk, CountsOk, TasksOk, OwnersOk, ScansOk, VerdictsOk, OwedOk, DemandsOk;
  }
}
