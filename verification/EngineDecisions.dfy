/** Which rules a build runs, and which it leaves as they are: a rule is run if and only if it was out
    of date, judged by the result it had before the build and the inputs that are complete. */
module EngineDecisions {
  import opened Options
  import opened EngineState
  import opened EngineSteps
  import opened EngineInvariant
  import opened EngineFrames
  import opened EngineRules
  import opened EngineDemand
  import opened EngineScanning
  import opened EngineInputs
  import opened EngineRuns
  import opened EngineTheorems
  import opened EngineValues
  import opened EngineSince

  // ---- Decisions ------------------------------------------------------------------------------------

  /** The build has decided to run rule `k`, or has run it. */
  predicate Runs(s: State, k: KeyID) {
    Info(s, k).phase.NeedsToRun? || k in s.created
  }

  /** The build has decided to leave rule `k` as it is. */
  predicate LeavesAlone(s: State, k: KeyID) {
    Info(s, k).phase.DoesNotNeedToRun? || (CompleteNow(s, k) && k !in s.created)
  }

  /** The result of rule `k` before the build, as a scan would find it. */
  function Was(s0: State, k: KeyID): Result {
    Cleaned(Info(s0, k).result)
  }

  ghost predicate NewerThan(s: State, was: Result, d: Dependency) {
    !d.orderOnly && CompleteNow(s, d.key) && was.builtAt < Info(s, d.key).result.computedAt
  }

  ghost predicate NoNewerThan(s: State, was: Result, d: Dependency) {
    CompleteNow(s, d.key) && (d.orderOnly || Info(s, d.key).result.computedAt <= was.builtAt)
  }

  /** Never built, changed, no longer valid, or built before one of its inputs was computed. */
  ghost predicate WasOutOfDate(c: Client, s: State, k: KeyID, was: Result) {
    !Stands(c, s.epoch, k, was) || exists d :: d in was.dependencies && NewerThan(s, was, d)
  }

  ghost predicate WasUpToDate(c: Client, s: State, k: KeyID, was: Result) {
    Stands(c, s.epoch, k, was) && forall d :: d in was.dependencies ==> NoNewerThan(s, was, d)
  }

  /** The dependencies the rule wanted checked before running are complete. */
  ghost predicate WasChecked(c: Client, s: State, k: KeyID, was: Result) {
    c.checksBefore(s.epoch, k) && was.builtAt != 0 ==>
      forall d :: d in was.dependencies && c.mustCheck(s.epoch, k, d.key) ==> CompleteNow(s, d.key)
  }

  lemma NeverBoth(c: Client, s: State, k: KeyID, was: Result)
    ensures !(WasOutOfDate(c, s, k, was) && WasUpToDate(c, s, k, was))
  {
    forall d | d in was.dependencies && NewerThan(s, was, d) ensures !NoNewerThan(s, was, d) {}
  }

  // ---- What every step keeps --------------------------------------------------------------------------

  /** Rules that have got a task were out of date, unless they were forced; rules that were completed
      without one were up to date. */
  ghost predicate TakenRight(c: Client, s0: State, s: State, k: KeyID) {
    && (k in s.created && !Info(s, k).wasForced ==> WasOutOfDate(c, s, k, Was(s0, k)) && WasChecked(c, s, k, Was(s0, k)))
    && (CompleteNow(s, k) && k !in s.created ==> WasUpToDate(c, s, k, Was(s0, k)))
  }

  ghost predicate AllRight(c: Client, s0: State, s: State) {
    s.tidy ==> forall k :: TakenRight(c, s0, s, k)
  }

  /** What is complete stays complete with its result, so reasons stay reasons. */
  lemma ReasonsStay(c: Client, s: State, s': State, k: KeyID, was: Result)
    requires Keeps(s, s')
    ensures WasOutOfDate(c, s, k, was) ==> WasOutOfDate(c, s', k, was)
    ensures WasUpToDate(c, s, k, was) ==> WasUpToDate(c, s', k, was)
    ensures WasChecked(c, s, k, was) ==> WasChecked(c, s', k, was)
  {
    forall d | NewerThan(s, was, d) ensures NewerThan(s', was, d) { assert Info(s', d.key) == Info(s, d.key); }
    forall d | NoNewerThan(s, was, d) ensures NoNewerThan(s', was, d) { assert Info(s', d.key) == Info(s, d.key); }
    forall x | CompleteNow(s, x) ensures CompleteNow(s', x) { assert Info(s', x) == Info(s, x); }
  }

  /** No task is created, and nothing becomes complete that had none. */
  ghost predicate Steady(s: State, s': State) {
    && s'.tidy == s.tidy && s'.created == s.created
    && forall k :: (k in s.created ==> Info(s', k).wasForced == Info(s, k).wasForced)
                   && (CompleteNow(s', k) ==> CompleteNow(s, k) || k in s.created)
  }

  lemma SteadyRight(c: Client, s0: State, s: State, s': State)
    requires AllRight(c, s0, s) && Steady(s, s') && Keeps(s, s')
    ensures AllRight(c, s0, s')
  {
    hide Keeps, WasOutOfDate, WasUpToDate, WasChecked, Was;
    forall k | s'.tidy ensures TakenRight(c, s0, s', k) {
      assert TakenRight(c, s0, s, k);
      ReasonsStay(c, s, s', k, Was(s0, k));
    }
  }

  // ---- Taking a decision --------------------------------------------------------------------------------

  /** A rule with a verdict still has the result it had, so its reasons are those. */
  lemma VerdictReasons(plain: bool, c: Client, s0: State, s: State, k: KeyID)
    requires VerdictsOk(c, s) && s.tidy && RuleSince(plain, s0, s, k) && Verdict(s, k)
    ensures Info(s, k).phase.DoesNotNeedToRun? ==> WasUpToDate(c, s, k, Was(s0, k))
    ensures Info(s, k).phase.NeedsToRun? && !Info(s, k).wasForced ==> WasOutOfDate(c, s, k, Was(s0, k)) && WasChecked(c, s, k, Was(s0, k))
  {
    assert VerdictOk(c, s, k);
    assert Info(s, k).result == Was(s0, k) by { hide Cleaned, Stamped; }
    hide Cleaned, Stamped;
    var was := Was(s0, k);
    forall d ensures NewerThan(s, was, d) == Newer(s, k, d) && NoNewerThan(s, was, d) == Unchanged(s, k, d) {}
  }

  lemma LaunchRight(plain: bool, c: Client, s0: State, s: State, k: KeyID, asks: seq<Dependency>)
    requires AllRight(c, s0, s) && VerdictsOk(c, s) && RuleSince(plain, s0, s, k) && Info(s, k).phase.NeedsToRun?
    requires Keeps(s, LaunchTask(s, k, asks))
    ensures AllRight(c, s0, LaunchTask(s, k, asks))
  {
    var s' := LaunchTask(s, k, asks);
    LaunchedOne(s, k, asks);
    hide WasOutOfDate, WasUpToDate, WasChecked, RuleSince, VerdictsOk, Was, LaunchTask, Keeps;
    if s.tidy {
      VerdictReasons(plain, c, s0, s, k);
      forall x ensures TakenRight(c, s0, s', x) {
        assert TakenRight(c, s0, s, x);
        ReasonsStay(c, s, s', x, Was(s0, x));
      }
    }
  }

  lemma LaunchedOne(s: State, k: KeyID, asks: seq<Dependency>)
    ensures var s' := LaunchTask(s, k, asks);
      && s'.tidy == s.tidy && s'.created == s.created + [k] && s'.epoch == s.epoch
      && Info(s', k).wasForced == Info(s, k).wasForced && !CompleteNow(s', k) && forall x :: x != k ==> Info(s', x) == Info(s, x)
  {
    hide Asking, Requests, PushIf;
  }

  lemma CompleteRight(plain: bool, c: Client, s0: State, s: State, k: KeyID)
    requires AllRight(c, s0, s) && VerdictsOk(c, s) && RuleSince(plain, s0, s, k) && Info(s, k).phase.DoesNotNeedToRun? && k !in s.created
    requires Keeps(s, SetComplete(s, k))
    ensures AllRight(c, s0, SetComplete(s, k))
  {
    var s' := SetComplete(s, k);
    forall x | x != k ensures Info(s', x) == Info(s, x) {}
    hide WasOutOfDate, WasUpToDate, WasChecked, RuleSince, VerdictsOk, Was, SetComplete, Keeps;
    if s.tidy {
      VerdictReasons(plain, c, s0, s, k);
      forall x ensures TakenRight(c, s0, s', x) {
        assert TakenRight(c, s0, s, x);
        ReasonsStay(c, s, s', x, Was(s0, x));
      }
    }
  }

  lemma NotCreated(c: Client, s: State, k: KeyID)
    requires QueuesOk(s) && Verdict(s, k)
    ensures k !in s.created
  {
    hide NoDuplicates, ComputingSet;
    var _ := Info(s, k);
  }

  lemma DemandRight(plain: bool, c: Client, s0: State, s: State, k: KeyID)
    requires AllRight(c, s0, s) && Inv(c, s) && s.building && Since(plain, s0, s)
    ensures AllRight(c, s0, DemandRule(c, s, k))
  {
    hide AllRight, Inv, Keeps, LaunchTask, SetComplete, Since, QueuesOk, VerdictsOk, RuleSince;
    Unpack(c, s);
    DemandRuleKeeps(c, s, k);
    SinceAt(plain, s0, s, k);
    if Info(s, k).phase.DoesNotNeedToRun? {
      NotCreated(c, s, k);
      CompleteRight(plain, c, s0, s, k);
    } else if Info(s, k).phase.NeedsToRun? {
      LaunchRight(plain, c, s0, s, k, c.onStart(s.epoch, k));
    }
  }

  // ---- Operations that decide nothing --------------------------------------------------------------------

  lemma ScanRuleSteady(c: Client, s: State, k: KeyID)
    requires QueuesOk(s)
    ensures Steady(s, ScanRule(c, s, k))
  {
    hide QueuesOk, FirstLook, WithoutSingleUse;
    if !IsScanned(s, k) && !Scanning(s, k) {
      CreatedScanned(s, k);
      StartScanSteady(s, k, Cleaned(Info(s, k).result), FirstLook(c, s.epoch, k, Cleaned(Info(s, k).result)));
    }
  }

  lemma CreatedScanned(s: State, k: KeyID)
    requires QueuesOk(s) && !IsScanned(s, k)
    ensures k !in s.created
  {
    hide NoDuplicates, ComputingSet;
    var _ := Info(s, k);
  }

  lemma StartScanSteady(s: State, k: KeyID, res: Result, look: Look)
    requires k !in s.created
    ensures Steady(s, StartScan(s, k, res, look))
  {
    var s' := StartScan(s, k, res, look);
    forall x | x != k ensures Info(s', x) == Info(s, x) { match look case MustRun => case MayStay => case MustScan(_) => }
    match look case MustRun => case MayStay => case MustScan(_) =>
  }

  lemma MovedSteady(s: State, s': State)
    requires s'.rules == s.rules && s'.db == s.db && s'.epoch == s.epoch && s'.tidy == s.tidy && s'.created == s.created
    ensures Steady(s, s') && Keeps(s, s')
  {
    forall k ensures Info(s', k) == Info(s, k) {}
  }

  /** The phase of one rule changes, and it does not become complete. */
  lemma PhaseSteady(s: State, s': State, k: KeyID)
    requires s'.epoch == s.epoch && s'.tidy == s.tidy && s'.created == s.created && !CompleteNow(s, k) && !CompleteNow(s', k)
    requires Info(s', k).wasForced == Info(s, k).wasForced && forall x :: x != k ==> Info(s', x) == Info(s, x)
    ensures Steady(s, s') && Keeps(s, s')
  {
    forall x | CompleteNow(s, x) ensures Info(s', x) == Info(s, x) {}
  }

  lemma AdvanceSteady(s: State, r: ScanRequest)
    requires Scanning(s, r.rule)
    ensures Steady(s, Advance(s, r)) && Keeps(s, Advance(s, r))
  {
    hide Keeps, Steady;
    if r.index + 1 != |Info(s, r.rule).result.dependencies| {
      MovedSteady(s, PutBack(s, Next(r)));
    } else {
      FinishSteady(s, r.rule, if r.needsToRun then NeedsToRun else DoesNotNeedToRun);
    }
  }

  lemma FinishSteady(s: State, k: KeyID, phase: Phase)
    requires Scanning(s, k) && !phase.Complete?
    ensures Steady(s, FinishHand(s, k, phase)) && Keeps(s, FinishHand(s, k, phase))
  {
    var s' := FinishHand(s, k, phase);
    forall x | x != k ensures Info(s', x) == Info(s, x) {}
    hide Keeps, Steady;
    PhaseSteady(s, s', k);
  }

  lemma ConcludeSteady(c: Client, s: State, r: ScanRequest, d: KeyID)
    requires Scanning(s, r.rule)
    ensures Steady(s, Conclude(c, s, r, d)) && Keeps(s, Conclude(c, s, r, d))
  {
    hide Keeps, Steady, Advance, FinishHand, InputRebuilt;
    if !InputRebuilt(s, r, d) {
      AdvanceSteady(s, r);
    } else if c.checksBefore(s.epoch, r.rule) {
      AdvanceSteady(s, r.(needsToRun := true));
    } else {
      FinishSteady(s, r.rule, NeedsToRun);
    }
  }

  lemma RecordSteady(s: State, r: InputRequest, t: KeyID)
    requires Waiting(s, t)
    ensures Steady(s, Record(s, r, t)) && Keeps(s, Record(s, r, t))
  {
    hide Record, Recorded;
    var s1 := Recorded(s, r, t);
    RecordedOne(s, r, t);
    RecordNoRule(s, r, t);
    hide Keeps, Steady;
    PhaseSteady(s, s1, t);
    MovedSteady(s1, Record(s, r, t));
    SteadyTrans(s, s1, Record(s, r, t));
  }

  lemma SteadyTrans(s: State, s1: State, s': State)
    requires Steady(s, s1) && Keeps(s, s1) && Steady(s1, s') && Keeps(s1, s')
    ensures Steady(s, s') && Keeps(s, s')
  {
    forall k | CompleteNow(s, k) ensures Info(s', k) == Info(s, k) { assert CompleteNow(s1, k); }
  }

  // ---- Scan requests and input requests -------------------------------------------------------------------

  lemma AfterLookUpRight(plain: bool, c: Client, s0: State, s: State, r: ScanRequest, d: KeyID)
    requires AllRight(c, s0, s) && Since(plain, s0, s) && Inv(c, s) && s.building && InHand(s, r) && Scanning(s, r.rule) && r.input == Some(d)
    ensures AllRight(c, s0, AfterLookUp(c, s, r, d))
  {
    hide AllRight, Since, Inv, ScanRule, DemandRule, Conclude, Keeps, Hand, Scanning, InProgress, CompleteNow, Verdict, Steady, QueuesOk;
    HandOn(s, r, d);
    ScanRuleKeeps(c, s, d);
    ScanRuleMarks(c, s, d);
    StillScanning(c, s, r.rule, d);
    ScanRuleSince(plain, c, s0, s, d);
    assert QueuesOk(s) by { Unpack(c, s); }
    ScanRuleSteady(c, s, d);
    var s2 := ScanRule(c, s, d);
    SteadyRight(c, s0, s, s2);
    if Scanning(s2, d) {
      MovedSteady(s2, DeferOnScan(s2, r, d));
      SteadyRight(c, s0, s2, DeferOnScan(s2, r, d));
    } else {
      var s3 := DemandRule(c, s2, d);
      DemandRight(plain, c, s0, s2, d);
      StillScanning(c, s2, r.rule, d);
      if CompleteNow(s3, d) {
        ConcludeSteady(c, s3, r, d);
        SteadyRight(c, s0, s3, Conclude(c, s3, r, d));
      } else {
        MovedSteady(s3, DeferOnTask(s3, r, d));
        SteadyRight(c, s0, s3, DeferOnTask(s3, r, d));
      }
    }
  }

  lemma ProcessScanRight(plain: bool, c: Client, s0: State, s: State, r: ScanRequest)
    requires AllRight(c, s0, s) && Since(plain, s0, s) && Inv(c, s) && s.building && InHand(s, r)
    ensures AllRight(c, s0, ProcessScan(c, s, r))
  {
    hide AllRight, Since, Inv, AfterLookUp, Advance, Keeps, Steady, InHand;
    if !Scanning(s, r.rule) {
      MovedSteady(s, s.(curScan := []));
      SteadyRight(c, s0, s, s.(curScan := []));
    } else if SkipsDependency(c, s, r) {
      AdvanceSteady(s, r);
      SteadyRight(c, s0, s, Advance(s, r));
    } else {
      LookUpKeeps(c, s, r);
      var r1 := LookUp(s, r);
      var s1 := s.(curScan := [r1]);
      MovedSteady(s, s1);
      SteadyRight(c, s0, s, s1);
      NoRuleSince(plain, s0, s, s1);
      HeldNow(s, r);
      AfterLookUpRight(plain, c, s0, s1, r1, r1.input.value);
    }
  }

  lemma HeldNow(s: State, r: ScanRequest)
    requires InHand(s, r)
    ensures InHand(s.(curScan := [LookUp(s, r)]), LookUp(s, r)) && LookUp(s, r).rule == r.rule
    ensures Scanning(s.(curScan := [LookUp(s, r)]), r.rule) == Scanning(s, r.rule)
  {
  }

  lemma ScanOneRight(plain: bool, c: Client, s0: State, s: State)
    requires AllRight(c, s0, s) && Since(plain, s0, s) && Inv(c, s) && s.building && s.ruleInfosToScan != [] && s.curScan == [] && s.curInput == []
    ensures AllRight(c, s0, ScanOne(c, s))
  {
    hide AllRight, Since, Inv, ProcessScan, Keeps, Steady, InHand, IsScanned;
    TakeScanKeeps(c, s);
    TakeScanSame(s);
    MovedSteady(s, TakeScan(s));
    SteadyRight(c, s0, s, TakeScan(s));
    NoRuleSince(plain, s0, s, TakeScan(s));
    ProcessScanRight(plain, c, s0, TakeScan(s), Last(s.ruleInfosToScan));
  }

  lemma ProcessInputRight(plain: bool, c: Client, s0: State, s: State, r: InputRequest)
    requires AllRight(c, s0, s) && Since(plain, s0, s) && Inv(c, s) && s.building && InputInHand(s, r) && (r.task.Some? ==> Waiting(s, r.task.value))
    ensures AllRight(c, s0, ProcessInput(c, s, r))
  {
    hide AllRight, Since, Inv, ScanRule, DemandRule, Record, Keeps, Hand, Scanning, Waiting, InProgress, CompleteNow, Verdict, Steady, QueuesOk;
    InputHandOn(s, r);
    ScanRuleKeeps(c, s, r.input);
    ScanRuleMarks(c, s, r.input);
    ScanRuleSince(plain, c, s0, s, r.input);
    assert QueuesOk(s) by { Unpack(c, s); }
    ScanRuleSteady(c, s, r.input);
    var s1 := ScanRule(c, s, r.input);
    SteadyRight(c, s0, s, s1);
    if Scanning(s1, r.input) {
      MovedSteady(s1, Pause(s1, r));
      SteadyRight(c, s0, s1, Pause(s1, r));
    } else {
      DemandRight(plain, c, s0, s1, r.input);
      DemandRuleSince(plain, c, s0, s1, r.input);
      var s2 := DemandRule(c, s1, r.input);
      if r.task.None? {
        MovedSteady(s2, s2.(curInput := []));
        SteadyRight(c, s0, s2, s2.(curInput := []));
      } else {
        RecordSteady(s2, r, r.task.value);
        SteadyRight(c, s0, s2, Record(s2, r, r.task.value));
      }
    }
  }

  lemma TaskWaits(c: Client, s: State, r: InputRequest)
    requires Inv(c, s) && s.inputRequests != [] && r == s.inputRequests[0]
    ensures r.task.Some? ==> Waiting(TakeInput(s), r.task.value)
  {
    assert RequestsOk(s) by { Unpack(c, s); }
    hide Inv;
    assert r in s.inputRequests && Live(s, r);
    if r.task.Some? { assert Info(TakeInput(s), r.task.value) == Info(s, r.task.value); }
  }

  lemma InputOneRight(plain: bool, c: Client, s0: State, s: State)
    requires AllRight(c, s0, s) && Since(plain, s0, s) && Inv(c, s) && s.building && s.inputRequests != [] && s.curScan == [] && s.curInput == []
    ensures AllRight(c, s0, InputOne(c, s))
  {
    hide AllRight, Since, Inv, ProcessInput, Keeps, Steady, InputInHand, Waiting;
    var r := s.inputRequests[0];
    TaskWaits(c, s, r);
    TakeInputKeeps(c, s);
    TakeInputSame(s);
    MovedSteady(s, TakeInput(s));
    SteadyRight(c, s0, s, TakeInput(s));
    NoRuleSince(plain, s0, s, TakeInput(s));
    ProcessInputRight(plain, c, s0, TakeInput(s), r);
  }

  // ---- The other steps -----------------------------------------------------------------------------------------

  lemma DeliverSteady(c: Client, s: State)
    requires s.finishedInputRequests != []
    ensures Steady(s, DeliverOne(c, s))
  {
    hide GotAfter, AsksAfter, Last, Deliver, Steady;
    var r := Last(s.finishedInputRequests);
    if r.task.None? {
      MovedSteady(s, s.(finishedInputRequests := Front(s.finishedInputRequests)));
    } else {
      DeliverNoRule(s, r, r.task.value, GotAfter(s, r, r.task.value), AsksAfter(c, s, r, r.task.value));
      MovedSteady(s, DeliverOne(c, s));
    }
  }

  lemma ReadySteady(s: State)
    requires s.readyTaskInfos != []
    ensures Steady(s, ReadyOne(s))
  {
    var t := s.readyTaskInfos[0];
    forall x | x != t ensures Info(ReadyOne(s), x) == Info(s, x) {}
  }

  lemma ReportSteady(c: Client, s: State, t: KeyID, value: Value, force: bool, found: seq<Delivery>)
    requires Computing(s, t)
    ensures Steady(s, TaskIsComplete(c, s, t, value, force, found))
  {
    hide Discovered, TaskOf;
    var s' := TaskIsComplete(c, s, t, value, force, found);
    forall x | x != t ensures Info(s', x) == Info(s, x) {}
    assert Info(s', t).phase == Info(s, t).phase;
  }

  lemma FinishOneSteady(s: State)
    requires QueuesOk(s) && Shape(s) && s.finishedTaskInfos != []
    ensures Steady(s, FinishOne(s))
  {
    hide QueuesOk, Shape, FinishOne;
    FinisherCreated(s);
    FinishedOne(s);
  }

  lemma FinisherCreated(s: State)
    requires QueuesOk(s) && Shape(s) && s.finishedTaskInfos != []
    ensures Last(s.finishedTaskInfos) in s.created
  {
    hide NoDuplicates, ComputingSet;
    var t := Last(s.finishedTaskInfos);
    assert t in s.finishedTaskInfos && Computing(s, t);
    var _ := Info(s, t);
  }

  lemma FinishedOne(s: State)
    requires s.finishedTaskInfos != []
    ensures var t, s' := Last(s.finishedTaskInfos), FinishOne(s);
      && s'.tidy == s.tidy && s'.created == s.created && s'.epoch == s.epoch && Info(s', t).wasForced == Info(s, t).wasForced
      && forall x :: x != t ==> Info(s', x) == Info(s, x)
  {
    hide Dummies, KeysOf, At, TaskOf;
  }

  lemma ForceSteady(s: State, k: KeyID)
    requires QueuesOk(s) && Scanning(s, k)
    ensures Steady(s, ForceBuild(s, k))
  {
    hide QueuesOk, ForceBuild;
    CreatedScanned(s, k);
    ForcedOne(s, k);
  }

  lemma ForcedOne(s: State, k: KeyID)
    ensures var s' := ForceBuild(s, k);
      && s'.tidy == s.tidy && s'.created == s.created && s'.epoch == s.epoch && Info(s', k).phase.NeedsToRun?
      && forall x :: x != k ==> Info(s', x) == Info(s, x)
  {
    hide WithoutScansOf, At;
  }

  lemma StepSteady(c: Client, s: State, step: Step)
    requires Between(c, s) && Enabled(s, step) && WithinBuild(step) && !step.DoScan? && !step.DoInput?
    ensures Steady(s, Apply(c, s, step))
  {
    BetweenParts(c, s);
    hide Between, Steady, QueuesOk, Shape, DeliverOne, ReadyOne, TaskIsComplete, FinishOne, ForceBuild, SupplyPriorValue;
    match step {
      case DoDeliver => DeliverSteady(c, s);
      case DoReady => ReadySteady(s);
      case DoTaskIsComplete(t, v, f, found) => ReportSteady(c, s, t, v, f, found);
      case DoFinish => FinishOneSteady(s);
      case DoForceBuild(k) => ForceSteady(s, k);
      case DoSupplyPriorValue(k, i) => SupplyNoRule(s, k, i); MovedSteady(s, SupplyPriorValue(s, k, i));
    }
  }

  lemma StepRight(plain: bool, c: Client, s0: State, s: State, step: Step)
    requires AllRight(c, s0, s) && Since(plain, s0, s) && Between(c, s) && Enabled(s, step) && WithinBuild(step)
    ensures AllRight(c, s0, Apply(c, s, step))
  {
    Building(c, s, step);
    hide AllRight, Since, Inv, ScanOne, InputOne, Steady, Keeps, DeliverOne, ReadyOne, TaskIsComplete, FinishOne, ForceBuild, SupplyPriorValue;
    if step.DoScan? {
      ScanOneRight(plain, c, s0, s);
    } else if step.DoInput? {
      InputOneRight(plain, c, s0, s);
    } else {
      StepSteady(c, s, step);
      StepKeeps(c, s, step);
      SteadyRight(c, s0, s, Apply(c, s, step));
    }
  }

  lemma StartRight(c: Client, s0: State, root: KeyID)
    requires Between(c, s0)
    ensures AllRight(c, s0, StartBuild(s0, root))
  {
    Unpack0(c, s0);
    var s := StartBuild(s0, root);
    hide Between, WasOutOfDate, WasUpToDate, WasChecked, Was;
    forall k | s.tidy ensures TakenRight(c, s0, s, k) {
      assert Info(s, k) == Info(s0, k);
      assert Info(s0, k).result.builtAt <= s0.epoch;
    }
  }

  lemma {:induction false} BuildRight(c: Client, steps: seq<Step>, n: nat)
    requires Legal(c, steps) && LastBuild(steps, n)
    ensures Legal(c, steps[..n]) && AllRight(c, Exec(c, steps[..n]), Exec(c, steps))
    decreases |steps|
  {
    hide AllRight, Since, Between, Enabled, WithinBuild, Plain, PlainBuild, LastBuild, StartBuild;
    assert n < |steps| && steps[n].DoStartBuild? by { Started(steps, n); }
    PrefixLegal(c, steps, n);
    var front, last := Front(steps), Last(steps);
    RunInvariant(c, front);
    if n == |front| {
      assert front == steps[..n];
      StartRight(c, Exec(c, front), last.root);
    } else {
      hide Apply;
      LastBuildFront(steps, n);
      BuildRight(c, front, n);
      BuildSince(c, front, n);
      StepRight(PlainBuild(front, n), c, Exec(c, steps[..n]), Exec(c, front), last);
    }
  }

  // ---- The theorem ------------------------------------------------------------------------------------------------

  /** A decision about `k`, in a build that started from `s0`, is taken for the right reason. */
  ghost predicate RightDecision(c: Client, s0: State, s: State, k: KeyID) {
    var was := Was(s0, k);
    && !(Runs(s, k) && LeavesAlone(s, k))
    && (Runs(s, k) || LeavesAlone(s, k) ==> (Runs(s, k) <==> WasOutOfDate(c, s, k, was)) && (LeavesAlone(s, k) <==> WasUpToDate(c, s, k, was)))
    && (Runs(s, k) ==> WasChecked(c, s, k, was))
  }

  lemma RightDecisionNow(plain: bool, c: Client, s0: State, s: State, k: KeyID)
    requires AllRight(c, s0, s) && VerdictsOk(c, s) && QueuesOk(s) && Since(plain, s0, s) && s.tidy && !(Runs(s, k) && Info(s, k).wasForced)
    ensures RightDecision(c, s0, s, k)
  {
    SinceAt(plain, s0, s, k);
    hide Since, RuleSince, VerdictsOk, QueuesOk, WasOutOfDate, WasUpToDate, WasChecked, Was;
    assert TakenRight(c, s0, s, k);
    NeverBoth(c, s, k, Was(s0, k));
    if Verdict(s, k) {
      NotCreated(c, s, k);
      VerdictReasons(plain, c, s0, s, k);
    }
  }

  /** Only rules that are out of date are run, and all of them: in every build, whatever is forced in
      it, that does not start with rules an earlier one has left scanned, a rule that was not forced
      itself and about which the build has decided has been or will be run if and only if it was out
      of date, and left alone if and only if it was up to date. When it runs, the dependencies it
      wanted checked before are complete. */
  lemma RunIffOutOfDate(c: Client, steps: seq<Step>, n: nat, k: KeyID)
    requires Legal(c, steps) && LastBuild(steps, n)
    requires var s := Exec(c, steps); s.tidy && !(Runs(s, k) && Info(s, k).wasForced)
    ensures Legal(c, steps[..n]) && RightDecision(c, Exec(c, steps[..n]), Exec(c, steps), k)
  {
    hide Legal, Exec, LastBuild, AllRight, Since, Between, VerdictsOk, QueuesOk, RightDecision;
    Started(steps, n);
    var s := Exec(c, steps);
    BuildRight(c, steps, n);
    BuildSince(c, steps, n);
    RunInvariant(c, steps);
    BetweenParts(c, s);
    RightDecisionNow(PlainBuild(steps, n), c, Exec(c, steps[..n]), s, k);
  }
}
