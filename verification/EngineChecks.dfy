/** Which recorded dependencies of a rule are looked at once it is known that the rule has to run: the
    ones it wants checked first, and no others. */
module EngineChecks {
  import opened Options
  import opened EngineState
  import opened EngineSteps
  import opened EngineInvariant
  import opened EngineScanning
  import opened EngineRuns

  /** A scan that is known to end with the rule running looks only at what the rule wants checked. */
  ghost predicate Chosen(c: Client, epoch: nat, r: ScanRequest) {
    r.needsToRun && r.input.Some? ==> c.mustCheck(epoch, r.rule, r.input.value)
  }

  /** `r` is in some queue, in hand, or parked. */
  ghost predicate Holds(s: State, r: ScanRequest) {
    r in s.ruleInfosToScan || r in s.curScan || ParkedIn(s.deferred, r) || ParkedIn(s.taskDeferred, r)
  }

  ghost predicate ParkedIn(m: map<KeyID, seq<ScanRequest>>, r: ScanRequest) {
    exists d :: r in At(m, d)
  }

  lemma ParkedMoved(m: map<KeyID, seq<ScanRequest>>, k: KeyID, rs: seq<ScanRequest>)
    ensures forall r :: ParkedIn(m[k := rs], r) ==> ParkedIn(m, r) || r in rs
    ensures forall r :: ParkedIn(m - {k}, r) ==> ParkedIn(m, r)
    ensures forall r :: r in At(m, k) ==> ParkedIn(m, r)
  {
    forall r | ParkedIn(m[k := rs], r) ensures ParkedIn(m, r) || r in rs {
      var d :| r in At(m[k := rs], d);
      assert d != k ==> r in At(m, d);
    }
    forall r | ParkedIn(m - {k}, r) ensures ParkedIn(m, r) {
      var d :| r in At(m - {k}, d);
      assert r in At(m, d);
    }
  }

  ghost predicate AllChosen(c: Client, s: State) {
    forall r :: Holds(s, r) ==> Chosen(c, s.epoch, r)
  }

  /** The scans of `s'` are scans of `s`, or `q`. */
  ghost predicate Gains(s: State, s': State, q: ScanRequest) {
    s'.epoch == s.epoch && forall r :: Holds(s', r) ==> Holds(s, r) || r == q
  }

  /** The scans of `s'` are scans of `s`. */
  ghost predicate GainsNothing(s: State, s': State) {
    s'.epoch == s.epoch && forall r :: Holds(s', r) ==> Holds(s, r)
  }

  lemma GainChosen(c: Client, s: State, s': State, q: ScanRequest)
    requires AllChosen(c, s) && (GainsNothing(s, s') || (Gains(s, s', q) && Chosen(c, s.epoch, q)))
    ensures AllChosen(c, s')
  {
    hide Chosen, Holds;
  }

  lemma SameScans(s: State, s': State)
    requires s'.epoch == s.epoch && s'.curScan == s.curScan && s'.ruleInfosToScan == s.ruleInfosToScan
    requires s'.deferred == s.deferred && s'.taskDeferred == s.taskDeferred
    ensures GainsNothing(s, s')
  {
  }

  // ---- The operations -------------------------------------------------------------------------------

  lemma ScanRuleChosen(c: Client, s: State, k: KeyID)
    requires AllChosen(c, s)
    ensures AllChosen(c, ScanRule(c, s, k)) && ScanRule(c, s, k).epoch == s.epoch
  {
    hide IsScanned, Scanning, WithoutSingleUse, FirstLook, StartScan, AllChosen;
    StartScanChosen(c, s, k, Cleaned(Info(s, k).result), FirstLook(c, s.epoch, k, Cleaned(Info(s, k).result)));
  }

  lemma StartScanChosen(c: Client, s: State, k: KeyID, res: Result, look: Look)
    requires AllChosen(c, s)
    ensures AllChosen(c, StartScan(s, k, res, look)) && StartScan(s, k, res, look).epoch == s.epoch
  {
    var q := ScanRequest(k, 0, None, false, if look.MustScan? then look.needsToRun else false);
    var s' := StartScan(s, k, res, look);
    assert Chosen(c, s.epoch, q);
    hide AllChosen, Chosen, Gains, GainsNothing;
    match look {
      case MustRun => SameScans(s, s');
      case MayStay => SameScans(s, s');
      case MustScan(n) => BeginScanGains(s, k, RuleInfo(IsScanning, res, false), n);
    }
    GainChosen(c, s, s', q);
  }

  lemma BeginScanGains(s: State, k: KeyID, ri: RuleInfo, n: bool)
    ensures Gains(s, BeginScan(s, k, ri, n), ScanRequest(k, 0, None, false, n))
  {
    ParkedMoved(s.deferred, k, []);
    hide ParkedIn;
  }

  lemma DemandRuleChosen(c: Client, s: State, k: KeyID)
    requires AllChosen(c, s)
    ensures AllChosen(c, DemandRule(c, s, k)) && DemandRule(c, s, k).epoch == s.epoch
  {
    hide AllChosen, Holds, LaunchTask;
    LaunchGains(s, k, c.onStart(s.epoch, k));
    GainChosen(c, s, LaunchTask(s, k, c.onStart(s.epoch, k)), ScanRequest(k, 0, None, false, false));
    SameScans(s, SetComplete(s, k));
    GainChosen(c, s, SetComplete(s, k), ScanRequest(k, 0, None, false, false));
    match Info(s, k).phase case DoesNotNeedToRun => case NeedsToRun => case _ =>
  }

  lemma LaunchGains(s: State, k: KeyID, asks: seq<Dependency>)
    ensures GainsNothing(s, LaunchTask(s, k, asks))
  {
    ParkedMoved(s.taskDeferred, k, []);
    hide Requests, Asking, PushIf, Info, ParkedIn;
  }

  lemma FinishScanGains(s: State, k: KeyID, phase: Phase)
    ensures GainsNothing(s, FinishScan(s, k, phase))
  {
    ParkedMoved(s.deferred, k, []);
    hide Info, ParkedIn;
  }

  lemma FinishScanChosen(c: Client, s: State, k: KeyID, phase: Phase)
    requires AllChosen(c, s)
    ensures AllChosen(c, FinishScan(s, k, phase))
  {
    hide AllChosen, GainsNothing, FinishScan;
    FinishScanGains(s, k, phase);
    GainChosen(c, s, FinishScan(s, k, phase), ScanRequest(k, 0, None, false, false));
  }

  lemma DropChosen(c: Client, s: State)
    requires AllChosen(c, s)
    ensures AllChosen(c, s.(curScan := []))
  {
    hide Chosen;
  }

  lemma PutBackChosen(c: Client, s: State, r: ScanRequest)
    requires AllChosen(c, s) && Chosen(c, s.epoch, r)
    ensures AllChosen(c, PutBack(s, r))
  {
    hide Chosen;
    assert Gains(s, PutBack(s, r), r);
  }

  lemma DeferChosen(c: Client, s: State, r: ScanRequest, d: KeyID)
    requires AllChosen(c, s) && Chosen(c, s.epoch, r)
    ensures AllChosen(c, DeferOnScan(s, r, d)) && AllChosen(c, DeferOnTask(s, r, d))
  {
    hide AllChosen, Gains, DeferOnScan, DeferOnTask;
    DeferGains(s, r, d);
    GainChosen(c, s, DeferOnScan(s, r, d), r);
    GainChosen(c, s, DeferOnTask(s, r, d), r);
  }

  lemma DeferGains(s: State, r: ScanRequest, d: KeyID)
    ensures Gains(s, DeferOnScan(s, r, d), r) && Gains(s, DeferOnTask(s, r, d), r)
  {
    ParkedMoved(s.deferred, d, At(s.deferred, d) + [r]);
    ParkedMoved(s.taskDeferred, d, At(s.taskDeferred, d) + [r]);
    hide ParkedIn;
  }

  lemma AdvanceChosen(c: Client, s: State, r: ScanRequest)
    requires AllChosen(c, s)
    ensures AllChosen(c, Advance(s, r))
  {
    assert Chosen(c, s.epoch, Next(r));
    hide Chosen, PutBack, FinishScan, AllChosen;
    PutBackChosen(c, s, Next(r));
    DropChosen(c, s);
    FinishScanChosen(c, s.(curScan := []), r.rule, if r.needsToRun then NeedsToRun else DoesNotNeedToRun);
  }

  lemma ConcludeChosen(c: Client, s: State, r: ScanRequest, d: KeyID)
    requires AllChosen(c, s)
    ensures AllChosen(c, Conclude(c, s, r, d))
  {
    hide AllChosen, Advance, FinishScan, InputRebuilt;
    AdvanceChosen(c, s, r);
    AdvanceChosen(c, s, r.(needsToRun := true));
    DropChosen(c, s);
    FinishScanChosen(c, s.(curScan := []), r.rule, NeedsToRun);
  }

  lemma AfterLookUpChosen(c: Client, s: State, r: ScanRequest, d: KeyID)
    requires AllChosen(c, s) && Chosen(c, s.epoch, r)
    ensures AllChosen(c, AfterLookUp(c, s, r, d))
  {
    hide AllChosen, Chosen, ScanRule, DemandRule, DeferOnScan, DeferOnTask, Conclude, Scanning, CompleteNow;
    var s2 := ScanRule(c, s, d);
    var s3 := DemandRule(c, s2, d);
    ScanRuleChosen(c, s, d);
    DemandRuleChosen(c, s2, d);
    DeferChosen(c, s2, r, d);
    DeferChosen(c, s3, r, d);
    ConcludeChosen(c, s3, r, d);
  }

  /** Looking a dependency up: not if the rule is going to run and does not want it checked. */
  lemma LookUpChosen(c: Client, s: State, r: ScanRequest)
    requires Chosen(c, s.epoch, r) && !SkipsDependency(c, s, r)
    ensures Chosen(c, s.epoch, LookUp(s, r))
  {
    hide DependencyAt;
  }

  lemma HandChosen(c: Client, s: State, r: ScanRequest)
    requires AllChosen(c, s) && Chosen(c, s.epoch, r)
    ensures AllChosen(c, s.(curScan := [r]))
  {
    hide Chosen;
    assert Gains(s, s.(curScan := [r]), r);
  }

  lemma ProcessScanChosen(c: Client, s: State, r: ScanRequest)
    requires AllChosen(c, s) && Chosen(c, s.epoch, r)
    ensures AllChosen(c, ProcessScan(c, s, r))
  {
    hide AllChosen, Chosen, AfterLookUp, Advance, Scanning, SkipsDependency, DependencyAt;
    DropChosen(c, s);
    AdvanceChosen(c, s, r);
    if !SkipsDependency(c, s, r) {
      var r1 := LookUp(s, r);
      LookUpChosen(c, s, r);
      HandChosen(c, s, r1);
      AfterLookUpChosen(c, s.(curScan := [r1]), r1, r1.input.value);
    }
  }

  lemma ScanOneChosen(c: Client, s: State)
    requires AllChosen(c, s) && s.ruleInfosToScan != []
    ensures AllChosen(c, ScanOne(c, s))
  {
    hide Chosen, ProcessScan;
    var r := Last(s.ruleInfosToScan);
    assert r in s.ruleInfosToScan && Holds(s, r) && GainsNothing(s, TakeScan(s));
    GainChosen(c, s, TakeScan(s), r);
    ProcessScanChosen(c, TakeScan(s), r);
  }

  lemma InputOneChosen(c: Client, s: State)
    requires AllChosen(c, s) && s.inputRequests != []
    ensures AllChosen(c, InputOne(c, s))
  {
    hide AllChosen, GainsNothing, ScanRule, DemandRule, Scanning, Pause, Record;
    var r, s0 := s.inputRequests[0], TakeInput(s);
    var s1 := ScanRule(c, s0, r.input);
    var s2 := DemandRule(c, s1, r.input);
    var any := ScanRequest(0, 0, None, false, false);
    SameScans(s, s0);
    GainChosen(c, s, s0, any);
    ScanRuleChosen(c, s0, r.input);
    DemandRuleChosen(c, s1, r.input);
    PauseGains(s1, r);
    GainChosen(c, s1, Pause(s1, r), any);
    SameScans(s2, s2.(curInput := []));
    GainChosen(c, s2, s2.(curInput := []), any);
    if r.task.Some? { RecordGains(s2, r, r.task.value); GainChosen(c, s2, Record(s2, r, r.task.value), any); }
  }

  lemma PauseGains(s: State, r: InputRequest)
    ensures GainsNothing(s, Pause(s, r))
  {
    hide GainsNothing;
    SameScans(s, Pause(s, r));
  }

  lemma RecordGains(s: State, r: InputRequest, t: KeyID)
    ensures GainsNothing(s, Record(s, r, t))
  {
    hide GainsNothing, CompleteNow, Info, TaskOf, At;
    if CompleteNow(s, r.input) { SameScans(s, Record(s, r, t)); } else { SameScans(s, Record(s, r, t)); }
  }

  lemma DeliverGains(c: Client, s: State)
    requires s.finishedInputRequests != []
    ensures GainsNothing(s, DeliverOne(c, s))
  {
    hide GainsNothing, GotAfter, AsksAfter, Deliver;
    var r := Last(s.finishedInputRequests);
    if r.task.None? {
      SameScans(s, DeliverOne(c, s));
    } else {
      DeliveredGains(s, r, r.task.value, GotAfter(s, r, r.task.value), AsksAfter(c, s, r, r.task.value));
    }
  }

  lemma DeliveredGains(s: State, r: InputRequest, t: KeyID, got: seq<Delivery>, asks: seq<Dependency>)
    requires s.finishedInputRequests != []
    ensures GainsNothing(s, Deliver(s, r, t, got, asks))
  {
    hide GainsNothing, Requests, Asking, PushIf, TaskOf;
    SameScans(s, Deliver(s, r, t, got, asks));
  }

  lemma ReadyGains(s: State)
    requires s.readyTaskInfos != []
    ensures GainsNothing(s, ReadyOne(s))
  {
    hide GainsNothing, Info;
    SameScans(s, ReadyOne(s));
  }

  lemma ReportGains(c: Client, s: State, t: KeyID, value: Value, force: bool, found: seq<Delivery>)
    ensures GainsNothing(s, TaskIsComplete(c, s, t, value, force, found))
  {
    hide GainsNothing, Info, TaskOf, Discovered;
    SameScans(s, TaskIsComplete(c, s, t, value, force, found));
  }

  lemma FinishGains(s: State)
    requires s.finishedTaskInfos != []
    ensures GainsNothing(s, FinishOne(s))
  {
    ParkedMoved(s.taskDeferred, Last(s.finishedTaskInfos), []);
    hide Dummies, KeysOf, Info, TaskOf, ParkedIn;
  }

  lemma ForceBuildGains(s: State, k: KeyID)
    requires s.ruleInfosToScan == []
    ensures GainsNothing(s, ForceBuild(s, k))
  {
    hide FinishScan, Holds;
    assert s.(ruleInfosToScan := WithoutScansOf(s.ruleInfosToScan, k)) == s;
    FinishScanGains(s, k, NeedsToRun);
    SameScans(FinishScan(s, k, NeedsToRun), ForceBuild(s, k));
  }

  lemma SupplyGains(s: State, k: KeyID, i: nat)
    requires i < |At(s.requestedBy, k)|
    ensures GainsNothing(s, SupplyPriorValue(s, k, i))
  {
    hide GainsNothing;
    SameScans(s, SupplyPriorValue(s, k, i));
  }

  lemma StepChosen(c: Client, s: State, step: Step)
    requires AllChosen(c, s) && Enabled(s, step) && WithinBuild(step)
    ensures AllChosen(c, Apply(c, s, step))
  {
    hide AllChosen, GainsNothing, ScanOne, InputOne, DeliverOne, ReadyOne, TaskIsComplete, FinishOne, ForceBuild, SupplyPriorValue;
    match step {
      case DoScan => ScanOneChosen(c, s);
      case DoInput => InputOneChosen(c, s);
      case DoDeliver => DeliverGains(c, s);
      case DoReady => ReadyGains(s);
      case DoTaskIsComplete(t, v, f, found) => ReportGains(c, s, t, v, f, found);
      case DoFinish => FinishGains(s);
      case DoForceBuild(k) => ForceBuildGains(s, k);
      case DoSupplyPriorValue(k, i) => SupplyGains(s, k, i);
    }
    if !step.DoScan? && !step.DoInput? { GainChosen(c, s, Apply(c, s, step), ScanRequest(0, 0, None, false, false)); }
  }

  // ---- Runs -----------------------------------------------------------------------------------------

  lemma QuietChosen(c: Client, s: State)
    requires s.ruleInfosToScan == [] && s.curScan == [] && s.deferred == map[] && s.taskDeferred == map[]
    ensures AllChosen(c, s)
  {
  }

  /** In every reachable state, a rule that is known to have to run is kept waiting for, and has looked
      at, only dependencies it wants checked first. */
  lemma {:induction false} OnlyChosenAreChecked(c: Client, steps: seq<Step>)
    requires Legal(c, steps)
    ensures AllChosen(c, Exec(c, steps))
    decreases |steps|
  {
    if steps == [] {
      QuietChosen(c, INITIAL);
    } else {
      OnlyChosenAreChecked(c, Front(steps));
      var s, step := Exec(c, Front(steps)), Last(steps);
      RunInvariant(c, Front(steps));
      hide AllChosen, Between;
      if WithinBuild(step) {
        StepChosen(c, s, step);
      } else {
        OutsideChosen(c, s, step);
      }
    }
  }

  lemma OutsideChosen(c: Client, s: State, step: Step)
    requires Between(c, s) && Enabled(s, step) && !WithinBuild(step)
    ensures AllChosen(c, Apply(c, s, step))
  {
    hide AllChosen, Inv;
    QuietChosen(c, Apply(c, s, step));
  }

  // ---- What a scan touches ----------------------------------------------------------------------------

  lemma ScanRuleOthers(c: Client, s: State, d: KeyID, x: KeyID)
    requires x != d
    ensures Info(ScanRule(c, s, d), x) == Info(s, x)
  {
    hide IsScanned, Scanning, WithoutSingleUse, FirstLook, StartScan, Info;
    StartScanOthers(s, d, Cleaned(Info(s, d).result), FirstLook(c, s.epoch, d, Cleaned(Info(s, d).result)), x);
  }

  lemma DemandRuleOthers(c: Client, s: State, d: KeyID, x: KeyID)
    requires x != d
    ensures Info(DemandRule(c, s, d), x) == Info(s, x)
  {
    hide LaunchTask, SetComplete, Info;
    LaunchOthers(s, d, c.onStart(s.epoch, d), x);
    CompleteOthers(s, d, x);
    match Info(s, d).phase case DoesNotNeedToRun => case NeedsToRun => case _ =>
  }

  lemma FinishScanOthers(s: State, k: KeyID, phase: Phase, x: KeyID)
    requires x != k
    ensures Info(FinishScan(s, k, phase), x) == Info(s, x)
  {
  }

  lemma AdvanceOthers(s: State, r: ScanRequest, x: KeyID)
    requires x != r.rule
    ensures Info(Advance(s, r), x) == Info(s, x)
  {
    hide FinishScan;
    FinishScanOthers(s.(curScan := []), r.rule, if r.needsToRun then NeedsToRun else DoesNotNeedToRun, x);
  }

  lemma AfterLookUpOthers(c: Client, s: State, r: ScanRequest, d: KeyID, x: KeyID)
    requires x != r.rule && x != d
    ensures Info(AfterLookUp(c, s, r, d), x) == Info(s, x)
  {
    hide ScanRule, DemandRule, Scanning, CompleteNow, Conclude, DeferOnScan, DeferOnTask, Info;
    var s2 := ScanRule(c, s, d);
    var s3 := DemandRule(c, s2, d);
    ScanRuleOthers(c, s, d, x);
    DemandRuleOthers(c, s2, d, x);
    DeferOthers(s2, r, d, x);
    DeferOthers(s3, r, d, x);
    ConcludeOthers(c, s3, r, d, x);
  }

  lemma DeferOthers(s: State, r: ScanRequest, d: KeyID, x: KeyID)
    ensures Info(DeferOnScan(s, r, d), x) == Info(s, x) && Info(DeferOnTask(s, r, d), x) == Info(s, x)
  {
  }

  lemma ConcludeOthers(c: Client, s: State, r: ScanRequest, d: KeyID, x: KeyID)
    requires x != r.rule
    ensures Info(Conclude(c, s, r, d), x) == Info(s, x)
  {
    hide Advance, FinishScan, InputRebuilt;
    AdvanceOthers(s, r, x);
    AdvanceOthers(s, r.(needsToRun := true), x);
    FinishScanOthers(s.(curScan := []), r.rule, NeedsToRun, x);
  }

  /** After any run, the next look of a scan that is known to end with its rule running changes no other
      rule, unless that is a dependency the rule wants checked first. In particular it scans and demands
      no other. */
  lemma OnlyChosenAreTouched(c: Client, steps: seq<Step>, x: KeyID)
    requires Legal(c, steps + [DoScan]) && Legal(c, steps)
    requires var r := Last(Exec(c, steps).ruleInfosToScan); r.needsToRun && x != r.rule
    requires Info(Exec(c, steps + [DoScan]), x) != Info(Exec(c, steps), x)
    ensures var s := Exec(c, steps); c.mustCheck(s.epoch, Last(s.ruleInfosToScan).rule, x)
  {
    OnlyChosenAreChecked(c, steps);
    assert Front(steps + [DoScan]) == steps && Last(steps + [DoScan]) == DoScan;
    var s := Exec(c, steps);
    assert Exec(c, steps + [DoScan]) == ScanOne(c, s);
    hide Legal, Exec;
    TouchedIsChosen(c, s, x);
  }

  lemma TouchedIsChosen(c: Client, s: State, x: KeyID)
    requires AllChosen(c, s) && s.ruleInfosToScan != [] && Last(s.ruleInfosToScan).needsToRun && x != Last(s.ruleInfosToScan).rule
    ensures Info(ScanOne(c, s), x) == Info(s, x) || c.mustCheck(s.epoch, Last(s.ruleInfosToScan).rule, x)
  {
    hide ProcessScan, Chosen, ParkedIn;
    var r := Last(s.ruleInfosToScan);
    assert Holds(s, r);
    ProcessTouches(c, TakeScan(s), r, x);
  }

  lemma ProcessTouches(c: Client, s: State, r: ScanRequest, x: KeyID)
    requires Chosen(c, s.epoch, r) && r.needsToRun && x != r.rule
    ensures Info(ProcessScan(c, s, r), x) == Info(s, x) || c.mustCheck(s.epoch, r.rule, x)
  {
    hide AfterLookUp, Advance, Scanning, SkipsDependency, DependencyAt, Info;
    HandOthers(s, r, x);
    AdvanceOthers(s, r, x);
    if !SkipsDependency(c, s, r) {
      var r1 := LookUp(s, r);
      LookUpChosen(c, s, r);
      HandOthers(s, r1, x);
      if x != r1.input.value { AfterLookUpOthers(c, s.(curScan := [r1]), r1, r1.input.value, x); }
    }
  }

  lemma HandOthers(s: State, r: ScanRequest, x: KeyID)
    ensures Info(s.(curScan := [r]), x) == Info(s, x) && Info(s.(curScan := []), x) == Info(s, x)
  {
  }
}
