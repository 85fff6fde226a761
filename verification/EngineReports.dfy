/** What a report does, and what a task is given. A build changes the value of a rule, its signature and the
    time at which it was computed only when the rule's task reports, and a forced change makes everything
    that depends on the rule run again although the value is the same. What is handed to a task is the
    value of a rule that has been built. */
module EngineReports {
  import opened Options
  import opened EngineState
  import opened EngineSteps
  import opened EngineInvariant
  import opened EngineScanning
  import opened EngineRuns
  import opened EngineTheorems
  import opened EngineSince
  import opened EngineDecisions

  ghost predicate SameOutcome(before: Result, now: Result) {
    now.value == before.value && now.computedAt == before.computedAt && now.signature == before.signature
  }

  /** Built when it was, or now. */
  ghost predicate BuiltSince(epoch: nat, before: Result, now: Result) {
    now.builtAt == before.builtAt || now.builtAt == epoch
  }

  ghost predicate Undisturbed(s: State, s': State) {
    s'.epoch == s.epoch
    && forall x :: SameOutcome(Info(s, x).result, Info(s', x).result) && BuiltSince(s.epoch, Info(s, x).result, Info(s', x).result)
  }

  lemma OneUndisturbed(s: State, s': State, k: KeyID)
    requires s'.epoch == s.epoch && (forall x :: x != k ==> Info(s', x) == Info(s, x))
    requires SameOutcome(Info(s, k).result, Info(s', k).result) && BuiltSince(s.epoch, Info(s, k).result, Info(s', k).result)
    ensures Undisturbed(s, s')
  {
  }

  lemma SameRules(s: State, s': State)
    requires s'.epoch == s.epoch && s'.rules == s.rules && s'.db == s.db
    ensures Undisturbed(s, s')
  {
    forall x ensures Info(s', x) == Info(s, x) {}
  }

  lemma Trans(s: State, s': State, s'': State)
    requires Undisturbed(s, s') && Undisturbed(s', s'')
    ensures Undisturbed(s, s'')
  {
    hide Info;
    forall x ensures SameOutcome(Info(s, x).result, Info(s'', x).result) && BuiltSince(s.epoch, Info(s, x).result, Info(s'', x).result) {
      assert SameOutcome(Info(s, x).result, Info(s', x).result) && BuiltSince(s.epoch, Info(s, x).result, Info(s', x).result);
    }
  }

  // ---- The steps other than reports ---------------------------------------------------------------------

  lemma ScanRuleUndisturbed(c: Client, s: State, k: KeyID)
    ensures Undisturbed(s, ScanRule(c, s, k))
  {
    hide IsScanned, Scanning, FirstLook, StartScan, Cleaned, Undisturbed, Info;
    var res, look := Cleaned(Info(s, k).result), FirstLook(c, s.epoch, k, Cleaned(Info(s, k).result));
    CleanedKeeps(Info(s, k).result);
    SameRules(s, s);
    StartsOne(s, k, res, look);
    forall x | x != k ensures Info(StartScan(s, k, res, look), x) == Info(s, x) { StartScanOthers(s, k, res, look, x); }
    OneUndisturbed(s, StartScan(s, k, res, look), k);
  }

  lemma LaunchUndisturbed(s: State, k: KeyID, asks: seq<Dependency>)
    ensures Undisturbed(s, LaunchTask(s, k, asks))
  {
    hide Requests, Asking, PushIf;
  }

  lemma DemandRuleUndisturbed(c: Client, s: State, k: KeyID)
    ensures Undisturbed(s, DemandRule(c, s, k))
  {
    LaunchUndisturbed(s, k, c.onStart(s.epoch, k));
    assert Undisturbed(s, SetComplete(s, k));
    SameRules(s, s);
    hide LaunchTask, SetComplete, Undisturbed;
    match Info(s, k).phase case DoesNotNeedToRun => case NeedsToRun => case _ =>
  }

  lemma FinishScanUndisturbed(s: State, k: KeyID, phase: Phase)
    ensures Undisturbed(s, FinishScan(s, k, phase))
  {
    hide At;
  }

  lemma FinishHandUndisturbed(s: State, k: KeyID, phase: Phase)
    ensures Undisturbed(s, FinishHand(s, k, phase))
  {
    hide FinishScan, Undisturbed;
    SameRules(s, s.(curScan := []));
    FinishScanUndisturbed(s.(curScan := []), k, phase);
    Trans(s, s.(curScan := []), FinishHand(s, k, phase));
  }

  lemma AdvanceUndisturbed(s: State, r: ScanRequest)
    ensures Undisturbed(s, Advance(s, r))
  {
    hide FinishHand, Undisturbed;
    SameRules(s, PutBack(s, Next(r)));
    FinishHandUndisturbed(s, r.rule, if r.needsToRun then NeedsToRun else DoesNotNeedToRun);
  }

  lemma ConcludeUndisturbed(c: Client, s: State, r: ScanRequest, d: KeyID)
    ensures Undisturbed(s, Conclude(c, s, r, d))
  {
    hide Advance, FinishHand, InputRebuilt, Undisturbed;
    AdvanceUndisturbed(s, r);
    AdvanceUndisturbed(s, r.(needsToRun := true));
    FinishHandUndisturbed(s, r.rule, NeedsToRun);
  }

  lemma AfterLookUpUndisturbed(c: Client, s: State, r: ScanRequest, d: KeyID)
    ensures Undisturbed(s, AfterLookUp(c, s, r, d))
  {
    hide ScanRule, DemandRule, Conclude, Scanning, CompleteNow, Undisturbed;
    var s2 := ScanRule(c, s, d);
    var s3 := DemandRule(c, s2, d);
    ScanRuleUndisturbed(c, s, d);
    SameRules(s2, DeferOnScan(s2, r, d));
    Trans(s, s2, DeferOnScan(s2, r, d));
    DemandRuleUndisturbed(c, s2, d);
    Trans(s, s2, s3);
    SameRules(s3, DeferOnTask(s3, r, d));
    Trans(s, s3, DeferOnTask(s3, r, d));
    ConcludeUndisturbed(c, s3, r, d);
    Trans(s, s3, Conclude(c, s3, r, d));
  }

  lemma ProcessScanUndisturbed(c: Client, s: State, r: ScanRequest)
    ensures Undisturbed(s, ProcessScan(c, s, r))
  {
    hide AfterLookUp, Advance, Scanning, SkipsDependency, DependencyAt, Undisturbed;
    var r1 := LookUp(s, r);
    SameRules(s, s.(curScan := []));
    SameRules(s, s.(curScan := [r1]));
    AdvanceUndisturbed(s, r);
    AfterLookUpUndisturbed(c, s.(curScan := [r1]), r1, r1.input.value);
    Trans(s, s.(curScan := [r1]), AfterLookUp(c, s.(curScan := [r1]), r1, r1.input.value));
  }

  lemma ScanOneUndisturbed(c: Client, s: State)
    requires s.ruleInfosToScan != []
    ensures Undisturbed(s, ScanOne(c, s))
  {
    hide ProcessScan, Undisturbed;
    SameRules(s, TakeScan(s));
    ProcessScanUndisturbed(c, TakeScan(s), Last(s.ruleInfosToScan));
    Trans(s, TakeScan(s), ScanOne(c, s));
  }

  lemma RecordUndisturbed(s: State, r: InputRequest, t: KeyID)
    ensures Undisturbed(s, Record(s, r, t))
  {
    hide CompleteNow, TaskOf, At;
    if CompleteNow(s, r.input) {} else {}
  }

  lemma InputOneUndisturbed(c: Client, s: State)
    requires s.inputRequests != []
    ensures Undisturbed(s, InputOne(c, s))
  {
    hide ScanRule, DemandRule, Record, Scanning, Undisturbed;
    var r, s0 := s.inputRequests[0], TakeInput(s);
    var s1 := ScanRule(c, s0, r.input);
    var s2 := DemandRule(c, s1, r.input);
    SameRules(s, s0);
    ScanRuleUndisturbed(c, s0, r.input);
    Trans(s, s0, s1);
    SameRules(s1, Pause(s1, r));
    Trans(s, s1, Pause(s1, r));
    DemandRuleUndisturbed(c, s1, r.input);
    Trans(s, s1, s2);
    SameRules(s2, s2.(curInput := []));
    Trans(s, s2, s2.(curInput := []));
    if r.task.Some? {
      RecordUndisturbed(s2, r, r.task.value);
      Trans(s, s2, Record(s2, r, r.task.value));
    }
  }

  lemma DeliverOneUndisturbed(c: Client, s: State)
    requires s.finishedInputRequests != []
    ensures Undisturbed(s, DeliverOne(c, s))
  {
    hide GotAfter, AsksAfter, Deliver, Undisturbed;
    var r := Last(s.finishedInputRequests);
    if r.task.None? {
      SameRules(s, DeliverOne(c, s));
    } else {
      DeliverNoRule(s, r, r.task.value, GotAfter(s, r, r.task.value), AsksAfter(c, s, r, r.task.value));
      SameRules(s, DeliverOne(c, s));
    }
  }

  lemma ReadyOneUndisturbed(s: State)
    requires s.readyTaskInfos != []
    ensures Undisturbed(s, ReadyOne(s))
  {
  }

  lemma FinishOneUndisturbed(s: State)
    requires s.finishedTaskInfos != []
    ensures Undisturbed(s, FinishOne(s))
  {
    hide Dummies, KeysOf, At, TaskOf;
  }

  lemma ForceBuildUndisturbed(s: State, k: KeyID)
    ensures Undisturbed(s, ForceBuild(s, k))
  {
    hide At, WithoutScansOf;
  }

  lemma ReportUndisturbed(c: Client, s: State, t: KeyID, value: Value, force: bool, found: seq<Delivery>, x: KeyID)
    requires x != t
    ensures Info(TaskIsComplete(c, s, t, value, force, found), x) == Info(s, x)
    ensures TaskIsComplete(c, s, t, value, force, found).epoch == s.epoch
  {
    hide Discovered, TaskOf;
  }

  /** No step but the report of `x` changes its outcome. */
  lemma StepLeaves(c: Client, s: State, step: Step, x: KeyID)
    requires Enabled(s, step) && WithinBuild(step) && !(step.DoTaskIsComplete? && step.task == x)
    ensures SameOutcome(Info(s, x).result, Info(Apply(c, s, step), x).result)
    ensures Apply(c, s, step).epoch == s.epoch && BuiltSince(s.epoch, Info(s, x).result, Info(Apply(c, s, step), x).result)
  {
    hide Info, ScanOne, InputOne, DeliverOne, ReadyOne, TaskIsComplete, FinishOne, ForceBuild, SupplyPriorValue, Idle;
    match step {
      case DoScan => ScanOneUndisturbed(c, s);
      case DoInput => InputOneUndisturbed(c, s);
      case DoDeliver => DeliverOneUndisturbed(c, s);
      case DoReady => ReadyOneUndisturbed(s);
      case DoTaskIsComplete(t, v, f, found) => ReportUndisturbed(c, s, t, v, f, found, x);
      case DoFinish => FinishOneUndisturbed(s);
      case DoForceBuild(k) => ForceBuildUndisturbed(s, k);
      case DoSupplyPriorValue(k, i) => SupplyNoRule(s, k, i); SameRules(s, SupplyPriorValue(s, k, i));
    }
  }

  // ---- A rule reports once ---------------------------------------------------------------------------------

  ghost predicate Reported(s: State, x: KeyID) {
    x in s.finishedTaskInfos || CompleteNow(s, x)
  }

  lemma QueueKept(c: Client, s: State, step: Step, x: KeyID)
    requires Enabled(s, step) && WithinBuild(step) && x in s.finishedTaskInfos
    ensures x in Apply(c, s, step).finishedTaskInfos || (step.DoFinish? && x == Last(s.finishedTaskInfos))
  {
    hide ScanOne, InputOne, DeliverOne, ReadyOne, TaskIsComplete, FinishOne, ForceBuild, SupplyPriorValue, Idle;
    match step {
      case DoScan => ScanOneHands(c, s);
      case DoInput => InputOneHands(c, s);
      case DoDeliver => DeliverQueue(c, s);
      case DoReady => ReadyQueue(s);
      case DoTaskIsComplete(t, v, f, found) => ReportQueue(c, s, t, v, f, found);
      case DoFinish => FinishQueue(s);
      case DoForceBuild(k) => ForceQueue(s, k);
      case DoSupplyPriorValue(k, i) => SupplyNoRule(s, k, i);
    }
  }

  lemma DeliverQueue(c: Client, s: State)
    requires s.finishedInputRequests != []
    ensures DeliverOne(c, s).finishedTaskInfos == s.finishedTaskInfos
  {
    hide GotAfter, AsksAfter, Deliver;
    var r := Last(s.finishedInputRequests);
    if r.task.Some? { DeliverNoRule(s, r, r.task.value, GotAfter(s, r, r.task.value), AsksAfter(c, s, r, r.task.value)); }
  }

  lemma ReadyQueue(s: State)
    requires s.readyTaskInfos != []
    ensures ReadyOne(s).finishedTaskInfos == s.finishedTaskInfos
  {
    hide Info;
  }

  lemma ReportQueue(c: Client, s: State, t: KeyID, value: Value, force: bool, found: seq<Delivery>)
    ensures TaskIsComplete(c, s, t, value, force, found).finishedTaskInfos == s.finishedTaskInfos + [t]
  {
    hide Info, TaskOf, Discovered;
  }

  lemma FinishQueue(s: State)
    requires s.finishedTaskInfos != []
    ensures FinishOne(s).finishedTaskInfos == Front(s.finishedTaskInfos) && CompleteNow(FinishOne(s), Last(s.finishedTaskInfos))
  {
    hide Dummies, KeysOf, At, TaskOf;
  }

  lemma ForceQueue(s: State, k: KeyID)
    ensures ForceBuild(s, k).finishedTaskInfos == s.finishedTaskInfos
  {
    hide Info, At, WithoutScansOf;
  }

  lemma StaysReported(c: Client, s: State, step: Step, x: KeyID)
    requires Between(c, s) && Enabled(s, step) && WithinBuild(step) && Reported(s, x)
    ensures Reported(Apply(c, s, step), x) && !(step.DoTaskIsComplete? && step.task == x)
  {
    hide Between, Inv, Apply, Enabled, WithinBuild, CompleteNow, Info;
    StepKeeps(c, s, step);
    if CompleteNow(s, x) {
      StaysComplete(s, Apply(c, s, step), x);
      NoReportWhenComplete(s, step, x);
    } else {
      QueueKept(c, s, step, x);
      if step.DoFinish? { FinishesLast(c, s, step); }
      NoReportWhenQueued(s, step, x);
    }
  }

  lemma StaysComplete(s: State, s': State, x: KeyID)
    requires Keeps(s, s') && CompleteNow(s, x)
    ensures CompleteNow(s', x)
  {
  }

  lemma NoReportWhenComplete(s: State, step: Step, x: KeyID)
    requires Enabled(s, step) && CompleteNow(s, x)
    ensures !(step.DoTaskIsComplete? && step.task == x)
  {
  }

  lemma NoReportWhenQueued(s: State, step: Step, x: KeyID)
    requires Enabled(s, step) && x in s.finishedTaskInfos
    ensures !(step.DoTaskIsComplete? && step.task == x)
  {
  }

  lemma FinishesLast(c: Client, s: State, step: Step)
    requires Enabled(s, step) && step.DoFinish?
    ensures CompleteNow(Apply(c, s, step), Last(s.finishedTaskInfos))
  {
    hide FinishOne;
    FinishQueue(s);
  }

  // ---- What a report does to the result -----------------------------------------------------------------------

  /** The result of `x` after the report of `value`, where it was `before`. */
  ghost predicate OutcomeOf(c: Client, epoch: nat, x: KeyID, before: Result, now: Result, value: Value, force: bool) {
    && now.value == value && now.signature == c.signature(epoch, x)
    && now.computedAt == if force || value != before.value then epoch else before.computedAt
  }

  /** If the task of `x` has reported in this build then `x` has that value, the current signature, and the
      current time if the value is another one or the change was forced; whatever happened since. */
  lemma {:induction false} ReportSetsOutcome(c: Client, steps: seq<Step>, n: nat, i: nat)
    requires Legal(c, steps) && LastBuild(steps, n) && n < i < |steps| && steps[i].DoTaskIsComplete?
    ensures Legal(c, steps[..n]) && Reported(Exec(c, steps), steps[i].task)
    ensures var x := steps[i].task;
      var before, now := Info(Exec(c, steps[..n]), x).result, Info(Exec(c, steps), x).result;
      OutcomeOf(c, Exec(c, steps).epoch, x, before, now, steps[i].value, steps[i].force)
    decreases |steps|
  {
    hide Between, Apply, Enabled, WithinBuild, LastBuild, Since, Reported, PlainBuild, Info;
    PrefixLegal(c, steps, n);
    var x, front, last := steps[i].task, Front(steps), Last(steps);
    RunInvariant(c, front);
    LastBuildFront(steps, n);
    BuildSince(c, steps, n);
    BuildSince(c, front, n);
    if i == |front| {
      ReportNow(PlainBuild(front, n), c, Exec(c, steps[..n]), Exec(c, front), last);
    } else {
      ReportSetsOutcome(c, front, n, i);
      StaysReported(c, Exec(c, front), last, x);
      StepLeaves(c, Exec(c, front), last, x);
    }
  }

  lemma ReportNow(plain: bool, c: Client, s0: State, s: State, step: Step)
    requires Since(plain, s0, s) && Enabled(s, step) && step.DoTaskIsComplete?
    ensures var s', x := Apply(c, s, step), step.task;
      Reported(s', x) && OutcomeOf(c, s'.epoch, x, Info(s0, x).result, Info(s', x).result, step.value, step.force)
  {
    SinceAt(plain, s0, s, step.task);
    hide Since, Discovered, TaskOf, Stamped, Cleaned;
    ReportQueue(c, s, step.task, step.value, step.force, step.found);
  }

  /** If it has not, the result has not changed in these. */
  lemma {:induction false} NoReportNoChange(c: Client, steps: seq<Step>, n: nat, x: KeyID)
    requires Legal(c, steps) && LastBuild(steps, n)
    requires forall i :: n < i < |steps| ==> !(steps[i].DoTaskIsComplete? && steps[i].task == x)
    ensures Legal(c, steps[..n]) && SameOutcome(Info(Exec(c, steps[..n]), x).result, Info(Exec(c, steps), x).result)
    decreases |steps|
  {
    hide Apply, Enabled, WithinBuild, LastBuild, Info;
    Started(steps, n);
    PrefixLegal(c, steps, n);
    var front, last := Front(steps), Last(steps);
    if n == |front| {
      assert front == steps[..n];
      StartLeaves(c, Exec(c, front), last, x);
    } else {
      LastBuildFront(steps, n);
      NoReportNoChange(c, front, n, x);
      StepLeaves(c, Exec(c, front), last, x);
    }
  }

  lemma StartLeaves(c: Client, s: State, step: Step, x: KeyID)
    requires Enabled(s, step) && step.DoStartBuild?
    ensures SameOutcome(Info(s, x).result, Info(Apply(c, s, step), x).result)
  {
    hide Quiet, Verdict;
  }

  // ---- Forced changes ------------------------------------------------------------------------------------------

  /** A forced change spreads: once the task of `x` has reported one, no rule that depends on the value of
      `x` is left alone in that build, although the value of `x` may be what it was. Whatever the build decides
      about such a rule is to run it. */
  lemma ForcedChangeSpreads(c: Client, steps: seq<Step>, n: nat, i: nat, k: KeyID, d: Dependency)
    requires Legal(c, steps) && LastBuild(steps, n) && Exec(c, steps).tidy && Legal(c, steps[..n])
    requires n < i < |steps| && steps[i].DoTaskIsComplete? && steps[i].force && steps[i].task == d.key
    requires d in Was(Exec(c, steps[..n]), k).dependencies && !d.orderOnly
    ensures Info(Exec(c, steps), d.key).result.computedAt == Exec(c, steps).epoch
    ensures !LeavesAlone(Exec(c, steps), k)
  {
    hide Between, LastBuild, Since, Reported, PlainBuild, Legal, Exec, Was;
    ReportSetsOutcome(c, steps, n, i);
    BuildSince(c, steps, n);
    RunInvariant(c, steps);
    RunInvariant(c, steps[..n]);
    var s0, s := Exec(c, steps[..n]), Exec(c, steps);
    BuiltBefore(c, s0, k);
    NotBothNow(c, s, k);
    if !Runs(s, k) {
      RunIffOutOfDate(c, steps, n, k);
      NewerDependency(c, s, k, Was(s0, k), d);
    }
  }

  lemma BuiltBefore(c: Client, s0: State, k: KeyID)
    requires Between(c, s0)
    ensures Was(s0, k).builtAt <= s0.epoch
  {
    assert TimesOk(s0) by { Unpack(c, s0); }
    CleanedKeeps(Info(s0, k).result);
    hide Cleaned, Inv, Fresh;
  }

  lemma NotBothNow(c: Client, s: State, k: KeyID)
    requires Between(c, s)
    ensures !(Runs(s, k) && LeavesAlone(s, k))
  {
    hide Between, Info;
    BetweenParts(c, s);
    CreatedPhase(s, k);
  }

  lemma CreatedPhase(s: State, k: KeyID)
    requires QueuesOk(s)
    ensures k in s.created ==> InProgress(s, k) || CompleteNow(s, k)
    ensures !(Runs(s, k) && LeavesAlone(s, k))
  {
    hide NoDuplicates, ComputingSet;
  }

  lemma NewerDependency(c: Client, s: State, k: KeyID, was: Result, d: Dependency)
    requires d in was.dependencies && !d.orderOnly && Info(s, d.key).result.computedAt == s.epoch && was.builtAt < s.epoch
    ensures !WasUpToDate(c, s, k, was)
  {
    assert !NoNewerThan(s, was, d);
  }

  // ---- Only values that have been computed are handed out -------------------------------------------------------

  ghost predicate WasBuilt(s: State, r: InputRequest) {
    Info(s, r.input).result.builtAt != 0
  }

  /** Every request that is about to be answered is for a rule that has been built, now or before. */
  ghost predicate AnswersExist(s: State) {
    forall r :: r in s.finishedInputRequests ==> WasBuilt(s, r)
  }

  /** The requests about to be answered in `s'` were so in `s`, or are for a rule that is now complete. */
  ghost predicate NewAnswers(s: State, s': State) {
    forall r :: r in s'.finishedInputRequests ==> r in s.finishedInputRequests || CompleteNow(s', r.input)
  }

  lemma ScanRuleAnswers(c: Client, s: State, k: KeyID)
    ensures ScanRule(c, s, k).finishedInputRequests == s.finishedInputRequests
  {
    hide IsScanned, Scanning, WithoutSingleUse, FirstLook, StartScan;
    StartScanAnswers(s, k, Cleaned(Info(s, k).result), FirstLook(c, s.epoch, k, Cleaned(Info(s, k).result)));
  }

  lemma StartScanAnswers(s: State, k: KeyID, res: Result, look: Look)
    ensures StartScan(s, k, res, look).finishedInputRequests == s.finishedInputRequests
  {
    match look case MustRun => case MayStay => case MustScan(_) =>
  }

  lemma DemandRuleAnswers(c: Client, s: State, k: KeyID)
    ensures DemandRule(c, s, k).finishedInputRequests == s.finishedInputRequests
  {
    LaunchAnswers(s, k, c.onStart(s.epoch, k));
    hide LaunchTask;
    match Info(s, k).phase case DoesNotNeedToRun => case NeedsToRun => case _ =>
  }

  lemma LaunchAnswers(s: State, k: KeyID, asks: seq<Dependency>)
    ensures LaunchTask(s, k, asks).finishedInputRequests == s.finishedInputRequests
  {
    hide Requests, Asking, PushIf, Info;
  }

  lemma FinishHandAnswers(s: State, k: KeyID, phase: Phase)
    ensures FinishHand(s, k, phase).finishedInputRequests == s.finishedInputRequests
  {
    hide Info, At;
  }

  lemma ConcludeAnswers(c: Client, s: State, r: ScanRequest, d: KeyID)
    ensures Conclude(c, s, r, d).finishedInputRequests == s.finishedInputRequests && Advance(s, r).finishedInputRequests == s.finishedInputRequests
  {
    hide InputRebuilt, FinishHand, Info;
    FinishHandAnswers(s, r.rule, NeedsToRun);
    FinishHandAnswers(s, r.rule, DoesNotNeedToRun);
  }

  lemma AfterLookUpAnswers(c: Client, s: State, r: ScanRequest, d: KeyID)
    ensures AfterLookUp(c, s, r, d).finishedInputRequests == s.finishedInputRequests
  {
    hide ScanRule, DemandRule, Conclude, Scanning, CompleteNow, At;
    ScanRuleAnswers(c, s, d);
    DemandRuleAnswers(c, ScanRule(c, s, d), d);
    ConcludeAnswers(c, DemandRule(c, ScanRule(c, s, d), d), r, d);
  }

  lemma ScanOneAnswers(c: Client, s: State)
    requires s.ruleInfosToScan != []
    ensures ScanOne(c, s).finishedInputRequests == s.finishedInputRequests
  {
    hide AfterLookUp, Advance, Scanning, SkipsDependency, DependencyAt;
    var s0, r := TakeScan(s), Last(s.ruleInfosToScan);
    var r1 := LookUp(s0, r);
    ConcludeAnswers(c, s0, r, 0);
    AfterLookUpAnswers(c, s0.(curScan := [r1]), r1, r1.input.value);
  }

  lemma RecordAnswers(s: State, r: InputRequest, t: KeyID)
    ensures NewAnswers(s, Record(s, r, t))
  {
    RecordKeepsComplete(s, r, t);
    hide CompleteNow, Recorded;
    RecordedAnswers(s, r, t);
  }

  lemma RecordedAnswers(s: State, r: InputRequest, t: KeyID)
    ensures Recorded(s, r, t).finishedInputRequests == s.finishedInputRequests
  {
    hide Info, TaskOf;
  }

  lemma RecordKeepsComplete(s: State, r: InputRequest, t: KeyID)
    ensures CompleteNow(s, r.input) ==> CompleteNow(Record(s, r, t), r.input)
  {
    hide TaskOf, At;
  }

  lemma InputOneAnswers(c: Client, s: State)
    requires s.inputRequests != []
    ensures NewAnswers(s, InputOne(c, s))
  {
    hide ScanRule, DemandRule, Record, Scanning, CompleteNow;
    var r, s0 := s.inputRequests[0], TakeInput(s);
    var s1 := ScanRule(c, s0, r.input);
    ScanRuleAnswers(c, s0, r.input);
    DemandRuleAnswers(c, s1, r.input);
    if r.task.Some? { RecordAnswers(DemandRule(c, s1, r.input), r, r.task.value); }
  }

  lemma DeliverOneAnswers(c: Client, s: State)
    requires s.finishedInputRequests != []
    ensures DeliverOne(c, s).finishedInputRequests == Front(s.finishedInputRequests)
  {
    hide GotAfter, AsksAfter, Deliver;
    var r := Last(s.finishedInputRequests);
    if r.task.Some? { DeliverAnswers(s, r, r.task.value, GotAfter(s, r, r.task.value), AsksAfter(c, s, r, r.task.value)); }
  }

  lemma DeliverAnswers(s: State, r: InputRequest, t: KeyID, got: seq<Delivery>, asks: seq<Dependency>)
    requires s.finishedInputRequests != []
    ensures Deliver(s, r, t, got, asks).finishedInputRequests == Front(s.finishedInputRequests)
  {
    hide Requests, Asking, PushIf, TaskOf;
  }

  lemma FinishOneAnswers(s: State)
    requires s.finishedTaskInfos != [] && RequestsOk(s)
    ensures NewAnswers(s, FinishOne(s))
  {
    FinishQueue(s);
    var t := Last(s.finishedTaskInfos);
    assert forall r :: r in At(s.requestedBy, t) ==> r.input == t;
    hide Dummies, KeysOf, CompleteNow, Info, TaskOf, RequestsOk;
  }

  lemma OtherAnswers(c: Client, s: State, step: Step)
    requires Enabled(s, step) && (step.DoReady? || step.DoTaskIsComplete? || step.DoForceBuild?)
    ensures Apply(c, s, step).finishedInputRequests == s.finishedInputRequests
  {
    hide Info, TaskOf, At, Discovered, WithoutScansOf, Idle;
    match step case DoReady => case DoTaskIsComplete(_, _, _, _) => case DoForceBuild(_) =>
  }

  lemma StepAnswers(c: Client, s: State, step: Step)
    requires Between(c, s) && Enabled(s, step) && WithinBuild(step) && !step.DoSupplyPriorValue?
    ensures NewAnswers(s, Apply(c, s, step))
  {
    assert RequestsOk(s) by { BetweenParts(c, s); }
    hide Between, RequestsOk, ScanOne, InputOne, DeliverOne, ReadyOne, TaskIsComplete, FinishOne, ForceBuild, Idle, CompleteNow, Computing;
    match step {
      case DoScan => ScanOneAnswers(c, s);
      case DoInput => InputOneAnswers(c, s);
      case DoDeliver => DeliverOneAnswers(c, s);
      case DoReady => OtherAnswers(c, s, step);
      case DoTaskIsComplete(_, _, _, _) => OtherAnswers(c, s, step);
      case DoFinish => FinishOneAnswers(s);
      case DoForceBuild(_) => OtherAnswers(c, s, step);
    }
  }

  lemma StaysBuilt(c: Client, s: State, step: Step, r: InputRequest)
    requires Between(c, s) && Enabled(s, step) && WithinBuild(step) && WasBuilt(s, r)
    ensures WasBuilt(Apply(c, s, step), r)
  {
    assert Info(s, r.input).result.builtAt <= s.epoch by { BuiltBy(c, s, r.input); }
    if step.DoTaskIsComplete? && step.task == r.input {
      ReportBuilt(c, s, step.task, step.value, step.force, step.found);
    } else {
      StepLeaves(c, s, step, r.input);
    }
    hide Between, Enabled, WithinBuild, Apply;
  }

  lemma BuiltBy(c: Client, s: State, x: KeyID)
    requires Between(c, s)
    ensures Info(s, x).result.builtAt <= s.epoch
  {
    assert TimesOk(s) by { Unpack(c, s); }
    hide Inv, Fresh;
  }

  lemma ReportBuilt(c: Client, s: State, t: KeyID, value: Value, force: bool, found: seq<Delivery>)
    ensures Info(TaskIsComplete(c, s, t, value, force, found), t).result.builtAt == Info(s, t).result.builtAt
  {
    hide Discovered, TaskOf;
  }

  /** A rule complete in a build has been built, since the first build has the number one. */
  lemma CompleteIsBuilt(c: Client, s: State, r: InputRequest)
    requires Between(c, s) && r in s.finishedInputRequests && CompleteNow(s, r.input)
    ensures WasBuilt(s, r)
  {
    hide Inv, TimesOk, RequestsOk, Quiet;
    assert s.building by { NotQuiet(s, r); }
    Unpack(c, s);
    FinishedLive(s, r);
    WaitingIsOld(s, r.task.value);
  }

  lemma NotQuiet(s: State, r: InputRequest)
    requires r in s.finishedInputRequests
    ensures !Quiet(s)
  {
  }

  lemma FinishedLive(s: State, r: InputRequest)
    requires RequestsOk(s) && r in s.finishedInputRequests
    ensures r.task.Some? && Waiting(s, r.task.value)
  {
    assert Live(s, r) && Answerable(s, r);
  }

  lemma WaitingIsOld(s: State, t: KeyID)
    requires TimesOk(s) && s.building && Waiting(s, t)
    ensures s.epoch > 0
  {
    assert Fresh(s);
    var _ := Info(s, t);
  }

  lemma StepExists(c: Client, s: State, step: Step)
    requires Between(c, s) && Enabled(s, step) && Between(c, Apply(c, s, step)) && WithinBuild(step) && AnswersExist(s)
    ensures AnswersExist(Apply(c, s, step))
  {
    hide Between, WithinBuild, CompleteNow, WasBuilt, Enabled, Apply;
    var s' := Apply(c, s, step);
    if step.DoSupplyPriorValue? {
      SupplyStepExists(c, s, step);
    } else {
      StepAnswers(c, s, step);
      forall r | r in s'.finishedInputRequests ensures WasBuilt(s', r) {
        if r in s.finishedInputRequests { StaysBuilt(c, s, step, r); } else { CompleteIsBuilt(c, s', r); }
      }
    }
  }

  lemma SupplyStepExists(c: Client, s: State, step: Step)
    requires Between(c, s) && Enabled(s, step) && step.DoSupplyPriorValue? && AnswersExist(s)
    ensures AnswersExist(Apply(c, s, step))
  {
    hide Between, AnswersExist, SupplyPriorValue, Idle, Waiting;
    SuppliedExists(c, s, step.rule, step.index);
  }

  lemma SuppliedExists(c: Client, s: State, k: KeyID, i: nat)
    requires Between(c, s) && AnswersExist(s) && i < |At(s.requestedBy, k)| && Info(s, k).result.builtAt != 0
    ensures AnswersExist(SupplyPriorValue(s, k, i))
  {
    hide Between, RequestsOk, SupplyPriorValue, WasBuilt;
    BetweenParts(c, s);
    var r, s' := At(s.requestedBy, k)[i], SupplyPriorValue(s, k, i);
    RequestedFor(s, k, r);
    SuppliedOne(s, k, i);
    forall q | q in s'.finishedInputRequests ensures WasBuilt(s', q) { SameBuilt(s, s', q); SameBuilt(s, s', r); }
  }

  lemma RequestedFor(s: State, k: KeyID, r: InputRequest)
    requires RequestsOk(s) && r in At(s.requestedBy, k)
    ensures r.input == k
  {
    hide Live, Answerable;
  }

  lemma SuppliedOne(s: State, k: KeyID, i: nat)
    requires i < |At(s.requestedBy, k)|
    ensures var s' := SupplyPriorValue(s, k, i);
      && s'.rules == s.rules && s'.db == s.db
      && forall q :: q in s'.finishedInputRequests ==> q in s.finishedInputRequests || q.input == At(s.requestedBy, k)[i].input
  {
  }

  lemma SameBuilt(s: State, s': State, r: InputRequest)
    requires s'.rules == s.rules && s'.db == s.db
    ensures WasBuilt(s', r) == (Info(s, r.input).result.builtAt != 0) == WasBuilt(s, r)
  {
  }

  /** In every reachable state, however cycles have been broken, what is handed to a task next is the value
      of a rule that has been built in this build or an earlier one. */
  lemma {:induction false} AnswersHaveValues(c: Client, steps: seq<Step>)
    requires Legal(c, steps)
    ensures AnswersExist(Exec(c, steps))
    decreases |steps|
  {
    if steps != [] {
      AnswersHaveValues(c, Front(steps));
      RunInvariant(c, Front(steps));
      RunInvariant(c, steps);
      var s, step := Exec(c, Front(steps)), Last(steps);
      hide Between, AnswersExist, Enabled, Apply;
      if WithinBuild(step) { StepExists(c, s, step); } else { OutsideExists(c, s, step); }
    }
  }

  lemma OutsideExists(c: Client, s: State, step: Step)
    requires Enabled(s, step) && !WithinBuild(step)
    ensures AnswersExist(Apply(c, s, step))
  {
    hide WasBuilt, CancelledRules, AllReported, Verdict;
    match step case DoCancel => case DoStartBuild(_) => case DoNewEngine =>
  }
}
