/** What a build does to the results it started with. */
module EngineSince {
  import opened Options
  import opened EngineState
  import opened EngineSteps
  import opened EngineInvariant
  import opened EngineRuns
  import opened EngineTheorems
  import opened EngineValues

  // ---- What a build does to a result ---------------------------------------------------------------

  /** The value has not changed and its time has not, or both have. */
  ghost predicate Stamped(epoch: nat, before: Result, now: Result) {
    if now.value == before.value then now.computedAt == before.computedAt else now.computedAt == epoch
  }

  /** Rule `x`, in a build that started from `s0`. Until it runs it has the result it had; a task that
      has not reported has not touched the value; and if the build is `plain`, so that no task
      reports a forced change, value and time change together. */
  ghost predicate RuleSince(plain: bool, s0: State, s: State, x: KeyID) {
    var before, now := Info(s0, x).result, Info(s, x).result;
    && (plain ==> Stamped(s.epoch, before, now))
    && (Running(Info(s, x).phase) && x !in s.finishedTaskInfos ==> now.value == before.value && now.computedAt == before.computedAt)
    && (!Running(Info(s, x).phase) && !CompleteNow(s, x) ==> Cleaned(now) == Cleaned(before))
    && (s.tidy && (Scanning(s, x) || Verdict(s, x)) ==> now == Cleaned(now))
    && (s.tidy && !s.broken && (Scanning(s, x) || Verdict(s, x) || x in s.created) ==> !Info(s, x).wasForced)
  }

  ghost predicate Since(plain: bool, s0: State, s: State) {
    s.building && s.cancelled == s0.cancelled && forall x :: RuleSince(plain, s0, s, x)
  }

  /** Only rule `k` may have changed. */
  ghost predicate OneRule(s: State, s': State, k: KeyID) {
    && s'.epoch == s.epoch && s'.tidy == s.tidy && s'.building == s.building && s'.cancelled == s.cancelled
    && (s.broken ==> s'.broken)
    && forall x :: x != k ==>
         Info(s', x) == Info(s, x) && (x in s'.finishedTaskInfos <==> x in s.finishedTaskInfos) && (x in s'.created <==> x in s.created)
  }

  lemma OneRuleSince(plain: bool, s0: State, s: State, s': State, k: KeyID)
    requires Since(plain, s0, s) && OneRule(s, s', k) && RuleSince(plain, s0, s', k)
    ensures Since(plain, s0, s')
  {
    hide Stamped, Cleaned;
    forall x ensures RuleSince(plain, s0, s', x) { assert RuleSince(plain, s0, s, x); }
  }

  /** No rule has. */
  ghost predicate NoRule(s: State, s': State) {
    && s'.epoch == s.epoch && s'.tidy == s.tidy && s'.building == s.building && s'.cancelled == s.cancelled
    && s'.rules == s.rules && s'.db == s.db && s'.finishedTaskInfos == s.finishedTaskInfos && s'.created == s.created && (s.broken ==> s'.broken)
  }

  lemma NoRuleSince(plain: bool, s0: State, s: State, s': State)
    requires Since(plain, s0, s) && NoRule(s, s')
    ensures Since(plain, s0, s')
  {
    hide Stamped, Cleaned;
    forall x ensures RuleSince(plain, s0, s', x) { assert RuleSince(plain, s0, s, x); assert Info(s', x) == Info(s, x); }
  }

  lemma CleanedStays(res: Result)
    ensures Cleaned(Cleaned(res)) == Cleaned(res)
  {
    CleanedTwice(res.dependencies);
  }

  // ---- The operations ------------------------------------------------------------------------------

  lemma StartScanSince(plain: bool, s0: State, s: State, k: KeyID, look: Look)
    requires Since(plain, s0, s) && !IsScanned(s, k) && !Scanning(s, k)
    ensures Since(plain, s0, StartScan(s, k, Cleaned(Info(s, k).result), look))
  {
    hide Cleaned, Since;
    var s' := StartScan(s, k, Cleaned(Info(s, k).result), look);
    assert RuleSince(plain, s0, s, k) by { assert Since(plain, s0, s); SinceAt(plain, s0, s, k); }
    CleanedStays(Info(s, k).result);
    assert Cleaned(Info(s, k).result) == Info(s, k).result.(dependencies := Cleaned(Info(s, k).result).dependencies) by { CleanedKeeps(Info(s, k).result); }
    StartsOne(s, k, Cleaned(Info(s, k).result), look);
    OneRuleSince(plain, s0, s, s', k);
  }

  lemma SinceAt(plain: bool, s0: State, s: State, x: KeyID)
    requires Since(plain, s0, s)
    ensures RuleSince(plain, s0, s, x)
  {
  }

  lemma CleanedKeeps(res: Result)
    ensures Cleaned(res) == res.(dependencies := Cleaned(res).dependencies)
  {
  }

  lemma StartsOne(s: State, k: KeyID, res: Result, look: Look)
    ensures var s' := StartScan(s, k, res, look);
      OneRule(s, s', k) && s'.finishedTaskInfos == s.finishedTaskInfos && Info(s', k).result == res && !Info(s', k).wasForced && (Scanning(s', k) || Verdict(s', k))
  {
    match look case MustRun => case MayStay => case MustScan(_) =>
  }

  lemma ScanRuleSince(plain: bool, c: Client, s0: State, s: State, k: KeyID)
    requires Since(plain, s0, s)
    ensures var s' := ScanRule(c, s, k);
      && Since(plain, s0, s') && (Scanning(s', k) || IsScanned(s', k))
      && forall x :: (Scanning(s, x) ==> Scanning(s', x)) && (Waiting(s, x) ==> Waiting(s', x))
  {
    hide Since, StartScan, FirstLook, Cleaned, RuleSince;
    if !IsScanned(s, k) && !Scanning(s, k) {
      var res, look := Cleaned(Info(s, k).result), FirstLook(c, s.epoch, k, Cleaned(Info(s, k).result));
      StartScanSince(plain, s0, s, k, look);
      StartsOne(s, k, res, look);
    }
  }

  lemma LaunchSince(plain: bool, s0: State, s: State, k: KeyID, asks: seq<Dependency>)
    requires Since(plain, s0, s) && Info(s, k).phase.NeedsToRun?
    ensures Since(plain, s0, LaunchTask(s, k, asks))
  {
    hide Asking, Requests, PushIf, Since;
    SinceAt(plain, s0, s, k);
    var s' := LaunchTask(s, k, asks);
    assert Info(s, k).result.value == Info(s0, k).result.value && Info(s, k).result.computedAt == Info(s0, k).result.computedAt;
    OneRuleSince(plain, s0, s, s', k);
  }

  lemma SetCompleteSince(plain: bool, s0: State, s: State, k: KeyID)
    requires Since(plain, s0, s)
    ensures Since(plain, s0, SetComplete(s, k))
  {
    hide Since, Cleaned;
    SinceAt(plain, s0, s, k);
    OneRuleSince(plain, s0, s, SetComplete(s, k), k);
  }

  lemma DemandRuleSince(plain: bool, c: Client, s0: State, s: State, k: KeyID)
    requires Since(plain, s0, s)
    ensures var s' := DemandRule(c, s, k);
      && Since(plain, s0, s')
      && forall x :: (Scanning(s, x) ==> Scanning(s', x)) && (Waiting(s, x) ==> Waiting(s', x))
  {
    hide Since;
    if Info(s, k).phase.DoesNotNeedToRun? {
      SetCompleteSince(plain, s0, s, k);
    } else if Info(s, k).phase.NeedsToRun? {
      LaunchSince(plain, s0, s, k, c.onStart(s.epoch, k));
    }
  }

  lemma FinishHandSince(plain: bool, s0: State, s: State, k: KeyID, phase: Phase)
    requires Since(plain, s0, s) && Scanning(s, k) && (phase.NeedsToRun? || phase.DoesNotNeedToRun?)
    ensures Since(plain, s0, FinishHand(s, k, phase))
  {
    hide Since, Cleaned, Stamped;
    SinceAt(plain, s0, s, k);
    OneRuleSince(plain, s0, s, FinishHand(s, k, phase), k);
  }

  lemma AdvanceSince(plain: bool, s0: State, s: State, r: ScanRequest)
    requires Since(plain, s0, s) && Scanning(s, r.rule)
    ensures Since(plain, s0, Advance(s, r))
  {
    hide Since, FinishHand;
    if r.index + 1 != |Info(s, r.rule).result.dependencies| {
      NoRuleSince(plain, s0, s, PutBack(s, Next(r)));
    } else {
      FinishHandSince(plain, s0, s, r.rule, if r.needsToRun then NeedsToRun else DoesNotNeedToRun);
    }
  }

  lemma ConcludeSince(plain: bool, c: Client, s0: State, s: State, r: ScanRequest, d: KeyID)
    requires Since(plain, s0, s) && Scanning(s, r.rule)
    ensures Since(plain, s0, Conclude(c, s, r, d))
  {
    hide Since, FinishHand, Advance, InputRebuilt;
    if !InputRebuilt(s, r, d) {
      AdvanceSince(plain, s0, s, r);
    } else if c.checksBefore(s.epoch, r.rule) {
      AdvanceSince(plain, s0, s, r.(needsToRun := true));
    } else {
      FinishHandSince(plain, s0, s, r.rule, NeedsToRun);
    }
  }

  lemma AfterLookUpSince(plain: bool, c: Client, s0: State, s: State, r: ScanRequest, d: KeyID)
    requires Since(plain, s0, s) && Scanning(s, r.rule)
    ensures Since(plain, s0, AfterLookUp(c, s, r, d))
  {
    hide Since, ScanRule, DemandRule, Conclude, Scanning, CompleteNow, IsScanned, Waiting;
    var s2 := ScanRule(c, s, d);
    ScanRuleSince(plain, c, s0, s, d);
    if Scanning(s2, d) {
      NoRuleSince(plain, s0, s2, DeferOnScan(s2, r, d));
    } else {
      var s3 := DemandRule(c, s2, d);
      DemandRuleSince(plain, c, s0, s2, d);
      if CompleteNow(s3, d) { ConcludeSince(plain, c, s0, s3, r, d); } else { NoRuleSince(plain, s0, s3, DeferOnTask(s3, r, d)); }
    }
  }

  lemma ScanOneSince(plain: bool, c: Client, s0: State, s: State)
    requires Since(plain, s0, s) && s.ruleInfosToScan != []
    ensures Since(plain, s0, ScanOne(c, s))
  {
    hide Since, Advance, AfterLookUp, SkipsDependency, Last, Front;
    var s1, r := TakeScan(s), Last(s.ruleInfosToScan);
    NoRuleSince(plain, s0, s, s1);
    if !Scanning(s1, r.rule) {
      NoRuleSince(plain, s0, s1, s1.(curScan := []));
    } else if SkipsDependency(c, s1, r) {
      AdvanceSince(plain, s0, s1, r);
    } else {
      var s2 := s1.(curScan := [LookUp(s1, r)]);
      NoRuleSince(plain, s0, s1, s2);
      AfterLookUpSince(plain, c, s0, s2, LookUp(s1, r), LookUp(s1, r).input.value);
    }
  }

  lemma RecordSince(plain: bool, s0: State, s: State, r: InputRequest, t: KeyID)
    requires Since(plain, s0, s) && Waiting(s, t)
    ensures Since(plain, s0, Record(s, r, t))
  {
    hide Since, Cleaned, Recorded, Record;
    SinceAt(plain, s0, s, t);
    var s1 := Recorded(s, r, t);
    RecordedOne(s, r, t);
    OneRuleSince(plain, s0, s, s1, t);
    RecordNoRule(s, r, t);
    NoRuleSince(plain, s0, s1, Record(s, r, t));
  }

  lemma RecordedOne(s: State, r: InputRequest, t: KeyID)
    ensures var s' := Recorded(s, r, t);
      && OneRule(s, s', t) && s'.finishedTaskInfos == s.finishedTaskInfos && Info(s', t).phase == Info(s, t).phase
      && s'.created == s.created && s'.broken == s.broken && Info(s', t).wasForced == Info(s, t).wasForced && Info(s', t).result == Info(s, t).result.(dependencies := Info(s', t).result.dependencies)
  {
    hide TaskOf;
  }

  lemma RecordNoRule(s: State, r: InputRequest, t: KeyID)
    ensures NoRule(Recorded(s, r, t), Record(s, r, t))
  {
    hide Recorded, CompleteNow;
  }

  lemma InputOneSince(plain: bool, c: Client, s0: State, s: State)
    requires Since(plain, s0, s) && RequestsOk(s) && s.inputRequests != []
    ensures Since(plain, s0, InputOne(c, s))
  {
    var r := s.inputRequests[0];
    assert Live(s, r);
    hide Since, ScanRule, DemandRule, Record, RequestsOk, IsScanned;
    var s0' := TakeInput(s);
    NoRuleSince(plain, s0, s, s0');
    assert r.task.Some? ==> Waiting(s0', r.task.value);
    hide Waiting, Scanning;
    var s1 := ScanRule(c, s0', r.input);
    ScanRuleSince(plain, c, s0, s0', r.input);
    if Scanning(s1, r.input) {
      NoRuleSince(plain, s0, s1, Pause(s1, r));
    } else {
      var s2 := DemandRule(c, s1, r.input);
      DemandRuleSince(plain, c, s0, s1, r.input);
      if r.task.None? { NoRuleSince(plain, s0, s2, s2.(curInput := [])); } else { RecordSince(plain, s0, s2, r, r.task.value); }
    }
  }

  lemma DeliverOneSince(plain: bool, c: Client, s0: State, s: State)
    requires Since(plain, s0, s) && s.finishedInputRequests != []
    ensures Since(plain, s0, DeliverOne(c, s))
  {
    hide Since, GotAfter, AsksAfter, Last, Asking, Requests, PushIf, TaskOf;
    var r := Last(s.finishedInputRequests);
    if r.task.None? {
      NoRuleSince(plain, s0, s, s.(finishedInputRequests := Front(s.finishedInputRequests)));
    } else {
      DeliverNoRule(s, r, r.task.value, GotAfter(s, r, r.task.value), AsksAfter(c, s, r, r.task.value));
      NoRuleSince(plain, s0, s, DeliverOne(c, s));
    }
  }

  lemma DeliverNoRule(s: State, r: InputRequest, t: KeyID, got: seq<Delivery>, asks: seq<Dependency>)
    requires s.finishedInputRequests != []
    ensures NoRule(s, Deliver(s, r, t, got, asks))
  {
    hide Asking, Requests, PushIf, TaskOf;
  }

  lemma ReadyOneSince(plain: bool, s0: State, s: State)
    requires Since(plain, s0, s) && QueuesOk(s) && s.readyTaskInfos != []
    ensures Since(plain, s0, ReadyOne(s))
  {
    var t := s.readyTaskInfos[0];
    assert Waiting(s, t);
    hide Since, Cleaned, QueuesOk;
    SinceAt(plain, s0, s, t);
    OneRuleSince(plain, s0, s, ReadyOne(s), t);
  }

  lemma ReportSince(plain: bool, c: Client, s0: State, s: State, t: KeyID, value: Value, force: bool, found: seq<Delivery>)
    requires Since(plain, s0, s) && Computing(s, t) && t !in s.finishedTaskInfos && !(plain && force)
    ensures Since(plain, s0, TaskIsComplete(c, s, t, value, force, found))
  {
    hide Since, Cleaned, Discovered, TaskOf;
    SinceAt(plain, s0, s, t);
    var s' := TaskIsComplete(c, s, t, value, force, found);
    assert Info(s', t).phase == Info(s, t).phase && t in s'.finishedTaskInfos;
    OneRuleSince(plain, s0, s, s', t);
  }

  lemma FinishOneSince(plain: bool, s0: State, s: State)
    requires Since(plain, s0, s) && s.finishedTaskInfos != []
    ensures Since(plain, s0, FinishOne(s))
  {
    hide Since, Cleaned, Dummies, KeysOf, At;
    var t := Last(s.finishedTaskInfos);
    SinceAt(plain, s0, s, t);
    var s' := FinishOne(s);
    assert s.finishedTaskInfos == s'.finishedTaskInfos + [t];
    OneRuleSince(plain, s0, s, s', t);
  }

  lemma ForceSince(plain: bool, s0: State, s: State, k: KeyID)
    requires Since(plain, s0, s) && Scanning(s, k)
    ensures Since(plain, s0, ForceBuild(s, k))
  {
    hide Since, Cleaned, WithoutScansOf;
    SinceAt(plain, s0, s, k);
    var s' := ForceBuild(s, k);
    assert Info(s', k).phase.NeedsToRun? && Info(s', k).result == Info(s, k).result && s'.broken;
    OneRuleSince(plain, s0, s, s', k);
  }

  // ---- A build ----------------------------------------------------------------------------------------

  /** A step that does not force a change. */
  predicate Plain(step: Step) {
    step.DoTaskIsComplete? ==> !step.force
  }

  lemma StepSince(plain: bool, c: Client, s0: State, s: State, step: Step)
    requires Since(plain, s0, s) && Between(c, s) && Enabled(s, step) && WithinBuild(step) && (plain ==> Plain(step))
    ensures Since(plain, s0, Apply(c, s, step))
  {
    BetweenParts(c, s);
    hide Since, Between, RequestsOk, QueuesOk, ScanOne, InputOne, DeliverOne, ReadyOne, TaskIsComplete, FinishOne, ForceBuild, SupplyPriorValue;
    match step {
      case DoScan => ScanOneSince(plain, c, s0, s);
      case DoInput => InputOneSince(plain, c, s0, s);
      case DoDeliver => DeliverOneSince(plain, c, s0, s);
      case DoReady => ReadyOneSince(plain, s0, s);
      case DoTaskIsComplete(t, v, f, found) => ReportSince(plain, c, s0, s, t, v, f, found);
      case DoFinish => FinishOneSince(plain, s0, s);
      case DoForceBuild(k) => ForceSince(plain, s0, s, k);
      case DoSupplyPriorValue(k, i) => SupplyNoRule(s, k, i); NoRuleSince(plain, s0, s, SupplyPriorValue(s, k, i));
    }
  }

  lemma SupplyNoRule(s: State, k: KeyID, i: nat)
    requires i < |At(s.requestedBy, k)|
    ensures NoRule(s, SupplyPriorValue(s, k, i))
  {
  }

  lemma StartSince(plain: bool, c: Client, s0: State, root: KeyID)
    requires Between(c, s0) && Quiet(s0)
    ensures Since(plain, s0, StartBuild(s0, root))
  {
    Unpack0(c, s0);
    var s := StartBuild(s0, root);
    hide Between, Cleaned;
    forall x ensures RuleSince(plain, s0, s, x) {
      assert Info(s, x) == Info(s0, x);
      assert x !in s0.tasks && x !in s0.paused;
      if Verdict(s, x) { assert x in s0.rules; }
    }
  }

  lemma Unpack0(c: Client, s: State)
    requires Between(c, s)
    ensures Shape(s) && TimesOk(s)
  {
    hide Shape, TimesOk, RequestsOk, CountsOk, TasksOk, QueuesOk, OwnersOk, ScansOk, VerdictsOk, OwedOk, DemandsOk, Quiet;
  }

  /** Step `n` of the run starts its last build. */
  ghost predicate LastBuild(steps: seq<Step>, n: nat) {
    n < |steps| && steps[n].DoStartBuild? && forall i :: n < i < |steps| ==> WithinBuild(steps[i])
  }

  ghost predicate PlainBuild(steps: seq<Step>, n: nat) {
    forall i :: n < i < |steps| ==> Plain(steps[i])
  }

  lemma {:induction false} PrefixLegal(c: Client, steps: seq<Step>, n: nat)
    requires Legal(c, steps) && n <= |steps|
    ensures Legal(c, steps[..n])
    decreases |steps|
  {
    if n < |steps| {
      PrefixLegal(c, Front(steps), n);
      assert Front(steps)[..n] == steps[..n];
    } else {
      assert steps[..n] == steps;
    }
  }

  lemma LastBuildFront(steps: seq<Step>, n: nat)
    requires LastBuild(steps, n) && n < |steps| - 1
    ensures LastBuild(Front(steps), n) && WithinBuild(Last(steps)) && Front(steps)[..n] == steps[..n]
    ensures PlainBuild(steps, n) ==> PlainBuild(Front(steps), n) && Plain(Last(steps))
  {
    hide WithinBuild, Plain;
    forall i | n < i < |Front(steps)| ensures WithinBuild(Front(steps)[i]) && (PlainBuild(steps, n) ==> Plain(Front(steps)[i])) {
      assert Front(steps)[i] == steps[i];
    }
  }

  /** In a build, whatever is forced, every result changes as it should; if no change is forced then a
      result has its old value and its old time, or a new value and the current time. */
  lemma {:induction false} BuildSince(c: Client, steps: seq<Step>, n: nat)
    requires Legal(c, steps) && LastBuild(steps, n)
    ensures Legal(c, steps[..n]) && Exec(c, steps).epoch == Exec(c, steps[..n]).epoch + 1
    ensures Since(PlainBuild(steps, n), Exec(c, steps[..n]), Exec(c, steps))
    decreases |steps|
  {
    hide Since, Between, Apply, Enabled, WithinBuild, Plain, PlainBuild, LastBuild;
    assert n < |steps| && steps[n].DoStartBuild? by { Started(steps, n); }
    PrefixLegal(c, steps, n);
    var front, last := Front(steps), Last(steps);
    RunInvariant(c, front);
    if n == |front| {
      assert front == steps[..n];
      StartsSo(c, Exec(c, front), last, PlainBuild(steps, n));
    } else {
      LastBuildFront(steps, n);
      BuildSince(c, front, n);
      LessPlain(PlainBuild(front, n), PlainBuild(steps, n), Exec(c, steps[..n]), Exec(c, front));
      StepSince(PlainBuild(steps, n), c, Exec(c, steps[..n]), Exec(c, front), last);
      SameEpoch(c, Exec(c, front), last);
    }
  }

  lemma Started(steps: seq<Step>, n: nat)
    requires LastBuild(steps, n)
    ensures n < |steps| && steps[n].DoStartBuild?
  {
  }

  lemma LessPlain(plain: bool, plain': bool, s0: State, s: State)
    requires Since(plain, s0, s) && (plain' ==> plain)
    ensures Since(plain', s0, s)
  {
    hide Stamped, Cleaned;
    forall x ensures RuleSince(plain', s0, s, x) { assert RuleSince(plain, s0, s, x); }
  }

  lemma StartsSo(c: Client, s: State, step: Step, plain: bool)
    requires Between(c, s) && Enabled(s, step) && step.DoStartBuild?
    ensures Since(plain, s, Apply(c, s, step)) && Apply(c, s, step).epoch == s.epoch + 1
  {
    hide Since, Between, Quiet;
    StartSince(plain, c, s, step.root);
  }

  lemma SameEpoch(c: Client, s: State, step: Step)
    requires Between(c, s) && Enabled(s, step) && WithinBuild(step)
    ensures Apply(c, s, step).epoch == s.epoch
  {
    hide Between, Apply, Enabled, Inv;
    StepKeeps(c, s, step);
  }
}
