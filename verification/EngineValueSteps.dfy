/** Every step of a build keeps the results right. */
module EngineValueSteps {
  import opened Options
  import opened EngineState
  import opened EngineSteps
  import opened EngineCounts
  import opened EngineInvariant
  import opened EngineFrames
  import opened EngineRules
  import opened EngineDemand
  import opened EngineScanning
  import opened EngineInputs
  import opened EngineDelivery
  import opened EngineCompletion
  import opened EngineRuns
  import opened CleanBuild
  import opened EngineValues

  /** What the client promises about the rules. */
  ghost predicate Lawful(c: Client, b: Behaviour) {
    Monotone(b) && Follows(c, b) && Detects(c, b)
  }

  ghost predicate Good(c: Client, b: Behaviour, s: State) {
    Inv(c, s) && Val(c, b, s) && Open(s)
  }

  // ---- Moving work about -------------------------------------------------------------------------

  ghost predicate Moved(s: State, s': State) {
    SameRecord(s, s') && s'.tasks == s.tasks && forall x :: Info(s', x) == Info(s, x)
  }

  lemma MovedGentle(b: Behaviour, s: State, s': State)
    requires Moved(s, s') && TasksVal(b, s)
    ensures Gentle(s, s') && SameReports(s, s') && TasksVal(b, s')
  {
    hide WantedInOrder, AllClean, Wanted, AllRecorded;
    forall t | t in s'.tasks ensures TaskVal(b, s', t) { assert TaskVal(b, s, t); }
  }

  lemma MovedVal(c: Client, b: Behaviour, s: State, s': State)
    requires Val(c, b, s) && Open(s) && Moved(s, s')
    ensures Val(c, b, s') && Open(s')
  {
    hide Val, Moved, Gentle, SameReports, TasksVal;
    UnpackVal(c, b, s);
    MovedGentle(b, s, s');
    GentleKeeps(c, b, s, s');
    assert Open(s') by { var _ := Moved(s, s'); MovedOpen(s, s'); }
  }

  lemma MovedOpen(s: State, s': State)
    requires Moved(s, s')
    ensures Open(s') == Open(s)
  {
  }

  // ---- One rule changes ----------------------------------------------------------------------------

  lemma OneGentle(s: State, s': State, k: KeyID)
    requires Only(s, s', k) && s'.db == s.db && s'.cancelled == s.cancelled && s'.finishedTaskInfos == s.finishedTaskInfos
    requires !CompleteNow(s, k) && !CompleteNow(s', k)
    requires Info(s', k).result == Info(s, k).result.(dependencies := Info(s', k).result.dependencies)
    requires !Running(Info(s', k).phase) ==> !Running(Info(s, k).phase) && Kept(Info(s, k).result.dependencies, Info(s', k).result.dependencies)
    ensures Gentle(s, s')
  {
    hide Kept;
    forall x | x != k ensures Info(s', x) == Info(s, x) {}
    forall x ensures Kept(Info(s, x).result.dependencies, Info(s, x).result.dependencies) { KeptSame(Info(s, x).result.dependencies); }
  }

  lemma KeptSame(ds: seq<Dependency>)
    ensures Kept(ds, ds)
  {
  }

  /** Tasks other than `k` see no difference. */
  lemma OtherTask(b: Behaviour, s: State, s': State, k: KeyID, t: KeyID)
    requires t in s.tasks && TaskVal(b, s, t) && t != k && Only(s, s', k) && t in s'.tasks && s'.tasks[t] == s.tasks[t]
    ensures TaskVal(b, s', t)
  {
    hide WantedInOrder, AllClean, Wanted, AllRecorded;
  }

  /** A rule without a task changes phase. */
  ghost predicate Rephased(s: State, s': State, k: KeyID) {
    && Only(s, s', k) && s'.db == s.db && s'.cancelled == s.cancelled && s'.finishedTaskInfos == s.finishedTaskInfos
    && s'.tasks == s.tasks && k !in s.tasks && !CompleteNow(s, k) && !CompleteNow(s', k)
    && Info(s', k).result == Info(s, k).result.(dependencies := Info(s', k).result.dependencies)
    && !Running(Info(s', k).phase) && !Running(Info(s, k).phase)
    && Kept(Info(s, k).result.dependencies, Info(s', k).result.dependencies)
  }

  lemma RephasedTasks(b: Behaviour, s: State, s': State, k: KeyID)
    requires Rephased(s, s', k) && TasksVal(b, s)
    ensures TasksVal(b, s') && SameReports(s, s')
  {
    hide TaskVal, Kept;
    forall t | t in s'.tasks ensures TaskVal(b, s', t) { OtherTask(b, s, s', k, t); }
  }

  lemma RephasedParts(s: State, s': State, k: KeyID)
    requires Rephased(s, s', k)
    ensures Gentle(s, s') && Open(s') == Open(s)
  {
    hide Kept, Gentle;
    OneGentle(s, s', k);
  }

  lemma RephasedVal(c: Client, b: Behaviour, s: State, s': State, k: KeyID)
    requires Val(c, b, s) && Open(s) && Rephased(s, s', k)
    ensures Val(c, b, s') && Open(s')
  {
    hide Val, Rephased, Gentle, SameReports, TasksVal;
    UnpackVal(c, b, s);
    RephasedTasks(b, s, s', k);
    RephasedParts(s, s', k);
    GentleKeeps(c, b, s, s');
  }

  // ---- scanRule --------------------------------------------------------------------------------------

  lemma StartScanRephases(s: State, k: KeyID, look: Look)
    requires k !in s.tasks && !CompleteNow(s, k) && !Running(Info(s, k).phase)
    ensures Rephased(s, StartScan(s, k, Cleaned(Info(s, k).result), look), k)
  {
    hide WithoutSingleUse;
    match look case MustRun => case MayStay => case MustScan(_) =>
  }

  lemma ScanRuleVal(c: Client, b: Behaviour, s: State, k: KeyID)
    requires Good(c, b, s)
    ensures Val(c, b, ScanRule(c, s, k)) && Open(ScanRule(c, s, k))
  {
    hide Inv, Val, StartScan, FirstLook, Cleaned;
    if !IsScanned(s, k) && !Scanning(s, k) {
      var look := FirstLook(c, s.epoch, k, Cleaned(Info(s, k).result));
      NotStarted(c, s, k);
      StartScanRephases(s, k, look);
      RephasedVal(c, b, s, StartScan(s, k, Cleaned(Info(s, k).result), look), k);
    }
  }

  // ---- Ending a scan ---------------------------------------------------------------------------------

  lemma FinishRephases(s: State, k: KeyID, phase: Phase)
    requires Shape(s) && Scanning(s, k) && (phase.NeedsToRun? || phase.DoesNotNeedToRun?)
    ensures Rephased(s, FinishHand(s, k, phase), k)
  {
    var _ := Info(s, k);
    KeptSame(Info(s, k).result.dependencies);
  }

  lemma FinishHandVal(c: Client, b: Behaviour, s: State, k: KeyID, phase: Phase)
    requires Good(c, b, s) && Scanning(s, k) && (phase.NeedsToRun? || phase.DoesNotNeedToRun?)
    ensures Val(c, b, FinishHand(s, k, phase)) && Open(FinishHand(s, k, phase))
  {
    hide Inv, Val, FinishHand, Rephased, Shape;
    assert Shape(s) by { Unpack(c, s); }
    FinishRephases(s, k, phase);
    RephasedVal(c, b, s, FinishHand(s, k, phase), k);
  }

  lemma PutBackMoves(s: State, r: ScanRequest)
    ensures Moved(s, PutBack(s, r))
  {
  }

  lemma AdvanceVal(c: Client, b: Behaviour, s: State, r: ScanRequest)
    requires Good(c, b, s) && Scanning(s, r.rule)
    ensures Val(c, b, Advance(s, r)) && Open(Advance(s, r))
  {
    hide Inv, Val, FinishHand, PutBack, Moved, Open;
    PutBackMoves(s, Next(r));
    MovedVal(c, b, s, PutBack(s, Next(r)));
    FinishHandVal(c, b, s, r.rule, if r.needsToRun then NeedsToRun else DoesNotNeedToRun);
  }

  lemma ConcludeVal(c: Client, b: Behaviour, s: State, r: ScanRequest, d: KeyID)
    requires Good(c, b, s) && Scanning(s, r.rule)
    ensures Val(c, b, Conclude(c, s, r, d)) && Open(Conclude(c, s, r, d))
  {
    hide Good, Val, FinishHand, Advance, Open, InputRebuilt;
    AdvanceVal(c, b, s, r);
    AdvanceVal(c, b, s, r.(needsToRun := true));
    FinishHandVal(c, b, s, r.rule, NeedsToRun);
  }

  // ---- Creating a task ---------------------------------------------------------------------------------

  lemma LaunchTaskVal(b: Behaviour, s: State, k: KeyID, asks: seq<Dependency>)
    requires CanLaunch(s, k) && Wanted(b, s.epoch, k, map[], asks)
    ensures TaskVal(b, LaunchTask(s, k, asks), k)
  {
    hide Requests, Wanted;
    assert Asking(NEW_TASK, asks).asked == asks;
  }

  lemma LaunchTasksVal(b: Behaviour, s: State, k: KeyID, asks: seq<Dependency>)
    requires CanLaunch(s, k) && Wanted(b, s.epoch, k, map[], asks) && TasksVal(b, s)
    ensures TasksVal(b, LaunchTask(s, k, asks))
  {
    hide TaskVal, Wanted, Requests, Asking, PushIf;
    var s' := LaunchTask(s, k, asks);
    LaunchOnly(s, k, asks);
    forall t | t in s'.tasks ensures TaskVal(b, s', t) {
      if t == k { LaunchTaskVal(b, s, k, asks); } else { OtherTask(b, s, s', k, t); }
    }
  }

  lemma LaunchGentle(s: State, k: KeyID, asks: seq<Dependency>)
    requires CanLaunch(s, k)
    ensures var s' := LaunchTask(s, k, asks); Gentle(s, s') && SameReports(s, s') && Open(s') == Open(s)
  {
    hide Requests, Asking, PushIf, Gentle;
    LaunchOnly(s, k, asks);
    OneGentle(s, LaunchTask(s, k, asks), k);
  }

  lemma LaunchVal(c: Client, b: Behaviour, s: State, k: KeyID)
    requires Good(c, b, s) && Lawful(c, b) && Info(s, k).phase.NeedsToRun?
    ensures var s' := LaunchTask(s, k, c.onStart(s.epoch, k)); Val(c, b, s') && Open(s')
  {
    hide Inv, Val, LaunchTask, Gentle, SameReports, TasksVal, Wanted, Monotone, Detects;
    NoTask(c, s, k);
    var asks := c.onStart(s.epoch, k);
    assert Wanted(b, s.epoch, k, map[], asks);
    UnpackVal(c, b, s);
    LaunchTasksVal(b, s, k, asks);
    LaunchGentle(s, k, asks);
    GentleKeeps(c, b, s, LaunchTask(s, k, asks));
  }

  // ---- An up-to-date rule is complete without running ------------------------------------------------

  /** `k` was found up to date; `s'` is the state once it is marked complete. */
  ghost predicate Skips(c: Client, s: State, s': State, k: KeyID) {
    && UpToDate(c, s, k) && Info(s, k).phase.DoesNotNeedToRun? && Info(s, k).result.builtAt < s.epoch && k !in s.tasks
    && s' == SetComplete(s, k)
  }

  lemma SkipsOnly(c: Client, s: State, s': State, k: KeyID)
    requires Skips(c, s, s', k)
    ensures Only(s, s', k) && SameRecord(s, s') && s'.tasks == s.tasks && CompleteNow(s', k)
    ensures Info(s', k).result == Info(s, k).result.(builtAt := s.epoch)
    ensures forall x :: CompleteNow(s, x) ==> CompleteNow(s', x)
    ensures forall x :: x != k ==> Info(s', x) == Info(s, x)
  {
  }

  /** Recorded inputs survive the cleaning of single-use ones. */
  lemma RecordedStays(m: Result, d: Result, k: KeyID)
    requires Agree(m, d) && ValueDep(d.dependencies, k)
    ensures exists x :: x in m.dependencies && x.key == k && !x.orderOnly
  {
    var x :| x in d.dependencies && x.key == k && !x.orderOnly && !x.singleUse;
    assert x in Cleaned(d).dependencies;
    assert x in Cleaned(m).dependencies;
  }

  /** The value an up-to-date rule once used is still the value of that input, and clean. */
  lemma InputStillClean(c: Client, b: Behaviour, s: State, k: KeyID, u: Delivery)
    requires DbOk(c, b, s) && AgreeOk(s) && SkipOk(s) && DoneOk(b, s) && Open(s)
    requires UpToDate(c, s, k) && Info(s, k).phase.DoesNotNeedToRun? && Info(s, k).result.builtAt < s.epoch
    requires k in s.db && s.db[k].builtAt <= Info(s, k).result.builtAt && u in Info(s, k).result.used
    ensures Clean(b, s.epoch, u.key, u.value) && CompleteNow(s, u.key)
  {
    hide Clean, AllClean, Computes, UsedHere, AllComplete, Matches, Cleaned, ValueDep;
    var m := Info(s, k).result;
    assert Agree(m, s.db[k]);
    assert Sound(c, b, k, s.db[k]) && InputOk(b, s, s.db[k], u);
    assert ValueDep(s.db[k].dependencies, u.key);
    RecordedStays(m, s.db[k], u.key);
    var d :| d in m.dependencies && d.key == u.key && !d.orderOnly;
    assert Unchanged(s, k, d) && Apart(s, k, d);
    var i := Info(s, u.key);
    assert Agree(i.result, s.db[u.key]);
  }

  lemma SkippedClean(c: Client, b: Behaviour, s: State, k: KeyID)
    requires DbOk(c, b, s) && AgreeOk(s) && SkipOk(s) && DoneOk(b, s) && Open(s) && Detects(c, b)
    requires UpToDate(c, s, k) && Info(s, k).phase.DoesNotNeedToRun? && Info(s, k).result.builtAt < s.epoch
    requires k in s.db && s.db[k].builtAt <= Info(s, k).result.builtAt
    ensures var res := Info(s, k).result;
      AllClean(b, s.epoch, res.used) && Clean(b, s.epoch, k, res.value) && forall u :: u in res.used ==> CompleteNow(s, u.key)
  {
    var res := Info(s, k).result;
    assert Computes(b, s.epoch, k, res.used, res.value) by {
      hide Computes, SkipOk, DoneOk, InputsOk, AllRecorded, Cleaned;
      assert Agree(res, s.db[k]) && Sound(c, b, k, s.db[k]);
      assert Matches(c, s, k);
    }
    hide Clean, DbOk, AgreeOk, SkipOk, DoneOk, UpToDate, Computes, Detects, CompleteNow;
    forall u | u in res.used ensures Clean(b, s.epoch, u.key, u.value) && CompleteNow(s, u.key) {
      InputStillClean(c, b, s, k, u);
    }
    CleanFrom(b, s.epoch, k, res.used, res.value);
  }

  lemma SkipsDone(c: Client, b: Behaviour, s: State, s': State, k: KeyID)
    requires DbOk(c, b, s) && KnownOk(s) && AgreeOk(s) && SkipOk(s) && DoneOk(b, s) && Open(s) && Detects(c, b) && Skips(c, s, s', k)
    ensures DoneOk(b, s')
  {
    assert k in s.db by { hide DbOk, AgreeOk, SkipOk, DoneOk, Detects, Clean; }
    assert s.db[k].builtAt <= Info(s, k).result.builtAt by { hide DbOk, AgreeOk, SkipOk, DoneOk, Detects, Clean; }
    SkippedClean(c, b, s, k);
    SkipsOnly(c, s, s', k);
    assert AllComplete(s, Info(s, k).result.dependencies) by { hide DbOk, AgreeOk, SkipOk, DoneOk, Detects, Clean, Matches; }
    hide DbOk, KnownOk, AgreeOk, SkipOk, Detects, Clean, AllClean, UpToDate, Computes, SetComplete, Skips, Only;
    forall x | CompleteNow(s', x) && x != k
      ensures x in s'.db && Clean(b, s'.epoch, x, Info(s', x).result.value)
      ensures AllClean(b, s'.epoch, Info(s', x).result.used) && UsedHere(s', Info(s', x).result.used)
      ensures s'.db[x].builtAt == s'.epoch || AllComplete(s', Info(s', x).result.dependencies)
    {
      assert CompleteNow(s, x) && UsedHere(s, Info(s, x).result.used);
    }
    assert UsedHere(s', Info(s', k).result.used);
    assert AllComplete(s', Info(s', k).result.dependencies);
  }

  lemma SkipsSkip(c: Client, s: State, s': State, k: KeyID)
    requires KnownOk(s) && SkipOk(s) && Skips(c, s, s', k)
    ensures SkipOk(s')
  {
    hide Matches, KnownOk;
    SkipsOnly(c, s, s', k);
    forall x, d | x in s'.db && !Running(Info(s', x).phase) && d in Info(s', x).result.dependencies ensures Apart(s', x, d) {
      assert d in Info(s, x).result.dependencies && Apart(s, x, d);
      if x == k { assert Unchanged(s, k, d); }
      assert Info(s', d.key).result.computedAt == Info(s, d.key).result.computedAt;
    }
  }

  lemma SkipsDb(c: Client, b: Behaviour, s: State, s': State, k: KeyID)
    requires DbOk(c, b, s) && Skips(c, s, s', k)
    ensures DbOk(c, b, s')
  {
    hide Sound, Clean, UpToDate;
    SkipsOnly(c, s, s', k);
    forall x | x in s'.db ensures InputsOk(b, s', s'.db[x]) { assert InputsOk(b, s, s.db[x]); }
  }

  lemma SkipsKnown(c: Client, s: State, s': State, k: KeyID)
    requires KnownOk(s) && Skips(c, s, s', k) && Open(s)
    ensures KnownOk(s')
  {
    SkipsOnly(c, s, s', k);
    assert Stands(c, s.epoch, k, Info(s, k).result);
  }

  lemma SkipsAgree(c: Client, s: State, s': State, k: KeyID)
    requires AgreeOk(s) && StampOk(s) && Skips(c, s, s', k)
    ensures AgreeOk(s') && StampOk(s')
  {
    hide UpToDate, WithoutSingleUse;
    SkipsOnly(c, s, s', k);
    forall x | x in s'.db && !Running(Info(s', x).phase) ensures Agree(Info(s', x).result, s'.db[x]) {
      assert Agree(Info(s, x).result, s.db[x]);
    }
  }

  lemma SkipsTasks(c: Client, b: Behaviour, s: State, s': State, k: KeyID)
    requires TasksVal(b, s) && ReportsOk(c, b, s) && Skips(c, s, s', k)
    ensures TasksVal(b, s') && ReportsOk(c, b, s')
  {
    hide UpToDate, Computes, AllClean, AllRecorded, TaskVal;
    SkipsOnly(c, s, s', k);
    forall t | t in s'.tasks ensures TaskVal(b, s', t) { OtherTask(b, s, s', k, t); }
    forall t | t in s'.finishedTaskInfos ensures t in s'.tasks && RanNow(c, b, s', t) { assert RanNow(c, b, s, t); }
  }

  lemma SetCompleteVal(c: Client, b: Behaviour, s: State, k: KeyID)
    requires Good(c, b, s) && Lawful(c, b) && Info(s, k).phase.DoesNotNeedToRun?
    ensures var s' := SetComplete(s, k); Val(c, b, s') && Open(s')
  {
    var s' := SetComplete(s, k);
    assert Skips(c, s, s', k) by {
      NoTask(c, s, k);
      UnpackVal(c, b, s);
      hide Val, Inv, DbOk, AgreeOk, StampOk, SkipOk, DoneOk, TasksVal, ReportsOk;
      assert VerdictsOk(c, s) by { Unpack(c, s); }
      assert VerdictOk(c, s, k);
    }
    assert Detects(c, b) && Open(s');
    hide *;
    UnpackGood(c, b, s);
    SkipsDb(c, b, s, s', k);
    SkipsKnown(c, s, s', k);
    SkipsAgree(c, s, s', k);
    SkipsSkip(c, s, s', k);
    SkipsDone(c, b, s, s', k);
    SkipsTasks(c, b, s, s', k);
    PackVal(c, b, s');
  }

  lemma UnpackGood(c: Client, b: Behaviour, s: State)
    requires Good(c, b, s)
    ensures Inv(c, s) && Open(s) && !s.cancelled && s.building
    ensures DbOk(c, b, s) && KnownOk(s) && AgreeOk(s) && StampOk(s) && SkipOk(s) && DoneOk(b, s) && TasksVal(b, s) && ReportsOk(c, b, s)
  {
    hide Inv, DbOk, KnownOk, AgreeOk, StampOk, SkipOk, DoneOk, TasksVal, ReportsOk;
  }

  /** `demandRule` keeps the results right. */
  lemma DemandRuleVal(c: Client, b: Behaviour, s: State, k: KeyID)
    requires Good(c, b, s) && Lawful(c, b)
    ensures Val(c, b, DemandRule(c, s, k)) && Open(DemandRule(c, s, k))
  {
    hide Val, Inv, LaunchTask, SetComplete, Lawful;
    match Info(s, k).phase
    case DoesNotNeedToRun => SetCompleteVal(c, b, s, k);
    case NeedsToRun => LaunchVal(c, b, s, k);
    case _ =>
  }

  // ---- One scan request --------------------------------------------------------------------------------

  lemma ScansMoved(s: State, s': State)
    requires ScansMove(s, s')
    ensures Moved(s, s')
  {
  }

  lemma ScanMoves(s: State, r: ScanRequest, d: KeyID)
    ensures Moved(s, DeferOnScan(s, r, d)) && Moved(s, DeferOnTask(s, r, d))
    ensures Moved(s, s.(curScan := [])) && Moved(s, s.(curScan := [r]))
  {
    hide Moved;
    ScansMoved(s, DeferOnScan(s, r, d));
    ScansMoved(s, DeferOnTask(s, r, d));
    ScansMoved(s, s.(curScan := []));
    ScansMoved(s, s.(curScan := [r]));
  }

  lemma TakeScanMoves(s: State)
    requires s.ruleInfosToScan != []
    ensures Moved(s, TakeScan(s))
  {
    hide Moved;
    ScansMoved(s, TakeScan(s));
  }

  lemma AfterLookUpVal(c: Client, b: Behaviour, s: State, r: ScanRequest, d: KeyID)
    requires Good(c, b, s) && Lawful(c, b) && InHand(s, r) && Scanning(s, r.rule) && r.input == Some(d)
    ensures Val(c, b, AfterLookUp(c, s, r, d)) && Open(AfterLookUp(c, s, r, d))
  {
    hide Inv, Val, ScanRule, DemandRule, DeferOnScan, DeferOnTask, Conclude, Keeps, Hand, Scanning, InProgress, CompleteNow, Verdict, Lawful, Moved;
    HandOn(s, r, d);
    ScanRuleKeeps(c, s, d);
    ScanRuleMarks(c, s, d);
    ScanRuleVal(c, b, s, d);
    StillScanning(c, s, r.rule, d);
    var s2 := ScanRule(c, s, d);
    if Scanning(s2, d) {
      ScanMoves(s2, r, d);
      MovedVal(c, b, s2, DeferOnScan(s2, r, d));
    } else {
      var s3 := DemandRule(c, s2, d);
      DemandRuleKeeps(c, s2, d);
      DemandRuleVal(c, b, s2, d);
      StillScanning(c, s2, r.rule, d);
      ScanMoves(s3, r, d);
      if CompleteNow(s3, d) {
        ConcludeVal(c, b, s3, r, d);
      } else {
        MovedVal(c, b, s3, DeferOnTask(s3, r, d));
      }
    }
  }

  lemma ProcessScanVal(c: Client, b: Behaviour, s: State, r: ScanRequest)
    requires Good(c, b, s) && Lawful(c, b) && InHand(s, r) && (r.input.Some? ==> IsScanned(s, r.input.value))
    ensures Val(c, b, ProcessScan(c, s, r)) && Open(ProcessScan(c, s, r))
  {
    hide Inv, Val, AfterLookUp, Advance, Keeps, ScanOk, IsScanned, Moved, Lawful;
    ScanMoves(s, r, r.rule);
    if !Scanning(s, r.rule) {
      MovedVal(c, b, s, s.(curScan := []));
    } else if SkipsDependency(c, s, r) {
      AdvanceVal(c, b, s, r);
    } else {
      LookUpKeeps(c, s, r);
      var r1 := LookUp(s, r);
      var s1 := s.(curScan := [r1]);
      ScanMoves(s, r1, r.rule);
      MovedVal(c, b, s, s1);
      AfterLookUpVal(c, b, s1, r1, r1.input.value);
    }
  }

  lemma ScanOneVal(c: Client, b: Behaviour, s: State)
    requires Good(c, b, s) && Lawful(c, b) && s.ruleInfosToScan != [] && s.curScan == [] && s.curInput == []
    ensures Val(c, b, ScanOne(c, s)) && Open(ScanOne(c, s))
  {
    hide Inv, Val, ProcessScan, Keeps, IsScanned, TakeScan, InHand, Moved, Lawful;
    var r := Last(s.ruleInfosToScan);
    if r.input.Some? { InputScanned(c, s, r); }
    TakeScanKeeps(c, s);
    TakeScanSame(s);
    TakeScanMoves(s);
    MovedVal(c, b, s, TakeScan(s));
    ProcessScanVal(c, b, TakeScan(s), r);
  }

  // ---- One input request ---------------------------------------------------------------------------------

  lemma InputsMoved(s: State, s': State)
    requires InputsMove(s, s')
    ensures Moved(s, s')
  {
  }

  lemma InputMoves(s: State, r: InputRequest)
    ensures Moved(s, Pause(s, r)) && Moved(s, s.(curInput := []))
  {
    hide Moved;
    InputsMoved(s, Pause(s, r));
    InputsMoved(s, s.(curInput := []));
  }

  lemma TakeInputMoves(s: State)
    requires s.inputRequests != []
    ensures Moved(s, TakeInput(s))
  {
    hide Moved;
    InputsMoved(s, TakeInput(s));
  }

  lemma RecordMore(ds: seq<Dependency>, d: Dependency, used: seq<Delivery>)
    requires AllRecorded(ds, used)
    ensures AllRecorded(ds + [d], used)
  {
    forall u | u in used ensures ValueDep(ds + [d], u.key) {
      var x :| x in ds && x.key == u.key && !x.orderOnly && !x.singleUse;
      assert x in ds + [d];
    }
  }

  lemma RecordTaskVal(b: Behaviour, s: State, s': State, r: InputRequest, t: KeyID)
    requires CanRecord(s, r, t) && RecordStep(s, s', r, t) && TaskVal(b, s, t)
    ensures TaskVal(b, s', t)
  {
    hide WantedInOrder, AllClean, Wanted, AllRecorded;
    RecordOnly(s, s', r, t);
    RecordMore(Info(s, t).result.dependencies, Dependency(r.input, r.orderOnly, r.singleUse), s.tasks[t].got);
  }

  lemma RecordTasksVal(b: Behaviour, s: State, s': State, r: InputRequest, t: KeyID)
    requires CanRecord(s, r, t) && RecordStep(s, s', r, t) && TasksVal(b, s)
    ensures TasksVal(b, s')
  {
    hide TaskVal;
    RecordOnly(s, s', r, t);
    forall x | x in s'.tasks ensures TaskVal(b, s', x) {
      if x == t { RecordTaskVal(b, s, s', r, t); } else { OtherTask(b, s, s', t, x); }
    }
  }

  lemma RecordGentle(s: State, s': State, r: InputRequest, t: KeyID)
    requires CanRecord(s, r, t) && RecordStep(s, s', r, t) && QueuesOk(s)
    ensures Gentle(s, s') && SameReports(s, s') && Open(s') == Open(s)
  {
    hide Gentle, NoDuplicates, ComputingSet;
    RecordOnly(s, s', r, t);
    OneGentle(s, s', t);
  }

  lemma RecordVal(c: Client, b: Behaviour, s: State, r: InputRequest, t: KeyID)
    requires Good(c, b, s) && CanRecord(s, r, t)
    ensures Val(c, b, Record(s, r, t)) && Open(Record(s, r, t))
  {
    hide Inv, Val, Record, CanRecord, RecordStep, Gentle, SameReports, TasksVal, Shape, QueuesOk;
    var s' := Record(s, r, t);
    UnpackGood(c, b, s);
    Unpack(c, s);
    RecordShape(s, r, t);
    RecordTasksVal(b, s, s', r, t);
    RecordGentle(s, s', r, t);
    GentleKeeps(c, b, s, s');
  }

  lemma ProcessInputVal(c: Client, b: Behaviour, s: State, r: InputRequest)
    requires Good(c, b, s) && Lawful(c, b) && InputInHand(s, r)
    ensures Val(c, b, ProcessInput(c, s, r)) && Open(ProcessInput(c, s, r))
  {
    hide Inv, Val, ScanRule, DemandRule, Pause, Record, Keeps, Hand, Scanning, InProgress, CompleteNow, Verdict, CanRecord, Lawful, Moved;
    InputHandOn(s, r);
    ScanRuleKeeps(c, s, r.input);
    ScanRuleMarks(c, s, r.input);
    ScanRuleVal(c, b, s, r.input);
    var s1 := ScanRule(c, s, r.input);
    if Scanning(s1, r.input) {
      InputMoves(s1, r);
      MovedVal(c, b, s1, Pause(s1, r));
    } else {
      DemandRuleKeeps(c, s1, r.input);
      DemandRuleMarks(c, s1, r.input);
      DemandRuleVal(c, b, s1, r.input);
      var s2 := DemandRule(c, s1, r.input);
      if r.task.None? {
        InputMoves(s2, r);
        MovedVal(c, b, s2, s2.(curInput := []));
      } else {
        CanRecordNow(c, s2, r);
        RecordVal(c, b, s2, r, r.task.value);
      }
    }
  }

  lemma InputOneVal(c: Client, b: Behaviour, s: State)
    requires Good(c, b, s) && Lawful(c, b) && s.inputRequests != [] && s.curScan == [] && s.curInput == []
    ensures Val(c, b, InputOne(c, s)) && Open(InputOne(c, s))
  {
    hide Inv, Val, ProcessInput, Keeps, TakeInput, InputInHand, Moved, Lawful;
    var r := s.inputRequests[0];
    TakeInputKeeps(c, s);
    TakeInputSame(s);
    TakeInputMoves(s);
    MovedVal(c, b, s, TakeInput(s));
    ProcessInputVal(c, b, TakeInput(s), r);
  }

  // ---- Answers ---------------------------------------------------------------------------------------------

  /** The answer to a request that asks for a value: the value of a complete rule, so a clean one. */
  lemma AnswerClean(b: Behaviour, s: State, r: InputRequest)
    requires DoneOk(b, s) && CompleteNow(s, r.input)
    ensures Clean(b, s.epoch, r.input, Info(s, r.input).result.value)
  {
    hide Clean, AllClean, UsedHere, AllComplete;
  }

  lemma WantMore(b: Behaviour, e: nat, t: KeyID, got: seq<Delivery>, u: Delivery, asked: seq<Dependency>, asks: seq<Dependency>)
    requires Monotone(b) && AllClean(b, e, got + [u])
    requires Wanted(b, e, t, MapOf(got), asked) && Wanted(b, e, t, MapOf(got + [u]), asks)
    ensures Wanted(b, e, t, MapOf(got + [u]), asked + asks)
  {
    hide Clean, MapOf;
    assert Extends(MapOf(got), MapOf(got + [u])) by {
      hide Monotone, Wanted;
      CleanConsistent(b, e, got + [u]);
      PrefixExtends(got + [u], |got|);
      assert (got + [u])[..|got|] == got;
    }
    hide Extends;
    assert b.wants(e, t, MapOf(got)) <= b.wants(e, t, MapOf(got + [u]));
  }

  lemma OrderMore(b: Behaviour, e: nat, t: KeyID, got: seq<Delivery>, u: Delivery)
    requires WantedInOrder(b, e, t, got) && u.key in b.wants(e, t, MapOf(got))
    ensures WantedInOrder(b, e, t, got + [u])
  {
    forall i | 0 <= i < |got + [u]| ensures (got + [u])[i].key in b.wants(e, t, MapOf((got + [u])[..i])) {
      assert (got + [u])[..i] == got[..i];
      if i == |got| { assert got[..i] == got; }
    }
  }

  lemma CleanMore(b: Behaviour, e: nat, got: seq<Delivery>, u: Delivery)
    requires AllClean(b, e, got) && Clean(b, e, u.key, u.value)
    ensures AllClean(b, e, got + [u])
  {
    hide Clean;
  }

  /** A request that is answered has been recorded. */
  lemma AnswerRecorded(s: State, r: InputRequest, t: KeyID)
    requires CanDeliver(s, r, t) && CountsOk(s) && TasksOk(s)
    ensures DependencyOf(r) in Info(s, t).result.dependencies
  {
    hide Queued, Ids, FlatIds, Below, Answerable, WantedInOrder;
    assert Counted(s, t);
    IdsAppend(Front(s.finishedInputRequests), r, t);
    assert s.finishedInputRequests == Front(s.finishedInputRequests) + [r];
    var task := s.tasks[t];
    assert r.id in Awaited(s, t);
    assert r.id in multiset(task.recorded);
    var i :| 0 <= i < |task.recorded| && task.recorded[i] == r.id;
    assert RecordsAsked(task, Info(s, t).result.dependencies);
    assert Info(s, t).result.dependencies[i] == task.asked[r.id];
  }

  lemma RecordedOne(ds: seq<Dependency>, got: seq<Delivery>, d: Dependency, u: Delivery)
    requires AllRecorded(ds, got) && d in ds && d.key == u.key && !d.orderOnly && !d.singleUse
    ensures AllRecorded(ds, got + [u])
  {
    assert ValueDep(ds, u.key);
    hide ValueDep;
  }

  /** The task after an answer that carries a value. */
  lemma AnsweredVal(b: Behaviour, s: State, r: InputRequest, t: KeyID, asks: seq<Dependency>)
    requires Monotone(b) && CanDeliver(s, r, t) && !r.orderOnly && CompleteNow(s, r.input)
    requires CountsOk(s) && TasksOk(s) && DoneOk(b, s) && TaskVal(b, s, t)
    requires Wanted(b, s.epoch, t, MapOf(GotAfter(s, r, t)), asks)
    ensures var s' := Deliver(s, r, t, GotAfter(s, r, t), asks); t in s'.tasks && TaskVal(b, s', t)
  {
    var got := s.tasks[t].got;
    var u := Delivery(r.input, Info(s, r.input).result.value);
    assert GotAfter(s, r, t) == got + [u];
    var s' := Deliver(s, r, t, got + [u], asks);
    assert !r.singleUse && r.input in b.wants(s.epoch, t, MapOf(got)) by {
      hide Monotone, CountsOk, TasksOk, DoneOk, MapOf;
      assert DependencyOf(r) in s.tasks[t].asked;
    }
    AnswerClean(b, s, r);
    AnswerRecorded(s, r, t);
    hide Clean, Monotone, CountsOk, TasksOk, DoneOk, MapOf, Requests, PushIf, Deliver;
    CleanMore(b, s.epoch, got, u);
    OrderMore(b, s.epoch, t, got, u);
    WantMore(b, s.epoch, t, got, u, s.tasks[t].asked, asks);
    RecordedOne(Info(s, t).result.dependencies, got, DependencyOf(r), u);
    hide WantedInOrder, AllClean, Wanted, AllRecorded, Answerable;
    DeliverSame(s, r, t, got + [u], asks);
    AnsweredTask(s.tasks[t], r.id, got + [u], asks);
  }

  lemma AnsweredTask(task: TaskInfo, id: nat, got: seq<Delivery>, asks: seq<Dependency>)
    ensures var task' := Answered(task, id, got, asks); task'.got == got && task'.asked == task.asked + asks
  {
  }

  /** The task after the answer to a must-follow request, in response to which it asks nothing. */
  lemma FollowedVal(b: Behaviour, s: State, r: InputRequest, t: KeyID)
    requires CanDeliver(s, r, t) && TaskVal(b, s, t)
    ensures var s' := Deliver(s, r, t, s.tasks[t].got, []); t in s'.tasks && TaskVal(b, s', t)
  {
    hide WantedInOrder, AllClean, Wanted, AllRecorded, Answerable, Deliver, Requests;
    DeliverSame(s, r, t, s.tasks[t].got, []);
    AnsweredTask(s.tasks[t], r.id, s.tasks[t].got, []);
    assert s.tasks[t].asked + [] == s.tasks[t].asked;
  }
}
