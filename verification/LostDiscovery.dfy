/** Why a build must not be cancelled while a discovered dependency that has changed remains to be
    built, if the database is to be used again: a run in which that happens, everything else is as it should be,
    and a later build takes a stale value for an up-to-date one.

    Rule 1 reads key 2 while it runs, and its value is what it read. Key 2 has one content in epochs
    1 and 3 and another in epoch 2. Rule 1 runs in epoch 2, before key 2 has been brought up to date,
    and the build is cancelled. In epoch 3 key 2 is as it was in epoch 1, so that it does not have to
    run, and was last computed before rule 1 was built. */
module LostDiscovery {
  import opened Options
  import opened EngineState
  import opened EngineSteps
  import opened CleanBuild
  import opened EngineValueSteps
  import opened EngineValueTasks
  import opened IncrementalBuild
  import opened SingleBuild

  const OLD: Value := Value([0])
  const NEW: Value := Value([1])

  function Content(e: nat): Value { if e == 2 then NEW else OLD }

  const RULES: Behaviour := Behaviour(
    (e: nat, k: KeyID, m: map<KeyID, Value>) => if k == 1 then {2} else {},
    (e: nat, k: KeyID, m: map<KeyID, Value>) =>
      if k == 1 then (if 2 in m then m[2] else OLD) else if k == 2 then Content(e) else OLD)

  const CLIENT: Client := Client(
    (e: nat, k: KeyID) => 0,
    (e: nat, k: KeyID, v: Value) => k == 2 ==> v == Content(e),
    (e: nat, k: KeyID) => false,
    (e: nat, k: KeyID, d: KeyID) => false,
    (e: nat, k: KeyID) => [],
    (e: nat, k: KeyID, got: seq<Delivery>) => [])

  lemma ClientIsLawful()
    ensures Lawful(CLIENT, RULES)
  {
    hide MapOf;
    assert Monotone(RULES);
    assert Follows(CLIENT, RULES);
    forall e: nat, e': nat, k: KeyID, trace: seq<Delivery>, v: Value |
      Computes(RULES, e, k, trace, v) && e <= e' && CLIENT.signature(e', k) == CLIENT.signature(e, k) && CLIENT.isResultValid(e', k, v)
      ensures Computes(RULES, e', k, trace, v)
    {
    }
  }

  lemma ContentIsClean(e: nat)
    ensures Clean(RULES, e, 2, Content(e))
  {
    CleanFrom(RULES, e, 2, [], Content(e));
  }

  lemma FirstRuleIsClean(e: nat)
    ensures Clean(RULES, e, 1, Content(e))
  {
    var u := Delivery(2, Content(e));
    ContentIsClean(e);
    MapPush([], u);
    assert [] + [u] == [u] && [u][..0] == [];
    CleanFrom(RULES, e, 1, [u], Content(e));
  }

  // ---- The run --------------------------------------------------------------------------------------

  const RESULT2: Result := Result(OLD, 0, 1, 1, [], [], 1)
  const RESULT1: Result := Result(NEW, 0, 2, 2, [Dependency(2, false, false)], [Delivery(2, NEW)], 2)

  /** A build of rule `k` has begun, in an engine that has the results `rules` and `db`. */
  function Asked(epoch: nat, rules: map<KeyID, RuleInfo>, db: map<KeyID, Result>, k: KeyID): State {
    INITIAL.(epoch := epoch, rules := rules, db := db, inputRequests := [Ask(k)], owed := {k}, building := true)
  }

  // ---- Putting steps together --------------------------------------------------------------------------

  /** A run in which every step is as it should be, except that builds may be cancelled at any time. */
  ghost predicate FaithfulButCancels(steps: seq<Step>)
    requires Legal(CLIENT, steps)
  {
    steps == [] ||
      (FaithfulButCancels(Front(steps)) && (Last(steps).DoCancel? || Faithful(RULES, Exec(CLIENT, Front(steps)), Last(steps))))
  }

  /** The run of `steps` leads to `s`. */
  ghost predicate Leads(steps: seq<Step>, s: State) {
    Legal(CLIENT, steps) && Exec(CLIENT, steps) == s && FaithfulButCancels(steps)
  }

  lemma Extend(steps: seq<Step>, s: State, step: Step, s': State)
    requires Leads(steps, s) && Enabled(s, step) && (step.DoCancel? || Faithful(RULES, s, step)) && Apply(CLIENT, s, step) == s'
    ensures Leads(steps + [step], s')
  {
    hide Enabled, Apply, Faithful;
    assert Front(steps + [step]) == steps && Last(steps + [step]) == step;
  }

  lemma FaithfulReport(s: State, k: KeyID, v: Value, found: seq<Delivery>)
    requires Honest(RULES, s.epoch, k, [], found, v)
    ensures Faithful(RULES, Computed(s, k), DoTaskIsComplete(k, v, false, found))
  {
    hide Honest;
  }

  /** A whole build of a rule that has never been built. */
  lemma Build(steps: seq<Step>, s: State, k: KeyID, v: Value, found: seq<Delivery>) returns (steps': seq<Step>)
    requires Leads(steps, s) && Quiet(s) && !s.cancelled && Alone(StartBuild(s, k), k)
    requires v != NO_RESULT.value && Honest(RULES, s.epoch + 1, k, [], found, v)
    ensures Leads(steps', Ended(StartBuild(s, k), k, v, found))
  {
    hide Leads, Honest, FaithfulButCancels, Legal, Exec, StartBuild, Quiet, Alone, Ended, Enabled, Apply, Faithful;
    var a := StartBuild(s, k);
    Starting(s, k);
    Extend(steps, s, DoStartBuild(k), a);
    steps' := BuildOn(steps + [DoStartBuild(k)], a, k, v, found);
  }

  lemma Starting(s: State, k: KeyID)
    requires Quiet(s) && !s.cancelled
    ensures StartBuild(s, k).epoch == s.epoch + 1 && Enabled(s, DoStartBuild(k)) && Faithful(RULES, s, DoStartBuild(k))
    ensures Apply(CLIENT, s, DoStartBuild(k)) == StartBuild(s, k)
  {
    hide Quiet;
  }

  lemma BuildOn(steps: seq<Step>, a: State, k: KeyID, v: Value, found: seq<Delivery>) returns (steps': seq<Step>)
    requires Leads(steps, a) && Alone(a, k) && v != NO_RESULT.value && Honest(RULES, a.epoch, k, [], found, v)
    ensures Leads(steps', Ended(a, k, v, found))
  {
    hide Leads, Honest, FaithfulButCancels, Legal, Exec, InputOne, ReadyOne, Alone, Made, Computed, Told, Ended, Enabled, Apply, Faithful;
    Launches(CLIENT, a, k);
    Runs(a, k);
    FirstSteps(a, k);
    Extend(steps, a, DoInput, Made(a, k));
    steps' := steps + [DoInput];
    Extend(steps', Made(a, k), DoReady, Computed(a, k));
    steps' := steps' + [DoReady];
    Reports(CLIENT, a, k, v, found);
    Finishes(a, k, v, found);
    FaithfulReport(a, k, v, found);
    LastSteps(a, k, v, found);
    Extend(steps', Computed(a, k), DoTaskIsComplete(k, v, false, found), Told(a, k, v, found));
    steps' := steps' + [DoTaskIsComplete(k, v, false, found)];
    Extend(steps', Told(a, k, v, found), DoFinish, Ended(a, k, v, found));
    steps' := steps' + [DoFinish];
  }

  lemma FirstSteps(a: State, k: KeyID)
    requires Enabled(a, DoInput) && Enabled(Made(a, k), DoReady)
    ensures Apply(CLIENT, a, DoInput) == InputOne(CLIENT, a) && Faithful(RULES, a, DoInput)
    ensures Apply(CLIENT, Made(a, k), DoReady) == ReadyOne(Made(a, k)) && Faithful(RULES, Made(a, k), DoReady)
  {
    hide Made, InputOne, ReadyOne;
  }

  lemma LastSteps(a: State, k: KeyID, v: Value, found: seq<Delivery>)
    requires Enabled(Computed(a, k), DoTaskIsComplete(k, v, false, found)) && Enabled(Told(a, k, v, found), DoFinish)
    ensures Apply(CLIENT, Computed(a, k), DoTaskIsComplete(k, v, false, found)) == TaskIsComplete(CLIENT, Computed(a, k), k, v, false, found)
    ensures Apply(CLIENT, Told(a, k, v, found), DoFinish) == FinishOne(Told(a, k, v, found)) && Faithful(RULES, Told(a, k, v, found), DoFinish)
  {
    hide Computed, Told, TaskIsComplete, FinishOne;
  }

  lemma HonestSecond()
    ensures Honest(RULES, 1, 2, [], [], OLD)
  {
    var none: seq<Delivery> := [];
    assert none + none == none;
  }

  lemma HonestFirst()
    ensures Honest(RULES, 2, 1, [], [Delivery(2, NEW)], NEW)
  {
    var u := Delivery(2, NEW);
    ContentIsClean(2);
    MapPush([], u);
    var none: seq<Delivery> := [];
    assert none + [u] == [u] && [u][..0] == none && none + none == none;
  }

  const RULES1: map<KeyID, RuleInfo> := map[2 := RuleInfo(Complete, RESULT2, false)]
  const DB1: map<KeyID, Result> := map[2 := RESULT2]
  const DB2: map<KeyID, Result> := map[2 := RESULT2, 1 := RESULT1]

  /** After the first build: key 2 is known, with its old content. */
  lemma FirstBuild() returns (steps: seq<Step>)
    ensures Leads(steps, INITIAL.(epoch := 1, rules := RULES1, db := DB1, owed := {2}, building := true, readied := [2], created := [2]))
  {
    assert Legal(CLIENT, []) && Exec(CLIENT, []) == INITIAL && FaithfulButCancels([]);
    HonestSecond();
    hide Honest, Leads;
    assert StartBuild(INITIAL, 2) == Asked(1, map[], map[], 2);
    steps := Build([], INITIAL, 2, OLD, []);
    assert Ended(Asked(1, map[], map[], 2), 2, OLD, []) == INITIAL.(epoch := 1, rules := RULES1, db := DB1, owed := {2}, building := true, readied := [2], created := [2]) by {
      assert Discovered([]) == [] && Dummies([]) == [] && KeysOf([]) == {};
    }
  }

  /** After the second, which is cancelled: a new engine finds rule 1 with the new content of key 2. */
  lemma SecondBuild() returns (steps: seq<Step>)
    ensures Leads(steps, INITIAL.(epoch := 2, db := DB2))
  {
    hide Honest, Leads;
    var s := INITIAL.(epoch := 1, rules := RULES1, db := DB1, owed := {2}, building := true, readied := [2], created := [2]);
    steps := FirstBuild();
    HonestFirst();
    assert StartBuild(s, 1) == Asked(2, RULES1, DB1, 1);
    steps := Build(steps, s, 1, NEW, [Delivery(2, NEW)]);
    var s1 := Ended(Asked(2, RULES1, DB1, 1), 1, NEW, [Delivery(2, NEW)]);
    assert s1.db == DB2 && s1.epoch == 2 && s1.tasks == map[] by { assert Discovered([Delivery(2, NEW)]) == [Dependency(2, false, false)]; }
    hide Ended;
    Extend(steps, s1, DoCancel, Cancel(s1));
    Extend(steps + [DoCancel], Cancel(s1), DoNewEngine, NewEngine(Cancel(s1)));
    steps := steps + [DoCancel] + [DoNewEngine];
  }

  // ---- The third build ---------------------------------------------------------------------------------

  const SCAN: ScanRequest := ScanRequest(1, 0, None, false, false)

  function Third(rules: map<KeyID, RuleInfo>): State {
    INITIAL.(epoch := 3, rules := rules, db := DB2, owed := {1}, building := true)
  }

  function Scanning1(): State {
    Third(map[1 := RuleInfo(IsScanning, RESULT1, false)]).(paused := map[1 := [Ask(1)]], deferred := map[1 := []], ruleInfosToScan := [SCAN])
  }

  const DONE2: RuleInfo := RuleInfo(Complete, RESULT2.(builtAt := 3), false)

  function Found1(): State {
    Third(map[1 := RuleInfo(DoesNotNeedToRun, RESULT1, false), 2 := DONE2]).(inputRequests := [Ask(1)])
  }

  function Done1(): State {
    Third(map[1 := RuleInfo(Complete, RESULT1.(builtAt := 3), false), 2 := DONE2])
  }

  lemma CleanResults()
    ensures Cleaned(RESULT1) == RESULT1 && Cleaned(RESULT2) == RESULT2
  {
    var ds := RESULT1.dependencies;
    assert ds[..|ds| - 1] == [];
    assert WithoutSingleUse([]) == [];
    assert WithoutSingleUse(ds) == [] + [ds[0]];
  }

  lemma ScansFirst()
    ensures InputOne(CLIENT, Asked(3, map[], DB2, 1)) == Scanning1()
  {
    CleanResults();
    hide WithoutSingleUse;
    var s := TakeInput(Asked(3, map[], DB2, 1));
    assert Info(s, 1) == RuleInfo(Incomplete, RESULT1, false);
    assert FirstLook(CLIENT, 3, 1, RESULT1) == MustScan(false);
    var s1 := ScanRule(CLIENT, s, 1);
    assert s1 == BeginScan(s, 1, RuleInfo(IsScanning, RESULT1, false), false);
    assert Scanning(s1, 1);
    assert ProcessInput(CLIENT, s, Ask(1)) == Pause(s1, Ask(1));
    var none: seq<InputRequest> := [];
    assert none + [Ask(1)] == [Ask(1)];
    assert (map[1 := none])[1 := [Ask(1)]] == map[1 := [Ask(1)]];
  }

  /** Key 2 does not have to run, and was computed before rule 1 was built. */
  lemma ScanStops()
    ensures ScanOne(CLIENT, Scanning1()) == Found1()
  {
    CleanResults();
    hide WithoutSingleUse;
    var s := TakeScan(Scanning1());
    assert Scanning(s, 1) && !SkipsDependency(CLIENT, s, SCAN);
    var r := SCAN.(input := Some(2), orderOnly := false);
    assert LookUp(s, SCAN) == r;
    var s0 := s.(curScan := [r]);
    assert Info(s0, 2) == RuleInfo(Incomplete, RESULT2, false);
    assert Content(3) == OLD;
    assert CLIENT.isResultValid(3, 2, Content(3));
    assert FirstLook(CLIENT, 3, 2, RESULT2) == MayStay;
    var s2 := ScanRule(CLIENT, s0, 2);
    assert s2 == SetInfo(s0, 2, RuleInfo(DoesNotNeedToRun, RESULT2, false));
    var s3 := DemandRule(CLIENT, s2, 2);
    assert s3 == SetInfo(s2, 2, DONE2);
    assert CompleteNow(s3, 2) && !InputRebuilt(s3, r, 2);
    var final := FinishHand(s3, 1, DoesNotNeedToRun);
    assert AfterLookUp(CLIENT, s0, r, 2) == final;
    LastScan(s3, final);
  }

  lemma LastScan(s: State, s': State)
    requires s == Third(map[1 := RuleInfo(IsScanning, RESULT1, false)]).(
      rules := (map[1 := RuleInfo(IsScanning, RESULT1, false)])[2 := RuleInfo(DoesNotNeedToRun, RESULT2, false)][2 := DONE2],
      paused := map[1 := [Ask(1)]], deferred := map[1 := []], ruleInfosToScan := s.ruleInfosToScan, curScan := s.curScan)
    requires s.ruleInfosToScan == [] && s' == FinishHand(s, 1, DoesNotNeedToRun)
    ensures s' == Found1()
  {
    assert s'.rules == Found1().rules;
    var none: seq<ScanRequest> := [];
    assert (map[1 := [Ask(1)]]) - {1} == map[] && (map[1 := none]) - {1} == map[];
  }

  lemma ThenComplete()
    ensures InputOne(CLIENT, Found1()) == Done1()
  {
    var s := TakeInput(Found1());
    assert ScanRule(CLIENT, s, 1) == s && !Scanning(s, 1);
    var s2 := DemandRule(CLIENT, s, 1);
    assert s2 == SetComplete(s, 1);
    assert s2.rules == Done1().rules;
  }

  lemma ThirdBuild() returns (steps: seq<Step>)
    ensures Leads(steps, Done1())
  {
    ScansFirst();
    ScanStops();
    ThenComplete();
    hide InputOne, ScanOne, Leads, Done1, Found1;
    var s := INITIAL.(epoch := 2, db := DB2);
    steps := SecondBuild();
    assert StartBuild(s, 1) == Asked(3, map[], DB2, 1);
    Extend(steps, s, DoStartBuild(1), Asked(3, map[], DB2, 1));
    steps := steps + [DoStartBuild(1)];
    Extend(steps, Asked(3, map[], DB2, 1), DoInput, Scanning1());
    steps := steps + [DoInput];
    Extend(steps, Scanning1(), DoScan, Found1());
    steps := steps + [DoScan];
    assert Found1().inputRequests != [] by { FoundAsks(); }
    Extend(steps, Found1(), DoInput, Done1());
    steps := steps + [DoInput];
  }

  lemma FoundAsks()
    ensures Found1().inputRequests != []
  {
  }

  lemma StaleValue()
    ensures var s := Done1(); !s.cancelled && CompleteNow(s, 1) && Info(s, 1).result.value == NEW && s.epoch == 3 && OLD != NEW
  {
  }

  /** Rule 1 is complete in epoch 3 with the value it had from the content of key 2 in epoch 2. A
      clean build gives it the old value. */
  lemma CancellingCanLoseADiscovery() returns (steps: seq<Step>)
    ensures Lawful(CLIENT, RULES) && Legal(CLIENT, steps) && FaithfulButCancels(steps)
    ensures var s := Exec(CLIENT, steps);
      && !s.cancelled && CompleteNow(s, 1) && Info(s, 1).result.value == NEW && Clean(RULES, s.epoch, 1, OLD) && OLD != NEW
  {
    hide Lawful, Clean, Done1, Legal, Exec, FaithfulButCancels;
    ClientIsLawful();
    FirstRuleIsClean(3);
    StaleValue();
    steps := ThirdBuild();
  }
}
