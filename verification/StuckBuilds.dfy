/** Runs that end in a state the engine's authors did not expect: in one, `resolveCycle` is called and
    there is no cycle to be found from the key that was asked for; in another, `breakCycle` comes to
    the first rule of its list and looks for the one before it; in a third, a build succeeds and
    leaves rules scanning. */
module StuckBuilds {
  import opened Options
  import opened EngineState
  import opened EngineSteps
  import opened CycleBreaking
  import opened EngineRuns
  import opened EngineProgress
  import opened SingleBuild

  // ---- Putting steps together ---------------------------------------------------------------------

  ghost predicate Leads(c: Client, steps: seq<Step>, s: State) {
    Legal(c, steps) && Exec(c, steps) == s
  }

  lemma Extend(c: Client, steps: seq<Step>, s: State, step: Step)
    requires Leads(c, steps, s) && Enabled(s, step)
    ensures Leads(c, steps + [step], Apply(c, s, step))
  {
    hide Enabled, Apply;
    assert Front(steps + [step]) == steps && Last(steps + [step]) == step;
  }

  lemma StartsSo(c: Client)
    ensures Leads(c, [], INITIAL)
  {
  }

  lemma InputStep(c: Client, steps: seq<Step>, s: State) returns (steps': seq<Step>)
    requires Leads(c, steps, s) && s.inputRequests != []
    ensures Leads(c, steps', InputOne(c, s))
  {
    hide Leads, InputOne;
    steps' := steps + [DoInput];
    Extend(c, steps, s, DoInput);
  }

  lemma ScanStep(c: Client, steps: seq<Step>, s: State) returns (steps': seq<Step>)
    requires Leads(c, steps, s) && s.ruleInfosToScan != []
    ensures Leads(c, steps', ScanOne(c, s))
  {
    hide Leads, ScanOne;
    steps' := steps + [DoScan];
    Extend(c, steps, s, DoScan);
  }

  lemma StartStep(c: Client, steps: seq<Step>, s: State, root: KeyID) returns (steps': seq<Step>)
    requires Leads(c, steps, s) && Quiet(s)
    ensures Leads(c, steps', StartBuild(s, root))
  {
    hide Leads, StartBuild, Quiet;
    steps' := steps + [DoStartBuild(root)];
    Extend(c, steps, s, DoStartBuild(root));
  }

  /** A rule that has never been built and asks for nothing is built, when there is nothing else to do. */
  lemma BuildOn(c: Client, steps: seq<Step>, s: State, k: KeyID, v: Value, found: seq<Delivery>) returns (steps': seq<Step>)
    requires Leads(c, steps, s) && Alone(s, k) && v != NO_RESULT.value && c.onStart(s.epoch, k) == [] && c.signature(s.epoch, k) == 0
    ensures Leads(c, steps', Ended(s, k, v, found))
  {
    hide Leads, InputOne, ReadyOne, TaskIsComplete, FinishOne, Alone, Made, Computed, Told, Ended, Computing, AllReported, Idle, Quiet;
    Launches(c, s, k);
    steps' := steps + [DoInput];
    Extend(c, steps, s, DoInput);
    Runs(s, k);
    Extend(c, steps', Made(s, k), DoReady);
    steps' := steps' + [DoReady];
    Reports(c, s, k, v, found);
    Extend(c, steps', Computed(s, k), DoTaskIsComplete(k, v, false, found));
    steps' := steps' + [DoTaskIsComplete(k, v, false, found)];
    Finishes(s, k, v, found);
    Extend(c, steps', Told(s, k, v, found), DoFinish);
    steps' := steps' + [DoFinish];
  }

  // ---- Rules that wait for each other -----------------------------------------------------------------

  const DONE: Value := Value([1])

  function On(k: KeyID): Dependency { Dependency(k, false, false) }

  /** Rules 2 and 3 ask for each other. Rule 1 asks for nothing, except in the second epoch, when its
      result is no longer valid and it asks for rule 2. */
  const CIRCLE: Client := Client(
    (e: nat, k: KeyID) => 0,
    (e: nat, k: KeyID, v: Value) => !(e == 2 && k == 1),
    (e: nat, k: KeyID) => false,
    (e: nat, k: KeyID, d: KeyID) => false,
    (e: nat, k: KeyID) => if k == 2 then [On(3)] else if k == 3 then [On(2)] else if k == 1 && e == 2 then [On(2)] else [],
    (e: nat, k: KeyID, got: seq<Delivery>) => [])

  function Request(t: KeyID, k: KeyID): InputRequest {
    InputRequest(Some(t), 0, k, false, false, false)
  }

  /** Rule `k` has been launched and asks for `d`, and that is the only request there is. */
  function Launched(s: State, k: KeyID, d: KeyID): State {
    s.(curInput := [], inputRequests := [Request(k, d)],
       rules := s.rules[k := RuleInfo(InProgressWaiting, Cleaned(Info(s, k).result).(dependencies := []), false)],
       tasks := s.tasks[k := Asking(NEW_TASK, [On(d)])],
       requestedBy := s.requestedBy[k := []], taskDeferred := s.taskDeferred[k := []],
       created := s.created + [k])
  }

  predicate MustRunNow(c: Client, s: State, k: KeyID) {
    !IsScanned(s, k) && !Scanning(s, k) && FirstLook(c, s.epoch, k, Cleaned(Info(s, k).result)).MustRun?
  }

  /** The dependency is recorded, and the request waits for the task of its input. */
  function Parked(s: State, r: InputRequest, t: KeyID): State {
    Recorded(s, r, t).(requestedBy := s.requestedBy[r.input := At(s.requestedBy, r.input) + [r]])
  }

  lemma Parks(s: State, r: InputRequest, t: KeyID)
    requires Waiting(s, r.input)
    ensures Record(s, r, t) == Parked(s.(curInput := []), r, t)
  {
    hide Recorded;
    RecordedFrom(s, r, t);
  }

  lemma RecordedFrom(s: State, r: InputRequest, t: KeyID)
    ensures Recorded(s, r, t) == Recorded(s.(curInput := []), r, t)
  {
    assert Info(s.(curInput := []), t) == Info(s, t) && TaskOf(s.(curInput := []), t) == TaskOf(s, t);
    hide Info, TaskOf;
  }

  lemma LaunchFor(c: Client, s: State, r: InputRequest, d: KeyID)
    requires s.inputRequests == [r] && MustRunNow(c, s, r.input) && c.onStart(s.epoch, r.input) == [On(d)]
    ensures InputOne(c, s) == if r.task.None? then Launched(s, r.input, d) else Parked(Launched(s, r.input, d), r, r.task.value)
  {
    hide Cleaned, Asking, FirstLook, Parked, Record;
    var k := r.input;
    var s0 := TakeInput(s);
    var res := Cleaned(Info(s, k).result);
    assert Info(s0, k) == Info(s, k);
    var s1 := ScanRule(c, s0, k);
    assert s1 == SetInfo(s0, k, RuleInfo(NeedsToRun, res, false));
    var s2 := DemandRule(c, s1, k);
    assert s2 == LaunchTask(s1, k, [On(d)]);
    assert Requests(k, 0, [On(d)]) == [Request(k, d)];
    var a, b := RuleInfo(NeedsToRun, res, false), RuleInfo(InProgressWaiting, res.(dependencies := []), false);
    assert s.rules[k := a][k := b] == s.rules[k := b];
    assert [] + [Request(k, d)] == [Request(k, d)];
    assert s2.(curInput := []) == Launched(s, k, d);
    if r.task.Some? { Parks(s2, r, r.task.value); }
  }

  /** The input is already in progress. */
  lemma WaitFor(c: Client, s: State, r: InputRequest)
    requires s.inputRequests == [r] && s.curInput == [] && Waiting(s, r.input) && r.task.Some?
    ensures InputOne(c, s) == Parked(s.(inputRequests := []), r, r.task.value)
  {
    hide Parked, Record;
    var s0 := TakeInput(s);
    assert Info(s0, r.input) == Info(s, r.input);
    assert ScanRule(c, s0, r.input) == s0 && DemandRule(c, s0, r.input) == s0;
    Parks(s0, r, r.task.value);
    assert s0.(curInput := []) == s.(inputRequests := []);
  }

  /** Rule 2 is asked for by `r`, asks for rule 3, and rule 3 asks for rule 2. */
  function First(s: State, r: InputRequest): State {
    if r.task.None? then Launched(s, 2, 3) else Parked(Launched(s, 2, 3), r, r.task.value)
  }

  function Second(s: State, r: InputRequest): State {
    Parked(Launched(First(s, r), 3, 2), Request(2, 3), 2)
  }

  function Circled(s: State, r: InputRequest): State {
    Parked(Second(s, r).(inputRequests := []), Request(3, 2), 3)
  }

  /** Nothing but `r` is left to do, and rules 2 and 3 have never been built. */
  predicate BeforeCircle(s: State, r: InputRequest) {
    && s.inputRequests == [r] && s.curInput == [] && r.input == 2 && s.epoch > 0 && (r.task == None || r.task == Some(1))
    && 2 !in s.rules && 3 !in s.rules && 2 !in s.db && 3 !in s.db && 1 in s.rules
  }

  /** What these steps do not touch. */
  ghost predicate Beside(s: State, s': State) {
    && s'.epoch == s.epoch && s'.db == s.db && s'.owed == s.owed && s'.broken == s.broken && s'.paused == s.paused && s'.deferred == s.deferred
    && s'.ruleInfosToScan == s.ruleInfosToScan && s'.curScan == s.curScan && s'.finishedInputRequests == s.finishedInputRequests
    && s'.readyTaskInfos == s.readyTaskInfos && s'.finishedTaskInfos == s.finishedTaskInfos
  }

  lemma ParkedIs(s: State, r: InputRequest, t: KeyID)
    ensures var s' := Parked(s, r, t);
      && Beside(s, s') && s'.inputRequests == s.inputRequests && s'.curInput == [] && s'.rules.Keys == s.rules.Keys + {t}
      && s'.tasks.Keys == s.tasks.Keys + {t} && s'.taskDeferred == s.taskDeferred
      && s'.requestedBy == s.requestedBy[r.input := At(s.requestedBy, r.input) + [r]]
      && forall x :: Info(s', x).phase == Info(s, x).phase && Info(s', x).result.builtAt == Info(s, x).result.builtAt
  {
    hide TaskOf;
  }

  lemma LaunchedIs(s: State, k: KeyID, d: KeyID)
    ensures var s' := Launched(s, k, d);
      && Beside(s, s') && s'.inputRequests == [Request(k, d)] && s'.curInput == [] && s'.rules.Keys == s.rules.Keys + {k}
      && s'.tasks.Keys == s.tasks.Keys + {k} && s'.requestedBy == s.requestedBy[k := []] && s'.taskDeferred == s.taskDeferred[k := []]
      && Waiting(s', k) && Info(s', k).result.builtAt == Info(s, k).result.builtAt && forall x :: x != k ==> Info(s', x) == Info(s, x)
  {
    hide WithoutSingleUse, Asking;
  }

  lemma Unbuilt(c: Client, s: State, k: KeyID)
    requires k !in s.rules && k !in s.db && s.epoch > 0
    ensures MustRunNow(c, s, k) && Info(s, k).result.builtAt == 0
  {
  }

  /** What the rule that asked for rule 2, if any, waits for. */
  function Asker(r: InputRequest): seq<InputRequest> {
    if r.task.None? then [] else [r]
  }

  ghost predicate AfterFirst(s: State, r: InputRequest, s': State) {
    && Beside(s, s') && s'.inputRequests == [Request(2, 3)] && s'.curInput == [] && s'.rules.Keys == s.rules.Keys + {2}
    && s.tasks.Keys + {2} <= s'.tasks.Keys && s'.requestedBy == s.requestedBy[2 := Asker(r)] && s'.taskDeferred == s.taskDeferred[2 := []]
    && Waiting(s', 2) && Info(s', 2).result.builtAt == 0
    && forall x :: x != 2 ==> Info(s', x).phase == Info(s, x).phase && Info(s', x).result.builtAt == Info(s, x).result.builtAt
  }

  lemma FirstParked(s: State, s1: State, r: InputRequest)
    requires BeforeCircle(s, r) && r.task.Some? && AfterFirst(s, r.(task := None), s1)
    ensures AfterFirst(s, r, Parked(s1, r, r.task.value))
  {
    hide Parked;
    ParkedIs(s1, r, r.task.value);
    var none: seq<InputRequest> := [];
    assert none + [r] == [r] && s.requestedBy[2 := none][2 := [r]] == s.requestedBy[2 := [r]];
  }

  lemma FirstIs(s: State, r: InputRequest)
    requires BeforeCircle(s, r)
    ensures AfterFirst(s, r, First(s, r))
  {
    hide Launched, Parked, MustRunNow;
    Unbuilt(CIRCLE, s, 2);
    LaunchedIs(s, 2, 3);
    if r.task.Some? {
      FirstParked(s, Launched(s, 2, 3), r);
    }
  }

  /** Rules 2 and 3 wait for each other, and the rule that asked for rule 2 waits for it. */
  ghost predicate AfterCircle(s: State, r: InputRequest, s': State) {
    && Beside(s, s') && s'.inputRequests == [] && s'.curInput == []
    && s.tasks.Keys + {2, 3} <= s'.tasks.Keys
    && s'.requestedBy == s.requestedBy[2 := Asker(r) + [Request(3, 2)]][3 := [Request(2, 3)]]
    && s'.taskDeferred == s.taskDeferred[2 := []][3 := []]
    && Waiting(s', 2) && Waiting(s', 3) && Info(s', 2).result.builtAt == 0 && Info(s', 3).result.builtAt == 0
    && forall x :: x != 2 && x != 3 ==> Info(s', x).phase == Info(s, x).phase && Info(s', x).result.builtAt == Info(s, x).result.builtAt
  }

  ghost predicate AfterSecond(s: State, r: InputRequest, s': State) {
    && Beside(s, s') && s'.inputRequests == [Request(3, 2)] && s'.curInput == []
    && s.tasks.Keys + {2, 3} <= s'.tasks.Keys && s'.requestedBy == s.requestedBy[2 := Asker(r)][3 := [Request(2, 3)]]
    && s'.taskDeferred == s.taskDeferred[2 := []][3 := []]
    && Waiting(s', 2) && Waiting(s', 3) && Info(s', 2).result.builtAt == 0 && Info(s', 3).result.builtAt == 0
    && forall x :: x != 2 && x != 3 ==> Info(s', x).phase == Info(s, x).phase && Info(s', x).result.builtAt == Info(s, x).result.builtAt
  }

  /** Rule 3 has been launched, and nothing waits for it yet. */
  ghost predicate AfterLaunch(s: State, r: InputRequest, s': State) {
    && Beside(s, s') && s'.inputRequests == [Request(3, 2)] && s'.curInput == []
    && s.tasks.Keys + {2, 3} <= s'.tasks.Keys && s'.requestedBy == s.requestedBy[2 := Asker(r)][3 := []]
    && s'.taskDeferred == s.taskDeferred[2 := []][3 := []]
    && Waiting(s', 2) && Waiting(s', 3) && Info(s', 2).result.builtAt == 0 && Info(s', 3).result.builtAt == 0
    && forall x :: x != 2 && x != 3 ==> Info(s', x).phase == Info(s, x).phase && Info(s', x).result.builtAt == Info(s, x).result.builtAt
  }

  lemma SecondLaunched(s: State, r: InputRequest, s1: State)
    requires BeforeCircle(s, r) && AfterFirst(s, r, s1)
    ensures AfterLaunch(s, r, Launched(s1, 3, 2))
  {
    hide Launched, MustRunNow;
    assert 3 !in s1.rules.Keys;
    Unbuilt(CIRCLE, s1, 3);
    LaunchedIs(s1, 3, 2);
  }

  lemma SecondParked(s: State, r: InputRequest, s2: State)
    requires AfterLaunch(s, r, s2)
    ensures AfterSecond(s, r, Parked(s2, Request(2, 3), 2))
  {
    hide Parked;
    ParkedIs(s2, Request(2, 3), 2);
    var none: seq<InputRequest> := [];
    assert none + [Request(2, 3)] == [Request(2, 3)];
    var m := s.requestedBy[2 := Asker(r)];
    assert m[3 := none][3 := [Request(2, 3)]] == m[3 := [Request(2, 3)]];
  }

  lemma SecondIs(s: State, r: InputRequest)
    requires BeforeCircle(s, r)
    ensures AfterSecond(s, r, Second(s, r))
  {
    hide Launched, Parked, First, AfterFirst, AfterLaunch, AfterSecond;
    FirstIs(s, r);
    SecondLaunched(s, r, First(s, r));
    SecondParked(s, r, Launched(First(s, r), 3, 2));
  }

  lemma CircledIs(s: State, r: InputRequest)
    requires BeforeCircle(s, r)
    ensures AfterCircle(s, r, Circled(s, r))
  {
    hide Launched, Parked, First, Second;
    SecondIs(s, r);
    var s2 := Second(s, r).(inputRequests := []);
    forall x ensures Info(s2, x) == Info(Second(s, r), x) {}
    ParkedIs(s2, Request(3, 2), 3);
    var q := Asker(r) + [Request(3, 2)];
    assert s.requestedBy[2 := Asker(r)][3 := [Request(2, 3)]][2 := q] == s.requestedBy[2 := q][3 := [Request(2, 3)]];
  }

  lemma Circles(steps: seq<Step>, s: State, r: InputRequest) returns (steps': seq<Step>)
    requires Leads(CIRCLE, steps, s) && BeforeCircle(s, r)
    ensures Leads(CIRCLE, steps', Circled(s, r))
  {
    hide Leads, InputOne, MustRunNow, Parked, Launched;
    Unbuilt(CIRCLE, s, 2);
    LaunchFor(CIRCLE, s, r, 3);
    steps' := InputStep(CIRCLE, steps, s);
    FirstIs(s, r);
    SecondIs(s, r);
    var s1, s2 := First(s, r), Second(s, r);
    assert 3 !in s1.rules.Keys;
    hide First;
    Unbuilt(CIRCLE, s1, 3);
    LaunchFor(CIRCLE, s1, Request(2, 3), 2);
    steps' := InputStep(CIRCLE, steps', s1);
    hide Second;
    WaitFor(CIRCLE, s2, Request(3, 2));
    steps' := InputStep(CIRCLE, steps', s2);
  }

  /** Nothing is going on but `r`. */
  ghost predicate Otherwise(s: State) {
    && s.ruleInfosToScan == [] && s.curScan == [] && s.finishedInputRequests == [] && s.readyTaskInfos == [] && s.finishedTaskInfos == []
    && s.paused == map[] && s.deferred == map[] && forall x :: !Info(s, x).phase.InProgressComputing?
  }

  lemma StuckCircle(s: State, r: InputRequest, s': State)
    requires Otherwise(s) && AfterCircle(s, r, s')
    ensures Stuck(s') && s'.tasks != map[] && WaitsOn(s', 2, 3) && WaitsOn(s', 3, 2) && ReachesCycle(s', 2)
  {
    assert 2 in s'.tasks.Keys;
    forall x ensures !Info(s', x).phase.InProgressComputing? {
      if x != 2 && x != 3 { assert Info(s', x).phase == Info(s, x).phase; }
    }
    assert Request(2, 3) in At(s'.requestedBy, 3) && Request(3, 2) in At(s'.requestedBy, 2);
    var p: seq<KeyID> := [2, 3, 2];
    assert WaitsOn(s', p[0], p[1]) && WaitsOn(s', p[1], p[2]);
    assert Walk(s', p) && p[0] == p[2];
  }

  lemma StillComplete(s: State, r: InputRequest, s': State)
    requires AfterCircle(s, r, s') && CompleteNow(s, 1)
    ensures CompleteNow(s', 1) && s'.owed == s.owed && s'.broken == s.broken
  {
    assert Info(s', 1).phase == Info(s, 1).phase;
  }

  // ---- No cycle to be found ------------------------------------------------------------------------------

  lemma FoundTwo()
    ensures var a := StartBuild(INITIAL, 1); var s := Leaves(a, 1, 2);
      && Quiet(INITIAL) && Alone(a, 1) && a.epoch == 1
      && BeforeCircle(s, Ask(2)) && Otherwise(s) && CompleteNow(s, 1) && 1 in s.owed && !s.broken
  {
  }

  /** The state at the end of `steps`, in which the source calls `resolveCycle`: nothing to do, no task
      computing, and tasks left. The key asked for is complete, so no waits lead from it to a cycle. */
  lemma NoCycleToFind() returns (steps: seq<Step>)
    ensures Legal(CIRCLE, steps)
    ensures var s := Exec(CIRCLE, steps);
      Stuck(s) && s.tasks != map[] && 1 in s.owed && !s.broken && CompleteNow(s, 1) && !ReachesCycle(s, 1) && ReachesCycle(s, 2)
  {
    hide Leads, InputOne, Ended, Circled, AfterCircle, ReachesCycle, Stuck, Leaves, StartBuild, Alone, Quiet, Otherwise, BeforeCircle;
    var a := StartBuild(INITIAL, 1);
    var s := Leaves(a, 1, 2);
    var s' := Circled(s, Ask(2));
    FoundTwo();
    StartsSo(CIRCLE);
    steps := StartStep(CIRCLE, [], INITIAL, 1);
    steps := BuildOn(CIRCLE, steps, a, 1, DONE, [Delivery(2, DONE)]);
    EndedOne(a, 1, 2);
    steps := Circles(steps, s, Ask(2));
    CircledIs(s, Ask(2));
    StuckCircle(s, Ask(2), s');
    StillComplete(s, Ask(2), s');
    LeadsTo(CIRCLE, steps, s');
    RunInvariant(CIRCLE, steps);
    CompleteWaitsForNothing(CIRCLE, s', 1);
  }

  // ---- A list that is read past its end ---------------------------------------------------------------------

  /** Whatever list of waits `findCycle` starts from rule 1 with, nothing in it can be resolved. */
  lemma OnlyTheFirst(s: State, s': State, p: seq<KeyID>)
    requires Otherwise(s) && AfterCircle(s, Request(1, 2), s') && p != [] && p[0] == 1 && Walk(s', p)
    requires s.requestedBy == map[1 := []] && s.taskDeferred == map[1 := []] && Waiting(s, 1) && Info(s, 1).result.builtAt != 0
    ensures PastTheEnd(s', p)
  {
    forall i | 0 < i < |p| ensures p[i] == 2 || p[i] == 3 {
      assert WaitsOn(s', p[i - 1], p[i - 1 + 1]);
    }
  }

  /** The state at the end of `steps`, in which the source calls `resolveCycle`: there is a cycle, and
      every list that can be found leads `breakCycle` past its end. */
  lemma ListReadPastItsEnd() returns (steps: seq<Step>)
    ensures Legal(CIRCLE, steps)
    ensures var s := Exec(CIRCLE, steps);
      && Stuck(s) && s.tasks != map[] && 1 in s.owed && !s.broken && ReachesCycle(s, 1)
      && forall p: seq<KeyID> :: p != [] && p[0] == 1 && Walk(s, p) ==> PastTheEnd(s, p)
  {
    var s := SecondLaunch();
    steps := SecondEpoch();
    hide Leads, Circled;
    steps := Circles(steps, s, Request(1, 2));
    CircledIs(s, Request(1, 2));
    var s' := Circled(s, Request(1, 2));
    StuckCircle(s, Request(1, 2), s');
    assert Waiting(s', 1) by { assert Info(s', 1).phase == Info(s, 1).phase; }
    CircleFromOne(s');
    forall p: seq<KeyID> | p != [] && p[0] == 1 && Walk(s', p) ensures PastTheEnd(s', p) { OnlyTheFirst(s, s', p); }
    hide ReachesCycle, Stuck, PastTheEnd, Walk;
    LeadsTo(CIRCLE, steps, s');
  }

  lemma CircleFromOne(s: State)
    requires At(s.requestedBy, 2) == [Request(1, 2), Request(3, 2)] && At(s.requestedBy, 3) == [Request(2, 3)]
    ensures ReachesCycle(s, 1)
  {
    var p: seq<KeyID> := [1, 2, 3, 2];
    assert Request(1, 2) in At(s.requestedBy, 2) && Request(3, 2) in At(s.requestedBy, 2) && Request(2, 3) in At(s.requestedBy, 3);
    assert WaitsOn(s, p[0], p[1]) && WaitsOn(s, p[1], p[2]) && WaitsOn(s, p[2], p[3]);
    assert Walk(s, p) && p[1] == p[3];
  }

  /** Rule 1 was built in the first epoch, and has been launched again in the second. */
  function SecondLaunch(): State {
    var res := Outcome(1, DONE, []);
    INITIAL.(epoch := 2, rules := map[1 := RuleInfo(InProgressWaiting, res, false)], db := map[1 := res], owed := {1}, building := true,
             tasks := map[1 := Asking(NEW_TASK, [On(2)])], requestedBy := map[1 := []], taskDeferred := map[1 := []],
             inputRequests := [Request(1, 2)], created := [1])
  }

  lemma SecondEpoch() returns (steps: seq<Step>)
    ensures Leads(CIRCLE, steps, SecondLaunch())
  {
    var a := StartBuild(INITIAL, 1);
    StartsSo(CIRCLE);
    hide Leads, InputOne;
    steps := StartStep(CIRCLE, [], INITIAL, 1);
    steps := BuildOn(CIRCLE, steps, a, 1, DONE, []);
    var s := Ended(a, 1, DONE, []);
    assert Discovered([]) == [] && Dummies([]) == [] && KeysOf([]) == {};
    assert Quiet(s);
    steps := StartStep(CIRCLE, steps, s, 1);
    var b := StartBuild(s, 1);
    assert Info(b, 1) == RuleInfo(Complete, Outcome(1, DONE, []), false) && b.inputRequests == [Ask(1)];
    assert Cleaned(Outcome(1, DONE, [])) == Outcome(1, DONE, []);
    LaunchFor(CIRCLE, b, Ask(1), 2);
    steps := InputStep(CIRCLE, steps, b);
    LaunchedAgain(b);
  }

  lemma LaunchedAgain(b: State)
    requires var res := Outcome(1, DONE, []); Cleaned(res) == res && res.dependencies == [] && b == INITIAL.(epoch := 2, rules := map[1 := RuleInfo(Complete, res, false)],
      db := map[1 := res], owed := {1}, building := true, inputRequests := [Ask(1)])
    ensures Launched(b, 1, 2) == SecondLaunch()
  {
    hide Cleaned, Asking;
    var res := Outcome(1, DONE, []);
    assert (map[1 := RuleInfo(Complete, res, false)])[1 := RuleInfo(InProgressWaiting, res, false)] == map[1 := RuleInfo(InProgressWaiting, res, false)];
  }

  // ---- Rules left scanning -------------------------------------------------------------------------------------

  /** Rules ask for nothing, and find what they need while they run. */
  const FINDER: Client := Client(
    (e: nat, k: KeyID) => 0,
    (e: nat, k: KeyID, v: Value) => true,
    (e: nat, k: KeyID) => false,
    (e: nat, k: KeyID, d: KeyID) => false,
    (e: nat, k: KeyID) => [],
    (e: nat, k: KeyID, got: seq<Delivery>) => [])

  /** The result of a rule that found rule `d`. */
  function FoundOne(epoch: nat, d: KeyID): Result {
    Result(DONE, 0, epoch, epoch, [On(d)], [Delivery(d, DONE)], epoch)
  }

  lemma FoundIs(epoch: nat, d: KeyID)
    ensures Outcome(epoch, DONE, [Delivery(d, DONE)]) == FoundOne(epoch, d) && Discovered([Delivery(d, DONE)]) == [On(d)]
    ensures Dummies([On(d)]) == [Ask(d)] && KeysOf([On(d)]) == {d} && Cleaned(FoundOne(epoch, d)) == FoundOne(epoch, d)
  {
    var ds := [On(d)];
    assert ds[..0] == [] && WithoutSingleUse([]) == [];
    assert WithoutSingleUse(ds) == [] + [ds[0]];
  }

  /** What the build of rule `k` leaves, when it has found rule `d`. */
  function Leaves(s: State, k: KeyID, d: KeyID): State {
    s.(rules := s.rules[k := RuleInfo(Complete, FoundOne(s.epoch, d), false)], db := s.db[k := FoundOne(s.epoch, d)], owed := s.owed + {d},
       readied := s.readied + [k], created := s.created + [k], inputRequests := [Ask(d)])
  }

  lemma EndedOne(s: State, k: KeyID, d: KeyID)
    ensures Ended(s, k, DONE, [Delivery(d, DONE)]) == Leaves(s, k, d)
  {
    FoundIs(s.epoch, d);
    hide Discovered, Dummies, KeysOf, Outcome, FoundOne;
  }

  /** The key asked for is complete in this epoch without having been built in it. */
  lemma AlreadyThere(c: Client, s: State, k: KeyID)
    requires s.inputRequests == [Ask(k)] && s.curInput == [] && CompleteNow(s, k)
    ensures InputOne(c, s) == s.(inputRequests := [])
  {
    var s0 := TakeInput(s);
    assert Info(s0, k) == Info(s, k);
    assert ScanRule(c, s0, k) == s0 && DemandRule(c, s0, k) == s0;
  }

  /** Rules 2 and 3 have found each other. */
  function Entangled(): State {
    INITIAL.(epoch := 1, rules := map[2 := RuleInfo(Complete, FoundOne(1, 3), false), 3 := RuleInfo(Complete, FoundOne(1, 2), false)],
             db := map[2 := FoundOne(1, 3), 3 := FoundOne(1, 2)], owed := {2, 3}, building := true, readied := [2, 3], created := [2, 3])
  }

  lemma Entangles() returns (steps: seq<Step>)
    ensures Leads(FINDER, steps, Entangled())
  {
    StartsSo(FINDER);
    var a, s1 := StartBuild(INITIAL, 2), Tangled();
    assert Quiet(INITIAL);
    hide Leads, InputOne, Ended, Alone, StartBuild, Quiet, CompleteNow, Entangled, Tangled;
    steps := StartStep(FINDER, [], INITIAL, 2);
    TangledIs();
    steps := BuildOn(FINDER, steps, a, 2, DONE, [Delivery(3, DONE)]);
    EntangledIs();
    steps := BuildOn(FINDER, steps, s1, 3, DONE, [Delivery(2, DONE)]);
    AlreadyThere(FINDER, Entangled().(inputRequests := [Ask(2)]), 2);
    steps := InputStep(FINDER, steps, Entangled().(inputRequests := [Ask(2)]));
    LeftAlone(Entangled());
  }

  /** Rule 2 has found rule 3, which is to be built next. */
  function Tangled(): State {
    INITIAL.(epoch := 1, rules := map[2 := RuleInfo(Complete, FoundOne(1, 3), false)], db := map[2 := FoundOne(1, 3)],
             owed := {2, 3}, building := true, readied := [2], created := [2], inputRequests := [Ask(3)])
  }

  lemma TangledIs()
    ensures var a := StartBuild(INITIAL, 2); a.epoch == 1 && Alone(a, 2) && Ended(a, 2, DONE, [Delivery(3, DONE)]) == Tangled()
  {
    hide FoundOne, Ended;
    EndedOne(StartBuild(INITIAL, 2), 2, 3);
    assert {2} + {3} == {2, 3};
  }

  lemma EntangledIs()
    ensures var s := Tangled(); s.epoch == 1 && Alone(s, 3) && Ended(s, 3, DONE, [Delivery(2, DONE)]) == Entangled().(inputRequests := [Ask(2)])
    ensures var s := Entangled().(inputRequests := [Ask(2)]); s.inputRequests == [Ask(2)] && s.curInput == [] && CompleteNow(s, 2)
    ensures Entangled().inputRequests == []
  {
    hide Ended;
    EndedOne(Tangled(), 3, 2);
    var s, s' := Tangled(), Entangled();
    assert s.rules[3 := RuleInfo(Complete, FoundOne(1, 2), false)] == s'.rules && s.db[3 := FoundOne(1, 2)] == s'.db;
    assert {2, 3} + {2} == {2, 3};
  }

  lemma LeftAlone(s: State)
    requires s.inputRequests == []
    ensures s.(inputRequests := [Ask(2)]).(inputRequests := []) == s
  {
  }

  const DONE1: RuleInfo := RuleInfo(Complete, FoundOne(2, 2), false)

  /** In the second epoch rule 1 is complete, having found rule 2. */
  function Rooted(rules: map<KeyID, RuleInfo>): State {
    Entangled().(epoch := 2, rules := rules, db := Entangled().db[1 := FoundOne(2, 2)], owed := {1, 2}, readied := [1], created := [1])
  }

  function Rules(two: RuleInfo, three: RuleInfo): map<KeyID, RuleInfo> {
    map[1 := DONE1, 2 := two, 3 := three]
  }

  function Old(phase: Phase, d: KeyID): RuleInfo {
    RuleInfo(phase, FoundOne(1, d), false)
  }

  lemma SecondBuild() returns (steps: seq<Step>)
    ensures Leads(FINDER, steps, Rooted(Rules(Old(Complete, 3), Old(Complete, 2))).(inputRequests := [Ask(2)]))
  {
    hide Leads, Entangled, Rooted, Rules, Old, StartBuild, Alone, Quiet, Ended;
    var s := Entangled();
    steps := Entangles();
    RootedIs();
    steps := StartStep(FINDER, steps, s, 1);
    steps := BuildOn(FINDER, steps, StartBuild(s, 1), 1, DONE, [Delivery(2, DONE)]);
  }

  lemma StartIs()
    ensures StartBuild(Entangled(), 1) == Entangled().(epoch := 2, inputRequests := [Ask(1)], created := [], readied := [], owed := {1})
  {
    hide FoundOne;
  }

  lemma RootedIs()
    ensures var a := StartBuild(Entangled(), 1);
      && Quiet(Entangled()) && Alone(a, 1) && a.epoch == 2
      && Ended(a, 1, DONE, [Delivery(2, DONE)]) == Rooted(Rules(Old(Complete, 3), Old(Complete, 2))).(inputRequests := [Ask(2)])
  {
    hide Ended;
    var s := Entangled();
    var a := StartBuild(s, 1);
    assert a == s.(epoch := 2, inputRequests := [Ask(1)], created := [], readied := [], owed := {1}) by { StartIs(); }
    EndedOne(a, 1, 2);
    hide FoundOne, StartBuild;
    assert a.rules[1 := DONE1] == Rules(Old(Complete, 3), Old(Complete, 2));
    assert [] + [1] == [1] && {1} + {2} == {1, 2};
  }

  function ScanOf(k: KeyID, input: Option<KeyID>): ScanRequest { ScanRequest(k, 0, input, false, false) }

  function OneScans(): State {
    Rooted(Rules(Old(IsScanning, 3), Old(Complete, 2))).(
      paused := map[2 := [Ask(2)]], deferred := map[2 := []], ruleInfosToScan := [ScanOf(2, None)])
  }

  /** A rule that was complete in an earlier epoch begins to be scanned. */
  lemma Rescan(s: State, k: KeyID, d: KeyID)
    requires s.epoch == 2 && Info(s, k) == Old(Complete, d)
    ensures ScanRule(FINDER, s, k) == BeginScan(s, k, Old(IsScanning, d), false)
  {
    FoundIs(1, d);
    hide WithoutSingleUse, BeginScan;
    assert FirstLook(FINDER, 2, k, FoundOne(1, d)) == MustScan(false);
  }

  lemma Pauses(s: State, r: InputRequest, s1: State)
    requires s1 == ScanRule(FINDER, s, r.input) && Scanning(s1, r.input)
    ensures ProcessInput(FINDER, s, r) == Pause(s1, r)
  {
    hide ScanRule, Scanning, Pause;
  }

  lemma OneScansIs(s: State, s1: State)
    requires s == TakeInput(Rooted(Rules(Old(Complete, 3), Old(Complete, 2))).(inputRequests := [Ask(2)]))
    requires s1 == BeginScan(s, 2, Old(IsScanning, 3), false)
    ensures Pause(s1, Ask(2)) == OneScans()
  {
    hide FoundOne;
    var none: seq<InputRequest> := [];
    assert none + [Ask(2)] == [Ask(2)] && (map[2 := none])[2 := [Ask(2)]] == map[2 := [Ask(2)]];
    assert s1.rules == OneScans().rules;
  }

  lemma BeginsOne()
    ensures InputOne(FINDER, Rooted(Rules(Old(Complete, 3), Old(Complete, 2))).(inputRequests := [Ask(2)])) == OneScans()
  {
    var s := TakeInput(Rooted(Rules(Old(Complete, 3), Old(Complete, 2))).(inputRequests := [Ask(2)]));
    assert Info(s, 2) == Old(Complete, 3);
    Rescan(s, 2, 3);
    var s1 := BeginScan(s, 2, Old(IsScanning, 3), false);
    Pauses(s, Ask(2), s1);
    hide ScanRule, FoundOne, ProcessInput, Pause;
    OneScansIs(s, s1);
  }

  function BothScan(): State {
    Rooted(Rules(Old(IsScanning, 3), Old(IsScanning, 2))).(
      paused := map[2 := [Ask(2)], 3 := []], deferred := map[2 := [], 3 := [ScanOf(2, Some(3))]], ruleInfosToScan := [ScanOf(3, None)])
  }

  lemma BeginsTwo()
    ensures ScanOne(FINDER, OneScans()) == BothScan()
  {
    var s := TakeScan(OneScans());
    var r := ScanOf(2, Some(3));
    assert Scanning(s, 2) && LookUp(s, ScanOf(2, None)) == r;
    var s0 := s.(curScan := [r]);
    assert Info(s0, 3) == Old(Complete, 2);
    Rescan(s0, 3, 2);
    var s2 := BeginScan(s0, 3, Old(IsScanning, 2), false);
    Defers(s, r, 3, s2);
    hide ScanRule, FoundOne, ProcessScan;
    BothScanIs(s0, s2);
  }

  lemma BothScanIs(s0: State, s2: State)
    requires s0 == TakeScan(OneScans()).(curScan := [ScanOf(2, Some(3))]) && s2 == BeginScan(s0, 3, Old(IsScanning, 2), false)
    ensures DeferOnScan(s2, ScanOf(2, Some(3)), 3) == BothScan()
  {
    hide FoundOne;
    var r := ScanOf(2, Some(3));
    assert s2.rules == BothScan().rules && s2.paused == BothScan().paused;
    var none: seq<ScanRequest> := [];
    assert At(s2.deferred, 3) == none && none + [r] == [r] && none + [ScanOf(3, None)] == [ScanOf(3, None)];
    assert DeferOnScan(s2, r, 3).deferred == BothScan().deferred;
  }

  /** A scan that waits for another one. */
  lemma Defers(s: State, r: ScanRequest, d: KeyID, s2: State)
    requires r.input == Some(d) && Scanning(s, r.rule) && LookUp(s, r.(input := None)) == r && !r.needsToRun
    requires s2 == ScanRule(FINDER, s.(curScan := [r]), d) && Scanning(s2, d)
    ensures ProcessScan(FINDER, s, r.(input := None)) == DeferOnScan(s2, r, d)
  {
    hide ScanRule, Scanning, LookUp;
  }

  function Left(): State {
    BothScan().(deferred := map[2 := [ScanOf(3, Some(2))], 3 := [ScanOf(2, Some(3))]], ruleInfosToScan := [])
  }

  lemma NoneIsLeft()
    ensures ScanOne(FINDER, BothScan()) == Left()
  {
    var s := TakeScan(BothScan());
    var r := ScanOf(3, Some(2));
    assert Scanning(s, 3) && LookUp(s, ScanOf(3, None)) == r;
    var s0 := s.(curScan := [r]);
    assert Scanning(s0, 2) && ScanRule(FINDER, s0, 2) == s0;
    Defers(s, r, 2, s0);
    hide ScanRule, ProcessScan, FoundOne;
    var none: seq<ScanRequest> := [];
    assert At(s0.deferred, 2) == none && none + [r] == [r];
    assert DeferOnScan(s0, r, 2).deferred == Left().deferred;
  }

  /** A build that has nothing left to do and no task, and whose key is complete, so that the source
      counts it as a success; and rules 2 and 3 still scan each other. Their scan records are deleted
      with the blocks at the end of the build. */
  lemma SuccessLeavesScans() returns (steps: seq<Step>)
    ensures Legal(FINDER, steps)
    ensures var s := Exec(FINDER, steps);
      Stuck(s) && s.tasks == map[] && 1 in s.owed && CompleteNow(s, 1) && Scanning(s, 2) && Scanning(s, 3) && !s.broken && !s.cancelled
  {
    LeftIs();
    hide Leads, InputOne, ScanOne, Left, BothScan, OneScans, Rooted, Rules, Old;
    BeginsOne();
    BeginsTwo();
    NoneIsLeft();
    steps := SecondBuild();
    steps := InputStep(FINDER, steps, Rooted(Rules(Old(Complete, 3), Old(Complete, 2))).(inputRequests := [Ask(2)]));
    steps := ScanStep(FINDER, steps, OneScans());
    steps := ScanStep(FINDER, steps, BothScan());
    hide Stuck, CompleteNow, Scanning;
    LeadsTo(FINDER, steps, Left());
  }

  lemma LeftIs()
    ensures var s := Left();
      && Stuck(s) && s.tasks == map[] && 1 in s.owed && CompleteNow(s, 1) && Scanning(s, 2) && Scanning(s, 3) && !s.broken && !s.cancelled
    ensures OneScans().ruleInfosToScan != [] && BothScan().ruleInfosToScan != []
  {
  }

  lemma LeadsTo(c: Client, steps: seq<Step>, s: State)
    requires Leads(c, steps, s)
    ensures Legal(c, steps) && Exec(c, steps) == s
  {
  }
}
