/** What becomes of a rule that has never been built and asks for nothing, step by step, in an engine
    that has nothing else to do. */
module SingleBuild {
  import opened Options
  import opened EngineState
  import opened EngineSteps

  function Ask(k: KeyID): InputRequest { Dummy(Dependency(k, false, false)) }

  /** All there is to do is to build rule `k`, for the first time. */
  predicate Alone(s: State, k: KeyID) {
    && s.inputRequests == [Ask(k)] && s.curInput == [] && s.finishedInputRequests == [] && s.ruleInfosToScan == [] && s.curScan == []
    && s.readyTaskInfos == [] && s.finishedTaskInfos == [] && s.numOutstanding == 0
    && s.tasks == map[] && s.requestedBy == map[] && s.taskDeferred == map[] && s.paused == map[] && s.deferred == map[]
    && k !in s.rules && k !in s.db && s.epoch > 0
  }

  function Made(s: State, k: KeyID): State {
    s.(inputRequests := [], rules := s.rules[k := RuleInfo(InProgressWaiting, NO_RESULT, false)],
       tasks := map[k := NEW_TASK], requestedBy := map[k := []], taskDeferred := map[k := []],
       readyTaskInfos := [k], readied := s.readied + [k], created := s.created + [k])
  }

  function Computed(s: State, k: KeyID): State {
    Made(s, k).(rules := s.rules[k := RuleInfo(InProgressComputing, NO_RESULT, false)], readyTaskInfos := [], numOutstanding := 1)
  }

  function Told(s: State, k: KeyID, v: Value, found: seq<Delivery>): State {
    Computed(s, k).(
      rules := s.rules[k := RuleInfo(InProgressComputing, Result(v, 0, s.epoch, 0, [], found, s.epoch), false)],
      tasks := map[k := NEW_TASK.(discovered := Discovered(found))], finishedTaskInfos := [k])
  }

  /** The result of a rule that was computed from what it found. */
  function Outcome(epoch: nat, v: Value, found: seq<Delivery>): Result {
    Result(v, 0, epoch, epoch, Discovered(found), found, epoch)
  }

  function Ended(s: State, k: KeyID, v: Value, found: seq<Delivery>): State {
    var res := Outcome(s.epoch, v, found);
    s.(rules := s.rules[k := RuleInfo(Complete, res, false)], db := s.db[k := res], owed := s.owed + KeysOf(Discovered(found)),
       readied := s.readied + [k], created := s.created + [k], inputRequests := Dummies(Discovered(found)))
  }

  lemma Launches(c: Client, s: State, k: KeyID)
    requires Alone(s, k) && c.onStart(s.epoch, k) == []
    ensures Enabled(s, DoInput) && InputOne(c, s) == Made(s, k)
  {
    var s0 := TakeInput(s);
    assert Cleaned(Info(s0, k).result) == NO_RESULT;
    var s1 := ScanRule(c, s0, k);
    assert s1 == SetInfo(s0, k, RuleInfo(NeedsToRun, NO_RESULT, false));
    assert Asking(NEW_TASK, []) == NEW_TASK;
    var s2 := DemandRule(c, s1, k);
    assert s2 == LaunchTask(s1, k, []);
    assert Requests(k, 0, []) == [];
    assert s.rules[k := RuleInfo(NeedsToRun, NO_RESULT, false)][k := RuleInfo(InProgressWaiting, NO_RESULT, false)] == s.rules[k := RuleInfo(InProgressWaiting, NO_RESULT, false)];
  }

  lemma Runs(s: State, k: KeyID)
    requires Alone(s, k)
    ensures Enabled(Made(s, k), DoReady) && ReadyOne(Made(s, k)) == Computed(s, k)
  {
    var r, r' := RuleInfo(InProgressWaiting, NO_RESULT, false), RuleInfo(InProgressComputing, NO_RESULT, false);
    assert s.rules[k := r][k := r'] == s.rules[k := r'];
  }

  lemma Reports(c: Client, s: State, k: KeyID, v: Value, found: seq<Delivery>)
    requires Alone(s, k) && v != NO_RESULT.value && c.signature(s.epoch, k) == 0
    ensures Enabled(Computed(s, k), DoTaskIsComplete(k, v, false, found))
    ensures TaskIsComplete(c, Computed(s, k), k, v, false, found) == Told(s, k, v, found)
  {
    hide Discovered;
    var r, r' := RuleInfo(InProgressComputing, NO_RESULT, false), RuleInfo(InProgressComputing, Result(v, 0, s.epoch, 0, [], found, s.epoch), false);
    assert s.rules[k := r][k := r'] == s.rules[k := r'];
    assert [] + found == found;
    var t, t' := NEW_TASK, NEW_TASK.(discovered := Discovered(found));
    assert (map[k := t])[k := t'] == map[k := t'];
  }

  lemma Finishes(s: State, k: KeyID, v: Value, found: seq<Delivery>)
    requires Alone(s, k)
    ensures Enabled(Told(s, k, v, found), DoFinish) && FinishOne(Told(s, k, v, found)) == Ended(s, k, v, found)
  {
    hide Discovered, Dummies, KeysOf;
    var r, r' := RuleInfo(InProgressComputing, Result(v, 0, s.epoch, 0, [], found, s.epoch), false), RuleInfo(Complete, Outcome(s.epoch, v, found), false);
    assert s.rules[k := r][k := r'] == s.rules[k := r'];
    assert [] + Discovered(found) == Discovered(found);
    assert (map[k := NEW_TASK.(discovered := Discovered(found))]) - {k} == map[];
    var none: seq<InputRequest>, scans: seq<ScanRequest> := [], [];
    assert (map[k := none]) - {k} == map[] && (map[k := scans]) - {k} == map[];
  }
}
