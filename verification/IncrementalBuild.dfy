/** Incremental builds agree with clean builds, over any sequence of builds. */
module IncrementalBuild {
  import opened Options
  import opened EngineState
  import opened EngineSteps
  import opened EngineInvariant
  import opened EngineRuns
  import opened EngineTheorems
  import opened CleanBuild
  import opened EngineValues
  import opened EngineValueSteps
  import opened EngineValueTasks

  // ---- Between builds ----------------------------------------------------------------------------

  /** If the input has not been computed since the result was stored, it has not changed. */
  ghost predicate RestInput(db: map<KeyID, Result>, res: Result, u: Delivery) {
    u.key in db && (db[u.key].computedAt <= res.builtAt ==> db[u.key].value == u.value)
  }

  /** So it is for every input of every stored result: an input that will not be found newer has the
      value that was used. */
  ghost predicate AllRest(db: map<KeyID, Result>) {
    forall k, u :: k in db && u in db[k].used ==> RestInput(db, db[k], u)
  }

  ghost predicate RestDb(c: Client, b: Behaviour, db: map<KeyID, Result>) {
    forall k :: k in db ==> Sound(c, b, k, db[k]) && forall u :: u in db[k].used ==> RestInput(db, db[k], u)
  }

  /** Every input used by a rule complete in this build is complete too: in particular every
      dependency a task has discovered. */
  ghost predicate InputsComplete(s: State) {
    forall k :: Info(s, k).phase.Complete? && Info(s, k).result.builtAt == s.epoch ==>
      forall u :: u in Info(s, k).result.used ==> CompleteNow(s, u.key)
  }

  lemma CompleteInput(b: Behaviour, s: State, k: KeyID, u: Delivery)
    requires Monotone(b) && AgreeOk(s) && DoneOk(b, s) && InputsComplete(s)
    requires CompleteNow(s, k) && u in Info(s, k).result.used
    ensures u.key in s.db && s.db[u.key].value == u.value
  {
    hide Monotone, Clean, UsedHere, AllComplete, Cleaned;
    assert CompleteNow(s, u.key);
    assert Clean(b, s.epoch, u.key, u.value);
    OneClean(b, s.epoch, u.key, u.value, Info(s, u.key).result.value);
    assert Agree(Info(s, u.key).result, s.db[u.key]);
  }

  lemma StoredNow(s: State, k: KeyID)
    requires KnownOk(s) && AgreeOk(s) && TimesOk(s) && s.building && k in s.db && s.db[k].builtAt == s.epoch
    ensures CompleteNow(s, k) && Info(s, k).result.used == s.db[k].used
  {
    hide Cleaned;
    assert Info(s, k).result.builtAt == s.epoch;
    assert Agree(Info(s, k).result, s.db[k]);
  }

  lemma OpenRests(c: Client, b: Behaviour, s: State)
    requires Good(c, b, s) && Monotone(b) && InputsComplete(s)
    ensures RestDb(c, b, s.db)
  {
    hide Inv, Monotone, Sound, Clean, InputsComplete;
    UnpackGood(c, b, s);
    assert TimesOk(s) by { Unpack(c, s); }
    hide AgreeOk, StampOk, SkipOk, DoneOk, TasksVal, ReportsOk, KnownOk, TimesOk, CompleteNow;
    forall k, u | k in s.db && u in s.db[k].used ensures RestInput(s.db, s.db[k], u) {
      assert InputOk(b, s, s.db[k], u);
      if s.db[k].builtAt == s.epoch {
        StoredNow(s, k);
        CompleteInput(b, s, k, u);
      }
    }
  }

  lemma ShutRests(c: Client, b: Behaviour, s: State)
    requires DbOk(c, b, s) && !Open(s)
    ensures RestDb(c, b, s.db)
  {
    hide Sound;
    forall k, u | k in s.db && u in s.db[k].used ensures RestInput(s.db, s.db[k], u) {
      assert InputOk(b, s, s.db[k], u);
    }
  }

  lemma RestIsDbOk(c: Client, b: Behaviour, s: State)
    requires RestDb(c, b, s.db) && (!Open(s) || forall k :: k in s.db ==> s.db[k].builtAt < s.epoch)
    ensures DbOk(c, b, s)
  {
    hide Sound, Clean;
    forall k, u | k in s.db && u in s.db[k].used ensures InputOk(b, s, s.db[k], u) {
      assert RestInput(s.db, s.db[k], u);
    }
  }

  /** When a build is over, everything it owed is complete. */
  lemma OverIsComplete(c: Client, b: Behaviour, s: State)
    requires Good(c, b, s) && Quiet(s)
    ensures InputsComplete(s)
  {
    hide Clean, AllClean;
    UnpackGood(c, b, s);
    assert OwedOk(s) && Shape(s) by { Unpack(c, s); }
    hide Inv, KnownOk, AgreeOk, StampOk, SkipOk, TasksVal, ReportsOk, DbOk, Val;
    forall d | d in s.owed ensures CompleteNow(s, d) { var _ := Info(s, d); }
    forall k, u | CompleteNow(s, k) && u in Info(s, k).result.used ensures CompleteNow(s, u.key) {
      assert UsedHere(s, Info(s, k).result.used);
    }
  }

  lemma QuietRests(c: Client, b: Behaviour, s: State)
    requires Between(c, s) && Val(c, b, s) && Quiet(s) && Monotone(b)
    ensures RestDb(c, b, s.db)
  {
    hide Inv, MemoryOk, DbOk, Quiet, Monotone, RestDb, InputsComplete;
    if Open(s) {
      OverIsComplete(c, b, s);
      OpenRests(c, b, s);
    } else {
      ShutRests(c, b, s);
    }
  }

  // ---- A new engine ----------------------------------------------------------------------------------

  lemma NewEngineMemory(c: Client, b: Behaviour, s: State)
    requires RestDb(c, b, s.db) && StoredOnce(s.db)
    ensures MemoryOk(c, b, NewEngine(s))
  {
    hide Sound, RestDb;
    var s' := NewEngine(s);
    forall k ensures Info(s', k) == RuleInfo(Incomplete, if k in s.db then s.db[k] else NO_RESULT, false) {}
    assert AgreeOk(s') && StampOk(s') && SkipOk(s');
  }

  lemma NewEngineVal(c: Client, b: Behaviour, s: State)
    requires Between(c, s) && Val(c, b, s) && Quiet(s) && Monotone(b)
    ensures Val(c, b, NewEngine(s))
  {
    QuietRests(c, b, s);
    assert StoredOnce(s.db) by { hide Between, Val, Monotone, Quiet, Computes; }
    hide Between, Quiet, Monotone, MemoryOk, DbOk, RestDb;
    NewEngineMemory(c, b, s);
    RestIsDbOk(c, b, NewEngine(s));
  }

  // ---- A new build -------------------------------------------------------------------------------------

  /** Nothing is left over from the build before. */
  lemma NothingLeftOver(c: Client, b: Behaviour, s: State, k: KeyID)
    requires Good(c, b, s) && Quiet(s)
    ensures !Verdict(s, k)
  {
    UnpackGood(c, b, s);
    assert DemandsOk(s) by { Unpack(c, s); }
    hide Inv, AgreeOk, StampOk, SkipOk, TasksVal, ReportsOk, DbOk, Val, DoneOk;
    var _ := Info(s, k);
  }

  lemma StartsTidy(c: Client, b: Behaviour, s: State, root: KeyID)
    requires Between(c, s) && Val(c, b, s) && Quiet(s) && !s.cancelled
    ensures StartBuild(s, root).tidy
  {
    hide Inv, Quiet, Verdict;
    if s.building {
      forall k | k in s.rules ensures !Verdict(s, k) { NothingLeftOver(c, b, s, k); }
    } else {
      UnpackVal(c, b, s);
    }
  }

  /** A new epoch begins with nothing in flight. */
  ghost predicate Begins(s: State, s': State) {
    && s'.rules == s.rules && s'.db == s.db && s'.epoch == s.epoch + 1 && s'.building && !s'.cancelled && s'.tidy && !s'.broken
    && s'.tasks == map[] && s'.finishedTaskInfos == []
    && forall k :: Info(s', k) == Info(s, k) && !Running(Info(s, k).phase)
  }

  lemma BeginsMemory(c: Client, b: Behaviour, s: State, s': State)
    requires Begins(s, s') && KnownOk(s) && AgreeOk(s) && SkipOk(s) && TimesOk(s)
    ensures MemoryOk(c, b, s')
  {
    hide Cleaned;
    forall k | k in s'.db ensures Agree(Info(s', k).result, s'.db[k]) { assert Agree(Info(s, k).result, s.db[k]); }
    forall k, d | k in s'.db && d in Info(s', k).result.dependencies ensures Apart(s', k, d) {
      assert Apart(s, k, d);
      assert Info(s', d.key) == Info(s, d.key);
    }
    forall k ensures Info(s', k).result.builtAt < s'.epoch { var _ := Info(s, k); }
  }

  lemma StartBegins(c: Client, s: State, root: KeyID)
    requires Between(c, s) && Quiet(s) && !s.cancelled && StartBuild(s, root).tidy
    ensures Begins(s, StartBuild(s, root))
  {
    assert Shape(s) by { Unpack(c, s); }
    hide Inv;
    var s' := StartBuild(s, root);
    forall k ensures Info(s', k) == Info(s, k) && !Running(Info(s, k).phase) {}
  }

  lemma StartBuildVal(c: Client, b: Behaviour, s: State, root: KeyID)
    requires Between(c, s) && Val(c, b, s) && Quiet(s) && !s.cancelled && Monotone(b)
    ensures Val(c, b, StartBuild(s, root))
  {
    var s' := StartBuild(s, root);
    QuietRests(c, b, s);
    StartsTidy(c, b, s, root);
    StartBegins(c, s, root);
    UnpackVal(c, b, s);
    assert TimesOk(s) by { Unpack(c, s); }
    hide Quiet, Monotone, MemoryOk, DbOk, RestDb, Inv, StartBuild, KnownOk, AgreeOk, SkipOk, StampOk, DoneOk, TasksVal, ReportsOk, Val;
    BeginsMemory(c, b, s, s');
    RestIsDbOk(c, b, s');
    assert Val(c, b, s') by { ValFrom(c, b, s'); }
  }

  lemma ValFrom(c: Client, b: Behaviour, s: State)
    requires DbOk(c, b, s) && (s.cancelled || MemoryOk(c, b, s))
    ensures Val(c, b, s)
  {
  }

  // ---- Cancelling ----------------------------------------------------------------------------------------

  lemma CancelVal(c: Client, b: Behaviour, s: State)
    requires Between(c, s) && Val(c, b, s) && Monotone(b) && (Open(s) ==> AllRest(s.db))
    ensures Val(c, b, Cancel(s))
  {
    hide Inv, MemoryOk, DbOk, Quiet, Monotone, RestDb, AllRest, Val, CancelledRules;
    assert DbOk(c, b, s) by { DbOfVal(c, b, s); }
    if Open(s) {
      AlreadyRests(c, b, s);
    } else {
      ShutRests(c, b, s);
    }
    RestIsDbOk(c, b, Cancel(s));
    ValFrom(c, b, Cancel(s));
  }

  lemma AlreadyRests(c: Client, b: Behaviour, s: State)
    requires DbOk(c, b, s) && AllRest(s.db)
    ensures RestDb(c, b, s.db)
  {
    hide Sound, InputsOk, RestInput;
  }

  /** In particular, a build may be cancelled when every dependency its tasks have discovered is
      complete. */
  lemma MayCancelWhenComplete(c: Client, b: Behaviour, s: State)
    requires Right(c, b, s) && Open(s) && Monotone(b) && InputsComplete(s)
    ensures AllRest(s.db)
  {
    hide Inv, Val, Monotone, InputsComplete, RestInput, Sound, Quiet;
    OpenRests(c, b, s);
  }

  lemma DbOfVal(c: Client, b: Behaviour, s: State)
    requires Val(c, b, s)
    ensures DbOk(c, b, s)
  {
  }

  // ---- Runs ---------------------------------------------------------------------------------------------

  /** The steps over which values are guaranteed. No cycle is broken, tasks report honestly, a
      build is cancelled only when no input of a stored result has another value than the one used
      and will not be found newer, and an engine that has cancelled a build is not used for
      another. */
  ghost predicate Faithful(b: Behaviour, s: State, step: Step) {
    match step
    case DoForceBuild(_) => false
    case DoSupplyPriorValue(_, _) => false
    case DoTaskIsComplete(t, v, _, found) => Honest(b, s.epoch, t, TaskOf(s, t).got, found, v)
    case DoCancel => Open(s) ==> AllRest(s.db)
    case DoStartBuild(_) => !s.cancelled
    case _ => true
  }

  ghost predicate FaithfulRun(c: Client, b: Behaviour, steps: seq<Step>)
    requires Legal(c, steps)
  {
    steps == [] || (FaithfulRun(c, b, Front(steps)) && Faithful(b, Exec(c, Front(steps)), Last(steps)))
  }

  ghost predicate Right(c: Client, b: Behaviour, s: State) {
    Between(c, s) && Val(c, b, s) && (s.cancelled ==> Quiet(s))
  }

  lemma WithinOpen(c: Client, b: Behaviour, s: State, step: Step)
    requires Right(c, b, s) && Enabled(s, step) && WithinBuild(step) && Faithful(b, s, step)
    ensures Good(c, b, s) && s.curScan == [] && s.curInput == []
  {
    hide Inv, Val, Honest;
    Building(c, s, step);
    if step.DoTaskIsComplete? {
      assert Shape(s) by { Unpack(c, s); }
      assert step.task in s.tasks by { var _ := Info(s, step.task); }
    }
  }

  lemma WithinVal(c: Client, b: Behaviour, s: State, step: Step)
    requires Good(c, b, s) && Lawful(c, b) && Enabled(s, step) && WithinBuild(step) && Faithful(b, s, step)
    requires s.curScan == [] && s.curInput == []
    ensures Val(c, b, Apply(c, s, step)) && Open(Apply(c, s, step))
  {
    hide Good, Lawful, Val, Open, Honest, Quiet, ScanOne, InputOne, DeliverOne, ReadyOne, TaskIsComplete, FinishOne, ForceBuild, SupplyPriorValue;
    match step {
      case DoScan => ScanOneVal(c, b, s);
      case DoInput => InputOneVal(c, b, s);
      case DoDeliver => DeliverOneVal(c, b, s);
      case DoReady => ReadyVal(c, b, s);
      case DoTaskIsComplete(t, v, f, found) => ReportVal(c, b, s, t, v, f, found);
      case DoFinish => FinishVal(c, b, s);
    }
  }

  lemma OutsideVal(c: Client, b: Behaviour, s: State, step: Step)
    requires Right(c, b, s) && Monotone(b) && Enabled(s, step) && !WithinBuild(step) && Faithful(b, s, step)
    ensures Val(c, b, Apply(c, s, step)) && (Apply(c, s, step).cancelled ==> Quiet(Apply(c, s, step)))
  {
    hide Inv, Val, Monotone, AllRest;
    match step {
      case DoCancel =>
        CancelVal(c, b, s);
        CancelKeeps(c, s);
      case DoStartBuild(root) => StartBuildVal(c, b, s, root);
      case DoNewEngine => NewEngineVal(c, b, s);
    }
  }

  lemma InitialVal(c: Client, b: Behaviour)
    ensures Val(c, b, INITIAL)
  {
    assert RestDb(c, b, map[]);
    NewEngineMemory(c, b, INITIAL);
    assert NewEngine(INITIAL) == INITIAL;
  }

  lemma {:induction false} RunRight(c: Client, b: Behaviour, steps: seq<Step>)
    requires Legal(c, steps) && Lawful(c, b) && FaithfulRun(c, b, steps)
    ensures Right(c, b, Exec(c, steps))
  {
    hide Inv, Val, Apply, Enabled, Between, Quiet, Good, Faithful, Monotone, Follows, Detects;
    RunInvariant(c, steps);
    if steps == [] {
      InitialVal(c, b);
    } else {
      var s := Exec(c, Front(steps));
      var step := Last(steps);
      RunRight(c, b, Front(steps));
      if WithinBuild(step) {
        WithinOpen(c, b, s, step);
        WithinVal(c, b, s, step);
      } else {
        OutsideVal(c, b, s, step);
      }
    }
  }

  lemma CompleteIsClean(c: Client, b: Behaviour, s: State, k: KeyID)
    requires Right(c, b, s) && CompleteNow(s, k) && !s.cancelled
    ensures Clean(b, s.epoch, k, Info(s, k).result.value)
  {
    hide Inv, Clean, AllClean, UsedHere, AllComplete, Val, Quiet;
    UnpackVal(c, b, s);
  }

  /** Over any sequence of builds, by any number of engines on the same database, with changes in
      between that signatures or validity checks detect: every rule complete in the current epoch
      holds the value that recursive evaluation from scratch gives it in that epoch. */
  lemma IncrementalEqualsClean(c: Client, b: Behaviour, steps: seq<Step>, k: KeyID)
    requires Legal(c, steps) && Lawful(c, b) && FaithfulRun(c, b, steps)
    requires var s := Exec(c, steps); CompleteNow(s, k) && !s.cancelled
    ensures var s := Exec(c, steps); Clean(b, s.epoch, k, Info(s, k).result.value)
  {
    hide *;
    RunRight(c, b, steps);
    CompleteIsClean(c, b, Exec(c, steps), k);
  }

  /** So it does not matter how that state was reached: from scratch or incrementally, whichever
      order the work was done in, and whichever rules check their dependencies before running. */
  lemma HistoryDoesNotMatter(c: Client, steps: seq<Step>, c': Client, steps': seq<Step>, b: Behaviour, k: KeyID)
    requires Legal(c, steps) && Lawful(c, b) && FaithfulRun(c, b, steps)
    requires Legal(c', steps') && Lawful(c', b) && FaithfulRun(c', b, steps')
    requires var s := Exec(c, steps); CompleteNow(s, k) && !s.cancelled
    requires var s' := Exec(c', steps'); CompleteNow(s', k) && !s'.cancelled && s'.epoch == Exec(c, steps).epoch
    ensures Info(Exec(c, steps), k).result.value == Info(Exec(c', steps'), k).result.value
  {
    assert Monotone(b);
    hide *;
    var s, s' := Exec(c, steps), Exec(c', steps');
    IncrementalEqualsClean(c, b, steps, k);
    IncrementalEqualsClean(c', b, steps', k);
    OneClean(b, s.epoch, k, Info(s, k).result.value, Info(s', k).result.value);
  }

  // ---- The database need not be written for rules that did not run --------------------------------------

  /** Two engines would decide alike whether `k` has to run: they find the same before looking at
      its dependencies, have the same dependencies to look at, and find the same ones newer. */
  ghost predicate DecidesAlike(c: Client, epoch: nat, s: State, s': State, k: KeyID) {
    var m, m' := Cleaned(Info(s, k).result), Cleaned(Info(s', k).result);
    && FirstLook(c, epoch, k, m) == FirstLook(c, epoch, k, m')
    && (m.builtAt != 0 ==> m.dependencies == m'.dependencies && m.value == m'.value)
    && (m.builtAt != 0 ==> forall d :: d in m.dependencies && !d.orderOnly ==>
          (m.builtAt < Info(s, d.key).result.computedAt <==> m'.builtAt < Info(s', d.key).result.computedAt))
  }

  lemma SameTime(s: State, d: KeyID)
    requires KnownOk(s) && AgreeOk(s) && !Running(Info(s, d).phase)
    ensures Info(NewEngine(s), d).result.computedAt == Info(s, d).result.computedAt
  {
    hide WithoutSingleUse;
    if d in s.db { assert Agree(Info(s, d).result, s.db[d]); } else { assert Unbuilt(Info(s, d).result); }
  }

  ghost predicate StoredOnce(db: map<KeyID, Result>) {
    forall k :: k in db ==> db[k].builtAt != 0
  }

  lemma AlikeNow(c: Client, epoch: nat, s: State, k: KeyID)
    requires KnownOk(s) && AgreeOk(s) && SkipOk(s) && StoredOnce(s.db) && forall x :: !Running(Info(s, x).phase)
    ensures DecidesAlike(c, epoch, s, NewEngine(s), k)
  {
    var s' := NewEngine(s);
    var m, m' := Cleaned(Info(s, k).result), Cleaned(Info(s', k).result);
    if k in s.db {
      assert Agree(Info(s, k).result, s.db[k]);
      hide AgreeOk, KnownOk, WithoutSingleUse;
      forall d | d in m.dependencies && !d.orderOnly
        ensures m.builtAt < Info(s, d.key).result.computedAt <==> m'.builtAt < Info(s', d.key).result.computedAt
      {
        SameTime(s, d.key);
        assert d in Info(s, k).result.dependencies && Apart(s, k, d) by { CleanedIn(Info(s, k).result, d); }
        assert s.db[k].builtAt <= Info(s, k).result.builtAt by { StoredEarlier(s, k); }
      }
      assert (m.builtAt == 0) == (m'.builtAt == 0) by { StoredEarlier(s, k); }
    } else {
      assert m.builtAt == 0 && m'.builtAt == 0;
    }
  }

  lemma CleanedIn(res: Result, d: Dependency)
    requires d in Cleaned(res).dependencies
    ensures d in res.dependencies
  {
  }

  lemma StoredEarlier(s: State, k: KeyID)
    requires KnownOk(s) && k in s.db
    ensures s.db[k].builtAt <= Info(s, k).result.builtAt && Info(s, k).result.builtAt != 0
  {
  }

  lemma NothingRuns(c: Client, s: State)
    requires Between(c, s) && Quiet(s)
    ensures forall x :: !Running(Info(s, x).phase)
  {
    assert Shape(s) by { Unpack(c, s); }
    hide Inv;
  }

  /** After any sequence of builds, an engine that reloads the database decides as the running
      engine would, although the database was not written for rules that did not have to run. */
  lemma ReloadDecidesAlike(c: Client, b: Behaviour, steps: seq<Step>, epoch: nat, k: KeyID)
    requires Legal(c, steps) && Lawful(c, b) && FaithfulRun(c, b, steps)
    requires var s := Exec(c, steps); Quiet(s) && !s.cancelled
    ensures DecidesAlike(c, epoch, Exec(c, steps), NewEngine(Exec(c, steps)), k)
  {
    hide *;
    var s := Exec(c, steps);
    RunRight(c, b, steps);
    RightParts(c, b, s);
    NothingRuns(c, s);
    AlikeNow(c, epoch, s, k);
  }

  lemma RightParts(c: Client, b: Behaviour, s: State)
    requires Right(c, b, s) && !s.cancelled
    ensures Between(c, s) && KnownOk(s) && AgreeOk(s) && SkipOk(s) && StoredOnce(s.db)
  {
    hide Between, Val, Quiet, KnownOk, AgreeOk, SkipOk, Computes, AllRecorded, InputsOk;
    UnpackVal(c, b, s);
  }
}
