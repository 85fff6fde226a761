/** Why the value of every complete rule is the value a build from scratch would give: what the
    engine keeps true of its results, in memory and in the database. */
module EngineValues {
  import opened Options
  import opened EngineState
  import opened EngineSteps
  import opened EngineInvariant
  import opened CleanBuild

  // ---- Results -------------------------------------------------------------------------------

  /** `k` is recorded as an input whose value matters, and will be remembered. */
  ghost predicate ValueDep(ds: seq<Dependency>, k: KeyID) {
    exists d :: d in ds && d.key == k && !d.orderOnly && !d.singleUse
  }

  ghost predicate AllRecorded(ds: seq<Dependency>, used: seq<Delivery>) {
    forall u :: u in used ==> ValueDep(ds, u.key)
  }

  /** A stored result is what the last run of its rule computed, from inputs it records. */
  ghost predicate Sound(c: Client, b: Behaviour, k: KeyID, res: Result) {
    && res.builtAt != 0 && res.ranAt <= res.builtAt
    && Computes(b, res.ranAt, k, res.used, res.value) && res.signature == c.signature(res.ranAt, k)
    && AllRecorded(res.dependencies, res.used)
  }

  /** A build is going on that has not been cancelled. */
  predicate Open(s: State) {
    s.building && !s.cancelled
  }

  /** An input of a stored result: for a rule that ran in this build, its value is clean. For any
      other, if it has not been computed since the rule was built then it has not changed. */
  ghost predicate InputOk(b: Behaviour, s: State, res: Result, u: Delivery) {
    if Open(s) && res.builtAt == s.epoch then Clean(b, s.epoch, u.key, u.value)
    else u.key in s.db && (s.db[u.key].computedAt <= res.builtAt ==> s.db[u.key].value == u.value)
  }

  ghost predicate InputsOk(b: Behaviour, s: State, res: Result) {
    forall u :: u in res.used ==> InputOk(b, s, res, u)
  }

  ghost predicate DbOk(c: Client, b: Behaviour, s: State) {
    forall k :: k in s.db ==> Sound(c, b, k, s.db[k]) && InputsOk(b, s, s.db[k])
  }

  // ---- Memory and database -------------------------------------------------------------------

  predicate Running(p: Phase) { p.InProgressWaiting? || p.InProgressComputing? }

  /** In memory a rule may have been checked more recently than it was stored, and have lost its
      single-use dependencies; otherwise a result that is not being computed is as stored. */
  ghost predicate Agree(m: Result, d: Result) {
    && m.value == d.value && m.signature == d.signature && m.computedAt == d.computedAt
    && m.used == d.used && m.ranAt == d.ranAt && Cleaned(m).dependencies == Cleaned(d).dependencies
  }

  /** As far as anyone can tell, the result of a rule that has never been built. */
  ghost predicate Unbuilt(res: Result) {
    Cleaned(res) == NO_RESULT
  }

  ghost predicate KnownOk(s: State) {
    && (forall k :: k in s.db <==> Info(s, k).result.builtAt != 0)
    && (forall k :: k in s.db ==> s.db[k].builtAt <= Info(s, k).result.builtAt)
    && (forall k :: k !in s.db && !Running(Info(s, k).phase) ==> Unbuilt(Info(s, k).result))
    && (s.building ==> s.epoch > 0) && (!s.building ==> s.rules == map[])
    && (Open(s) ==> s.tidy && !s.broken)
  }

  ghost predicate AgreeOk(s: State) {
    forall k :: k in s.db && !Running(Info(s, k).phase) ==> Agree(Info(s, k).result, s.db[k])
  }

  /** Even while a rule runs, its value and `computedAt` are as stored or it was computed now. */
  ghost predicate StampOk(s: State) {
    forall k :: k in s.db ==>
      || Info(s, k).result.computedAt == s.epoch
      || (Info(s, k).result.value == s.db[k].value && Info(s, k).result.computedAt == s.db[k].computedAt)
  }

  /** An input was computed before the rule was last stored, or after it was last built. */
  ghost predicate Apart(s: State, k: KeyID, d: Dependency)
    requires k in s.db
  {
    d.orderOnly || Info(s, d.key).result.computedAt <= s.db[k].builtAt
    || Info(s, k).result.builtAt < Info(s, d.key).result.computedAt
  }

  ghost predicate SkipOk(s: State) {
    forall k :: k in s.db && !Running(Info(s, k).phase) ==> forall d :: d in Info(s, k).result.dependencies ==> Apart(s, k, d)
  }

  // ---- This build ------------------------------------------------------------------------------

  ghost predicate AllComplete(s: State, ds: seq<Dependency>) {
    forall d :: d in ds ==> CompleteNow(s, d.key)
  }

  /** The inputs a complete rule used are complete, or the build still owes them. */
  ghost predicate UsedHere(s: State, used: seq<Delivery>) {
    forall u :: u in used ==> CompleteNow(s, u.key) || u.key in s.owed
  }

  ghost predicate DoneOk(b: Behaviour, s: State) {
    forall k :: Info(s, k).phase.Complete? && Info(s, k).result.builtAt == s.epoch ==>
      && k in s.db && Clean(b, s.epoch, k, Info(s, k).result.value)
      && AllClean(b, s.epoch, Info(s, k).result.used) && UsedHere(s, Info(s, k).result.used)
      && (s.db[k].builtAt == s.epoch || AllComplete(s, Info(s, k).result.dependencies))
  }

  /** What a task has received is clean, wanted in the order received, and recorded; and what it
      has asked for it wants. */
  ghost predicate TaskVal(b: Behaviour, s: State, t: KeyID)
    requires t in s.tasks
  {
    var task := s.tasks[t];
    && WantedInOrder(b, s.epoch, t, task.got) && AllClean(b, s.epoch, task.got)
    && (forall u :: u in task.got ==> CompleteNow(s, u.key))
    && Wanted(b, s.epoch, t, MapOf(task.got), task.asked)
    && AllRecorded(Info(s, t).result.dependencies, task.got)
  }

  ghost predicate TasksVal(b: Behaviour, s: State) {
    forall t :: t in s.tasks ==> TaskVal(b, s, t)
  }

  /** A task that has reported has run on clean inputs. */
  ghost predicate RanNow(c: Client, b: Behaviour, s: State, t: KeyID)
    requires t in s.tasks
  {
    var res := Info(s, t).result;
    && res.ranAt == s.epoch && Computes(b, s.epoch, t, res.used, res.value) && res.signature == c.signature(s.epoch, t)
    && AllClean(b, s.epoch, res.used)
    && AllRecorded(res.dependencies + s.tasks[t].discovered, res.used)
    && (forall u :: u in res.used ==> CompleteNow(s, u.key) || u.key in KeysOf(s.tasks[t].discovered))
  }

  ghost predicate ReportsOk(c: Client, b: Behaviour, s: State) {
    forall t :: t in s.finishedTaskInfos ==> t in s.tasks && RanNow(c, b, s, t)
  }

  ghost predicate MemoryOk(c: Client, b: Behaviour, s: State) {
    KnownOk(s) && AgreeOk(s) && StampOk(s) && SkipOk(s) && DoneOk(b, s) && TasksVal(b, s) && ReportsOk(c, b, s)
  }

  /** The database is always good; memory is, until a build is cancelled. */
  ghost predicate Val(c: Client, b: Behaviour, s: State) {
    DbOk(c, b, s) && (!s.cancelled ==> MemoryOk(c, b, s))
  }

  lemma UnpackVal(c: Client, b: Behaviour, s: State)
    requires Val(c, b, s) && !s.cancelled
    ensures DbOk(c, b, s) && KnownOk(s) && AgreeOk(s) && StampOk(s) && SkipOk(s) && DoneOk(b, s) && TasksVal(b, s) && ReportsOk(c, b, s)
  {
    hide DbOk, KnownOk, AgreeOk, StampOk, SkipOk, DoneOk, TasksVal, ReportsOk;
  }

  lemma PackVal(c: Client, b: Behaviour, s: State)
    requires DbOk(c, b, s) && KnownOk(s) && AgreeOk(s) && StampOk(s) && SkipOk(s) && DoneOk(b, s) && TasksVal(b, s) && ReportsOk(c, b, s)
    ensures Val(c, b, s)
  {
    hide DbOk, KnownOk, AgreeOk, StampOk, SkipOk, DoneOk, TasksVal, ReportsOk;
  }

  // ---- Steps that compute nothing -----------------------------------------------------------------

  /** Dependencies are as they were, or have lost the single-use ones. */
  predicate Kept(ds: seq<Dependency>, ds': seq<Dependency>) {
    ds' == ds || ds' == WithoutSingleUse(ds)
  }

  ghost predicate SameRecord(s: State, s': State) {
    && s'.epoch == s.epoch && s'.db == s.db && s'.cancelled == s.cancelled && s'.building == s.building
    && s'.owed == s.owed && s'.finishedTaskInfos == s.finishedTaskInfos && s'.tidy == s.tidy && s'.broken == s.broken
  }

  /** Rules move from phase to phase, and the dependencies of running ones change, but no value,
      no signature and no time does; nothing starts or stops being complete. */
  ghost predicate Gentle(s: State, s': State) {
    && SameRecord(s, s')
    && (forall x :: Info(s', x).result == Info(s, x).result.(dependencies := Info(s', x).result.dependencies))
    && (forall x :: !Running(Info(s', x).phase) ==>
          !Running(Info(s, x).phase) && Kept(Info(s, x).result.dependencies, Info(s', x).result.dependencies))
    && (forall x :: CompleteNow(s', x) <==> CompleteNow(s, x))
    && (forall x :: CompleteNow(s, x) ==> Info(s', x) == Info(s, x))
  }

  /** What is kept is kept in order and as often as it was there: the single-use dependencies are taken out
      and nothing else is done. */
  lemma {:induction false} CleanedInOrder(a: seq<Dependency>, b: seq<Dependency>, d: Dependency)
    ensures WithoutSingleUse(a + b) == WithoutSingleUse(a) + WithoutSingleUse(b)
    ensures WithoutSingleUse([d]) == if d.singleUse then [] else [d]
    decreases |b|
  {
    assert [d][..0] == [];
    if b == [] {
      assert a + b == a;
    } else {
      assert (a + b)[..|a + b| - 1] == a + b[..|b| - 1];
      CleanedInOrder(a, b[..|b| - 1], d);
    }
  }

  lemma {:induction false} CleanedTwice(ds: seq<Dependency>)
    ensures WithoutSingleUse(WithoutSingleUse(ds)) == WithoutSingleUse(ds)
  {
    if ds != [] {
      CleanedTwice(ds[..|ds| - 1]);
      var r := WithoutSingleUse(ds[..|ds| - 1]);
      var d := ds[|ds| - 1];
      if !d.singleUse { assert (r + [d])[..|r + [d]| - 1] == r; }
    }
  }

  lemma KeptCleaned(ds: seq<Dependency>, ds': seq<Dependency>)
    requires Kept(ds, ds')
    ensures WithoutSingleUse(ds') == WithoutSingleUse(ds) && forall d :: d in ds' ==> d in ds
  {
    CleanedTwice(ds);
  }

  lemma GentleDb(c: Client, b: Behaviour, s: State, s': State)
    requires DbOk(c, b, s) && KnownOk(s) && Gentle(s, s')
    ensures DbOk(c, b, s')
  {
    hide Sound, Clean;
    forall k | k in s'.db ensures InputsOk(b, s', s'.db[k]) { assert InputsOk(b, s, s.db[k]); }
  }

  lemma GentleKnown(s: State, s': State)
    requires KnownOk(s) && Gentle(s, s') && (!s.building ==> s'.rules == map[])
    ensures KnownOk(s')
  {
    hide Kept, WithoutSingleUse;
    forall k | k !in s'.db && !Running(Info(s', k).phase) ensures Unbuilt(Info(s', k).result) {
      assert Unbuilt(Info(s, k).result);
      KeptCleaned(Info(s, k).result.dependencies, Info(s', k).result.dependencies);
    }
  }

  lemma GentleAgree(s: State, s': State)
    requires AgreeOk(s) && Gentle(s, s')
    ensures AgreeOk(s')
  {
    hide Kept;
    forall k | k in s'.db && !Running(Info(s', k).phase) ensures Agree(Info(s', k).result, s'.db[k]) {
      assert Agree(Info(s, k).result, s.db[k]);
      KeptCleaned(Info(s, k).result.dependencies, Info(s', k).result.dependencies);
    }
  }

  lemma GentleStamp(s: State, s': State)
    requires StampOk(s) && Gentle(s, s')
    ensures StampOk(s')
  {
    hide Kept;
  }

  lemma GentleSkip(s: State, s': State)
    requires SkipOk(s) && Gentle(s, s')
    ensures SkipOk(s')
  {
    hide Kept;
    forall k, d | k in s'.db && !Running(Info(s', k).phase) && d in Info(s', k).result.dependencies ensures Apart(s', k, d) {
      KeptCleaned(Info(s, k).result.dependencies, Info(s', k).result.dependencies);
      assert Apart(s, k, d);
      assert Info(s', d.key).result.computedAt == Info(s, d.key).result.computedAt;
    }
  }

  lemma GentleDone(b: Behaviour, s: State, s': State)
    requires DoneOk(b, s) && Gentle(s, s')
    ensures DoneOk(b, s')
  {
    hide Kept, Clean, AllClean;
    forall k | CompleteNow(s', k)
      ensures UsedHere(s', Info(s', k).result.used)
      ensures AllComplete(s, Info(s, k).result.dependencies) ==> AllComplete(s', Info(s', k).result.dependencies)
    {
      assert CompleteNow(s, k) && UsedHere(s, Info(s, k).result.used);
    }
  }

  /** Tasks that have reported are left alone. */
  ghost predicate SameReports(s: State, s': State) {
    forall t :: t in s.finishedTaskInfos && t in s.tasks ==> t in s'.tasks && s'.tasks[t] == s.tasks[t] && Info(s', t) == Info(s, t)
  }

  lemma GentleReports(c: Client, b: Behaviour, s: State, s': State)
    requires ReportsOk(c, b, s) && Gentle(s, s') && SameReports(s, s')
    ensures ReportsOk(c, b, s')
  {
    hide Kept, Computes, AllClean, AllRecorded;
    forall t | t in s'.finishedTaskInfos ensures t in s'.tasks && RanNow(c, b, s', t) {
      assert RanNow(c, b, s, t);
    }
  }

  /** A gentle step that does right by its tasks keeps everything. */
  lemma GentleKeeps(c: Client, b: Behaviour, s: State, s': State)
    requires Val(c, b, s) && !s.cancelled && s.building && Gentle(s, s') && SameReports(s, s') && TasksVal(b, s')
    ensures Val(c, b, s')
  {
    hide *;
    UnpackVal(c, b, s);
    GentleDb(c, b, s, s');
    GentleKnown(s, s');
    GentleAgree(s, s');
    GentleStamp(s, s');
    GentleSkip(s, s');
    GentleDone(b, s, s');
    GentleReports(c, b, s, s');
    PackVal(c, b, s');
  }
}
