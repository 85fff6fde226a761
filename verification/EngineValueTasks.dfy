/** Answering, running and finishing tasks keeps the results right. */
module EngineValueTasks {
  import opened Options
  import opened EngineState
  import opened EngineSteps
  import opened EngineCounts
  import opened EngineInvariant
  import opened EngineFrames
  import opened EngineScanning
  import opened EngineInputs
  import opened EngineDelivery
  import opened EngineCompletion
  import opened EngineRuns
  import opened CleanBuild
  import opened EngineValues
  import opened EngineValueSteps

  // ---- Answers -----------------------------------------------------------------------------------

  lemma DeliverGentle(s: State, r: InputRequest, t: KeyID, got: seq<Delivery>, asks: seq<Dependency>)
    requires CanDeliver(s, r, t) && QueuesOk(s)
    ensures var s' := Deliver(s, r, t, got, asks); Gentle(s, s') && SameReports(s, s') && Open(s') == Open(s)
  {
    hide Requests, PushIf, Asking, Answerable, NoDuplicates, ComputingSet;
    var s' := Deliver(s, r, t, got, asks);
    forall x ensures Info(s', x) == Info(s, x) {}
  }

  lemma DeliverTasksVal(b: Behaviour, s: State, r: InputRequest, t: KeyID, got: seq<Delivery>, asks: seq<Dependency>)
    requires CanDeliver(s, r, t) && TasksVal(b, s)
    requires var s' := Deliver(s, r, t, got, asks); t in s'.tasks && TaskVal(b, s', t)
    ensures TasksVal(b, Deliver(s, r, t, got, asks))
  {
    hide TaskVal, Deliver, Requests, Answerable, Answered;
    var s' := Deliver(s, r, t, got, asks);
    DeliverSame(s, r, t, got, asks);
    forall x | x in s'.tasks ensures TaskVal(b, s', x) {
      if x != t { OtherTask(b, s, s', t, x); }
    }
  }

  lemma DeliverVal(c: Client, b: Behaviour, s: State, r: InputRequest, t: KeyID)
    requires Good(c, b, s) && Lawful(c, b) && CanDeliver(s, r, t) && CompleteNow(s, r.input)
    ensures var s' := Deliver(s, r, t, GotAfter(s, r, t), AsksAfter(c, s, r, t)); Val(c, b, s') && Open(s')
  {
    var got := GotAfter(s, r, t);
    var asks := AsksAfter(c, s, r, t);
    var s' := Deliver(s, r, t, got, asks);
    hide Deliver, Inv, Val, TasksVal, TaskVal, Gentle, SameReports, Monotone, Detects, Wanted, MapOf, DoneOk, CountsOk, TasksOk, QueuesOk, Answerable, CompleteNow;
    UnpackGood(c, b, s);
    Unpack(c, s);
    assert TaskVal(b, s, t) by { TaskOfVal(b, s, t); }
    if r.orderOnly {
      FollowedVal(b, s, r, t);
    } else {
      assert Wanted(b, s.epoch, t, MapOf(got), asks);
      AnsweredVal(b, s, r, t, asks);
    }
    DeliverTasksVal(b, s, r, t, got, asks);
    DeliverGentle(s, r, t, got, asks);
    GentleKeeps(c, b, s, s');
  }

  lemma TaskOfVal(b: Behaviour, s: State, t: KeyID)
    requires TasksVal(b, s) && t in s.tasks
    ensures TaskVal(b, s, t)
  {
  }

  lemma Unbroken(c: Client, b: Behaviour, s: State)
    requires Good(c, b, s)
    ensures !s.broken && s.tidy && s.epoch > 0
  {
    UnpackGood(c, b, s);
  }

  lemma AnswerComplete(s: State, r: InputRequest, t: KeyID)
    requires CanDeliver(s, r, t) && !s.broken
    ensures CompleteNow(s, r.input)
  {
  }

  lemma DeliverOneVal(c: Client, b: Behaviour, s: State)
    requires Good(c, b, s) && Lawful(c, b) && s.finishedInputRequests != []
    ensures Val(c, b, DeliverOne(c, s)) && Open(DeliverOne(c, s))
  {
    hide Good, Lawful, Val, Deliver, CanDeliver, GotAfter, AsksAfter, CompleteNow, Open, Inv;
    assert Inv(c, s) by { UnpackGood(c, b, s); }
    CanDeliverNow(c, s);
    var r := Last(s.finishedInputRequests);
    Unbroken(c, b, s);
    AnswerComplete(s, r, r.task.value);
    DeliverVal(c, b, s, r, r.task.value);
  }

  // ---- Ready ---------------------------------------------------------------------------------------

  lemma ReadyGentle(s: State, t: KeyID)
    requires CanRun(s, t) && QueuesOk(s) && s.building
    ensures var s' := ReadyOne(s); Gentle(s, s') && SameReports(s, s') && Open(s') == Open(s)
  {
    hide Gentle, NoDuplicates, ComputingSet;
    ReadySame(s, t);
    OneGentle(s, ReadyOne(s), t);
  }

  lemma ReadyTasksVal(b: Behaviour, s: State, t: KeyID)
    requires CanRun(s, t) && TasksVal(b, s)
    ensures TasksVal(b, ReadyOne(s))
  {
    hide ReadyOne, WantedInOrder, AllClean, Wanted, AllRecorded;
    var s' := ReadyOne(s);
    ReadySame(s, t);
    forall x | x in s'.tasks ensures TaskVal(b, s', x) { assert TaskVal(b, s, x); }
  }

  lemma ReadyVal(c: Client, b: Behaviour, s: State)
    requires Good(c, b, s) && s.readyTaskInfos != []
    ensures Val(c, b, ReadyOne(s)) && Open(ReadyOne(s))
  {
    hide Inv, Val, ReadyOne, CanRun, Gentle, SameReports, TasksVal, QueuesOk;
    UnpackGood(c, b, s);
    Unpack(c, s);
    CanRunNow(c, s);
    var t := s.readyTaskInfos[0];
    ReadyTasksVal(b, s, t);
    ReadyGentle(s, t);
    GentleKeeps(c, b, s, ReadyOne(s));
  }

  // ---- Reports ---------------------------------------------------------------------------------------

  /** What a task promises when it reports `value`: it has received or read all it wants, what it
      read by itself it wanted and was in place, and `value` is what its rule computes from that. */
  ghost predicate Honest(b: Behaviour, e: nat, t: KeyID, got: seq<Delivery>, found: seq<Delivery>, value: Value) {
    && (forall i :: 0 <= i < |found| ==> found[i].key in b.wants(e, t, MapOf(got + found[..i])))
    && Closed(b, e, t, got + found) && value == b.out(e, t, MapOf(got + found)) && AllClean(b, e, found)
  }

  lemma HonestComputes(b: Behaviour, e: nat, t: KeyID, got: seq<Delivery>, found: seq<Delivery>, value: Value)
    requires WantedInOrder(b, e, t, got) && Honest(b, e, t, got, found, value)
    ensures Computes(b, e, t, got + found, value)
  {
    hide Closed, AllClean, MapOf;
    var all := got + found;
    forall i | 0 <= i < |all| ensures all[i].key in b.wants(e, t, MapOf(all[..i])) {
      if i < |got| { assert all[..i] == got[..i]; } else { assert all[..i] == got + found[..i - |got|]; }
    }
  }

  lemma FoundRecorded(ds: seq<Dependency>, got: seq<Delivery>, found: seq<Delivery>)
    requires AllRecorded(ds, got)
    ensures AllRecorded(ds + Discovered(found), got + found)
    ensures forall u :: u in found ==> u.key in KeysOf(Discovered(found))
  {
    forall u | u in got + found ensures ValueDep(ds + Discovered(found), u.key) {
      if u in got {
        var x :| x in ds && x.key == u.key && !x.orderOnly && !x.singleUse;
        assert x in ds + Discovered(found);
      } else {
        var i :| 0 <= i < |found| && found[i] == u;
        assert (ds + Discovered(found))[|ds| + i] == Dependency(u.key, false, false);
      }
    }
    forall u | u in found ensures u.key in KeysOf(Discovered(found)) {
      var i :| 0 <= i < |found| && found[i] == u;
      assert Discovered(found)[i].key == u.key;
    }
  }

  /** The new state, in the terms that matter here. */
  lemma ReportIs(c: Client, s: State, t: KeyID, value: Value, force: bool, found: seq<Delivery>)
    requires CanReport(s, t)
    ensures var s' := TaskIsComplete(c, s, t, value, force, found); var res := Info(s', t).result;
      && res.used == s.tasks[t].got + found && res.ranAt == s.epoch && res.value == value
      && res.signature == c.signature(s.epoch, t)
      && (res.computedAt == s.epoch || (res.computedAt == Info(s, t).result.computedAt && res.value == Info(s, t).result.value))
      && s'.tasks[t].discovered == Discovered(found) && s'.cancelled == s.cancelled
  {
    hide Discovered;
  }

  ghost predicate CleanReport(c: Client, b: Behaviour, s: State, s': State, t: KeyID, found: seq<Delivery>) {
    && CanReport(s, t) && Reported(s, s', t) && s'.cancelled == s.cancelled
    && Info(s', t).result.used == s.tasks[t].got + found && Info(s', t).result.ranAt == s.epoch
    && Info(s', t).result.signature == c.signature(s.epoch, t)
    && (Info(s', t).result.computedAt == s.epoch ||
         (Info(s', t).result.computedAt == Info(s, t).result.computedAt && Info(s', t).result.value == Info(s, t).result.value))
    && s'.tasks[t].discovered == Discovered(found)
    && Honest(b, s.epoch, t, s.tasks[t].got, found, Info(s', t).result.value)
  }

  lemma ReportRan(c: Client, b: Behaviour, s: State, s': State, t: KeyID, found: seq<Delivery>)
    requires CleanReport(c, b, s, s', t, found) && TaskVal(b, s, t)
    ensures t in s'.tasks && RanNow(c, b, s', t)
  {
    hide WantedInOrder, Closed, Wanted, Clean, Discovered, KeysOf, AllRecorded, MapOf, Computes;
    HonestComputes(b, s.epoch, t, s.tasks[t].got, found, Info(s', t).result.value);
    FoundRecorded(Info(s, t).result.dependencies, s.tasks[t].got, found);
  }

  lemma ReportDb(c: Client, b: Behaviour, s: State, s': State, t: KeyID, found: seq<Delivery>)
    requires CleanReport(c, b, s, s', t, found) && DbOk(c, b, s)
    ensures DbOk(c, b, s')
  {
    hide Sound, Clean, Honest, Discovered;
    forall x | x in s'.db ensures InputsOk(b, s', s'.db[x]) { assert InputsOk(b, s, s.db[x]); }
  }

  lemma ReportMemory(c: Client, b: Behaviour, s: State, s': State, t: KeyID, found: seq<Delivery>)
    requires CleanReport(c, b, s, s', t, found) && KnownOk(s) && AgreeOk(s) && StampOk(s) && s.building
    ensures KnownOk(s') && AgreeOk(s') && StampOk(s')
  {
    hide Honest, Discovered, WithoutSingleUse, Agree;
  }

  lemma ReportApart(c: Client, b: Behaviour, s: State, s': State, t: KeyID, found: seq<Delivery>, k: KeyID, d: Dependency)
    requires CleanReport(c, b, s, s', t, found) && SkipOk(s) && DoneOk(b, s) && TimesOk(s) && s.building
    requires k in s.db && !Running(Info(s', k).phase) && d in Info(s', k).result.dependencies
    ensures Apart(s', k, d)
  {
    hide Honest, Discovered, Clean, AllClean, UsedHere;
    assert Info(s', k) == Info(s, k) && Apart(s, k, d);
    if d.key == t {
      if CompleteNow(s, k) {
        assert s.db[k].builtAt == s.epoch || AllComplete(s, Info(s, k).result.dependencies);
      } else {
        assert Info(s, k).result.builtAt < s.epoch;
      }
    }
  }

  lemma ReportSkip(c: Client, b: Behaviour, s: State, s': State, t: KeyID, found: seq<Delivery>)
    requires CleanReport(c, b, s, s', t, found) && SkipOk(s) && DoneOk(b, s) && TimesOk(s) && s.building
    ensures SkipOk(s')
  {
    hide Apart, DoneOk, TimesOk;
    assert s'.db == s.db;
    hide CleanReport;
    forall k, d | k in s'.db && !Running(Info(s', k).phase) && d in Info(s', k).result.dependencies ensures Apart(s', k, d) {
      ReportApart(c, b, s, s', t, found, k, d);
    }
  }

  lemma ReportDone(c: Client, b: Behaviour, s: State, s': State, t: KeyID, found: seq<Delivery>)
    requires CleanReport(c, b, s, s', t, found) && DoneOk(b, s)
    ensures DoneOk(b, s')
  {
    hide Honest, Discovered, Clean, AllClean;
    forall k ensures CompleteNow(s', k) <==> CompleteNow(s, k) {}
    forall k | CompleteNow(s', k)
      ensures UsedHere(s', Info(s', k).result.used)
      ensures AllComplete(s, Info(s, k).result.dependencies) ==> AllComplete(s', Info(s', k).result.dependencies)
    {
      assert CompleteNow(s, k) && UsedHere(s, Info(s, k).result.used);
    }
  }

  lemma ReportTasksVal(c: Client, b: Behaviour, s: State, s': State, t: KeyID, found: seq<Delivery>)
    requires CleanReport(c, b, s, s', t, found) && TasksVal(b, s)
    ensures TasksVal(b, s')
  {
    hide Honest, Discovered, WantedInOrder, AllClean, Wanted, AllRecorded;
    forall x | x in s'.tasks ensures TaskVal(b, s', x) { assert TaskVal(b, s, x); }
  }

  lemma ReportReports(c: Client, b: Behaviour, s: State, s': State, t: KeyID, found: seq<Delivery>)
    requires CleanReport(c, b, s, s', t, found) && ReportsOk(c, b, s) && TasksVal(b, s)
    ensures ReportsOk(c, b, s')
  {
    hide Honest, Discovered, Computes, AllClean, AllRecorded, TaskVal;
    assert TaskVal(b, s, t);
    ReportRan(c, b, s, s', t, found);
    forall x | x in s'.finishedTaskInfos ensures x in s'.tasks && RanNow(c, b, s', x) {
      if x != t { assert RanNow(c, b, s, x); }
    }
  }

  lemma CleanReportVal(c: Client, b: Behaviour, s: State, s': State, t: KeyID, found: seq<Delivery>)
    requires Good(c, b, s) && CleanReport(c, b, s, s', t, found)
    ensures Val(c, b, s')
  {
    hide *;
    UnpackGood(c, b, s);
    Unpack(c, s);
    ReportDb(c, b, s, s', t, found);
    ReportMemory(c, b, s, s', t, found);
    ReportSkip(c, b, s, s', t, found);
    ReportDone(c, b, s, s', t, found);
    ReportTasksVal(c, b, s, s', t, found);
    ReportReports(c, b, s, s', t, found);
    PackVal(c, b, s');
  }

  lemma ReportVal(c: Client, b: Behaviour, s: State, t: KeyID, value: Value, force: bool, found: seq<Delivery>)
    requires Good(c, b, s) && Computing(s, t) && t !in s.finishedTaskInfos
    requires Honest(b, s.epoch, t, TaskOf(s, t).got, found, value)
    ensures var s' := TaskIsComplete(c, s, t, value, force, found); Val(c, b, s') && Open(s')
  {
    hide Val, TaskIsComplete, Inv, Honest, Discovered;
    assert Inv(c, s) by { UnpackGood(c, b, s); }
    CanReportNow(c, s, t);
    ReportSame(c, s, t, value, force, found);
    ReportIs(c, s, t, value, force, found);
    CleanReportVal(c, b, s, TaskIsComplete(c, s, t, value, force, found), t, found);
  }

  // ---- Finishing ---------------------------------------------------------------------------------------

  /** The result with which a task ends. */
  function Final(s: State, t: KeyID): Result {
    Info(s, t).result.(builtAt := s.epoch, dependencies := Info(s, t).result.dependencies + TaskOf(s, t).discovered)
  }

  ghost predicate Ends(s: State, s': State, t: KeyID) {
    && t in s.tasks && Computing(s, t) && t in s.finishedTaskInfos
    && Info(s', t).phase.Complete? && Info(s', t).result == Final(s, t)
    && (forall x :: x != t ==> Info(s', x) == Info(s, x))
    && s'.db == s.db[t := Final(s, t)] && s'.tasks == s.tasks - {t}
    && (forall x :: x in s'.finishedTaskInfos ==> x in s.finishedTaskInfos && x != t)
    && s'.owed == s.owed + KeysOf(s.tasks[t].discovered)
    && s'.epoch == s.epoch && s'.cancelled == s.cancelled && s'.building == s.building && s'.tidy == s.tidy && s'.broken == s.broken
  }

  lemma FinishEnds(s: State, t: KeyID)
    requires CanFinishTask(s, t) && QueuesOk(s)
    ensures Ends(s, FinishOne(s), t)
  {
    hide Dummies, KeysOf, NoDuplicates, ComputingSet;
    assert s.finishedTaskInfos == Front(s.finishedTaskInfos) + [t];
    NoDuplicatesFront(s.finishedTaskInfos, t, Front(s.finishedTaskInfos));
  }

  lemma EndsComplete(s: State, s': State, t: KeyID)
    requires Ends(s, s', t)
    ensures CompleteNow(s', t) && !CompleteNow(s, t)
    ensures forall x :: CompleteNow(s, x) ==> CompleteNow(s', x)
    ensures forall x :: x != t ==> (CompleteNow(s', x) <==> CompleteNow(s, x))
  {
    hide KeysOf;
  }

  lemma EndsSound(c: Client, b: Behaviour, s: State, s': State, t: KeyID)
    requires Ends(s, s', t) && RanNow(c, b, s, t) && s.epoch > 0
    ensures Sound(c, b, t, s'.db[t]) && AllClean(b, s.epoch, s'.db[t].used)
    ensures UsedHere(s', s'.db[t].used) && Clean(b, s.epoch, t, s'.db[t].value)
  {
    hide KeysOf, Computes, Clean, AllRecorded;
    EndsComplete(s, s', t);
    CleanFrom(b, s.epoch, t, Final(s, t).used, Final(s, t).value);
  }

  lemma EndsInput(b: Behaviour, s: State, s': State, t: KeyID, res: Result, u: Delivery)
    requires Ends(s, s', t) && StampOk(s) && Open(s) && InputOk(b, s, res, u) && res.builtAt <= s.epoch
    ensures InputOk(b, s', res, u)
  {
    hide KeysOf, Clean;
    if u.key == t && res.builtAt != s.epoch { var _ := Info(s, t); }
  }

  lemma EndsDb(c: Client, b: Behaviour, s: State, s': State, t: KeyID)
    requires Ends(s, s', t) && DbOk(c, b, s) && StampOk(s) && Open(s) && TimesOk(s) && RanNow(c, b, s, t) && s.epoch > 0
    ensures DbOk(c, b, s')
  {
    EndsSound(c, b, s, s', t);
    hide KeysOf, Sound, Clean, RanNow, StampOk;
    forall k | k in s'.db ensures Sound(c, b, k, s'.db[k]) && InputsOk(b, s', s'.db[k]) {
      if k != t {
        assert Sound(c, b, k, s.db[k]) && InputsOk(b, s, s.db[k]);
        forall u | u in s'.db[k].used ensures InputOk(b, s', s'.db[k], u) { EndsInput(b, s, s', t, s.db[k], u); }
      }
    }
  }

  lemma EndsMemory(s: State, s': State, t: KeyID)
    requires Ends(s, s', t) && KnownOk(s) && AgreeOk(s) && StampOk(s) && Open(s)
    ensures KnownOk(s') && AgreeOk(s') && StampOk(s')
  {
    hide KeysOf, WithoutSingleUse;
    var _ := Info(s', t);
    forall k | k in s'.db && !Running(Info(s', k).phase) ensures Agree(Info(s', k).result, s'.db[k]) {
      if k != t { assert Agree(Info(s, k).result, s.db[k]); }
    }
  }

  lemma EndsSkip(s: State, s': State, t: KeyID)
    requires Ends(s, s', t) && SkipOk(s)
    ensures SkipOk(s')
  {
    hide KeysOf;
    forall k, d | k in s'.db && !Running(Info(s', k).phase) && d in Info(s', k).result.dependencies ensures Apart(s', k, d) {
      var _ := Info(s, d.key);
      if k != t { assert Apart(s, k, d); }
    }
  }

  lemma EndsDone(c: Client, b: Behaviour, s: State, s': State, t: KeyID)
    requires Ends(s, s', t) && DoneOk(b, s) && RanNow(c, b, s, t) && s.epoch > 0
    ensures DoneOk(b, s')
  {
    EndsSound(c, b, s, s', t);
    EndsComplete(s, s', t);
    hide KeysOf, Sound, Clean, AllClean, RanNow;
    forall k | CompleteNow(s', k) && k != t
      ensures k in s'.db && Clean(b, s'.epoch, k, Info(s', k).result.value)
      ensures AllClean(b, s'.epoch, Info(s', k).result.used) && UsedHere(s', Info(s', k).result.used)
      ensures s'.db[k].builtAt == s'.epoch || AllComplete(s', Info(s', k).result.dependencies)
    {
      assert CompleteNow(s, k) && UsedHere(s, Info(s, k).result.used);
    }
  }

  lemma EndsTasks(c: Client, b: Behaviour, s: State, s': State, t: KeyID)
    requires Ends(s, s', t) && TasksVal(b, s) && ReportsOk(c, b, s)
    ensures TasksVal(b, s') && ReportsOk(c, b, s')
  {
    hide KeysOf, WantedInOrder, AllClean, Wanted, AllRecorded, Computes;
    EndsComplete(s, s', t);
    forall x | x in s'.tasks ensures TaskVal(b, s', x) { assert TaskVal(b, s, x); }
    forall x | x in s'.finishedTaskInfos ensures x in s'.tasks && RanNow(c, b, s', x) { assert RanNow(c, b, s, x); }
  }

  lemma EndsOpen(s: State, s': State, t: KeyID)
    requires Ends(s, s', t)
    ensures Open(s') == Open(s)
  {
  }

  lemma EndsVal(c: Client, b: Behaviour, s: State, s': State, t: KeyID)
    requires Good(c, b, s) && Ends(s, s', t) && t in s.tasks && RanNow(c, b, s, t)
    ensures Val(c, b, s') && Open(s')
  {
    hide *;
    UnpackGood(c, b, s);
    Unpack(c, s);
    Unbroken(c, b, s);
    EndsDb(c, b, s, s', t);
    EndsMemory(s, s', t);
    EndsSkip(s, s', t);
    EndsDone(c, b, s, s', t);
    EndsTasks(c, b, s, s', t);
    EndsOpen(s, s', t);
    PackVal(c, b, s');
  }

  lemma FinishVal(c: Client, b: Behaviour, s: State)
    requires Good(c, b, s) && s.finishedTaskInfos != []
    ensures Val(c, b, FinishOne(s)) && Open(FinishOne(s))
  {
    hide Inv, Val, FinishOne, Ends, RanNow, QueuesOk, Good;
    UnpackGood(c, b, s);
    Unpack(c, s);
    CanFinishNow(c, s);
    var t := Last(s.finishedTaskInfos);
    FinishEnds(s, t);
    assert t in s.finishedTaskInfos;
    EndsVal(c, b, s, FinishOne(s), t);
  }
}
