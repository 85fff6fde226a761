/** The build engine as an object that changes in place (`BuildEngineImpl`, lib/Core/BuildEngine.cpp).
    Each method is proved to do what the step of the same name does to the state, so that whatever
    holds in every run of steps holds of the object. */
module BuildEngineObject {
  import opened Options
  import opened EngineState
  import Steps = EngineSteps
  import opened EngineInvariant
  import opened EngineScanning
  import opened EngineRuns
  import opened CycleSearch
  import opened EngineProgress
  import opened EngineTheorems
  import opened CycleBreaking
  import opened ScanRecords

  // ---- Runs of steps ----------------------------------------------------------------------------

  /** The engine can get into state `s`. */
  ghost predicate Reachable(c: Client, s: State) {
    exists steps :: Steps.Legal(c, steps) && Steps.Exec(c, steps) == s
  }

  lemma ReachNext(c: Client, s: State, step: Steps.Step)
    requires Reachable(c, s) && Steps.Enabled(s, step)
    ensures Reachable(c, Steps.Apply(c, s, step))
  {
    hide Steps.Apply, Steps.Enabled;
    var steps :| Steps.Legal(c, steps) && Steps.Exec(c, steps) == s;
    var steps' := steps + [step];
    assert Steps.Front(steps') == steps && Steps.Last(steps') == step;
    assert Steps.Legal(c, steps');
    assert Steps.Exec(c, steps') == Steps.Apply(c, s, step);
  }

  lemma ReachBetween(c: Client, s: State)
    requires Reachable(c, s)
    ensures Between(c, s)
  {
    hide Steps.Legal, Steps.Exec, Between;
    var steps :| Steps.Legal(c, steps) && Steps.Exec(c, steps) == s;
    RunInvariant(c, steps);
  }

  lemma ReachInitial(c: Client)
    ensures Reachable(c, INITIAL)
  {
    assert Steps.Legal(c, []) && Steps.Exec(c, []) == INITIAL;
  }

  /** `n` scan steps lead from `s` to `s'`. */
  ghost predicate ScansTo(c: Client, s: State, s': State, n: nat)
    decreases n
  {
    if n == 0 then s' == s
    else exists m :: ScansTo(c, s, m, n - 1) && m.ruleInfosToScan != [] && s' == Steps.ScanOne(c, m)
  }

  lemma {:induction false} ReachScans(c: Client, s: State, s': State, n: nat)
    requires Reachable(c, s) && ScansTo(c, s, s', n)
    ensures Reachable(c, s')
    decreases n
  {
    hide Reachable, Steps.ScanOne;
    if n > 0 {
      var m :| ScansTo(c, s, m, n - 1) && m.ruleInfosToScan != [] && s' == Steps.ScanOne(c, m);
      ReachScans(c, s, m, n - 1);
      ReachNext(c, m, Steps.DoScan);
    }
  }

  // ---- Single requests --------------------------------------------------------------------------

  lemma RequestsPush(t: KeyID, base: nat, asks: seq<Dependency>, i: nat)
    requires i < |asks|
    ensures Steps.Requests(t, base, asks[..i + 1]) ==
      Steps.Requests(t, base, asks[..i]) + [InputRequest(Some(t), base + i, asks[i].key, asks[i].orderOnly, asks[i].singleUse, false)]
  {
  }

  lemma AskingPush(task: TaskInfo, asks: seq<Dependency>, i: nat)
    requires i < |asks|
    ensures Steps.Asking(task, asks[..i + 1]) == Steps.Asking(Steps.Asking(task, asks[..i]), [asks[i]])
  {
    assert asks[..i + 1] == asks[..i] + [asks[i]];
    assert seq(i + 1, _ => |task.delivered|) == seq(i, _ => |task.delivered|) + seq(1, _ => |task.delivered|);
    assert task.seen + seq(i + 1, _ => |task.delivered|) == task.seen + seq(i, _ => |task.delivered|) + seq(1, _ => |task.delivered|);
    assert task.asked + (asks[..i] + [asks[i]]) == task.asked + asks[..i] + [asks[i]];
  }

  lemma NothingAsked(t: KeyID, base: nat, task: TaskInfo)
    ensures Steps.Requests(t, base, []) == [] && Steps.Asking(task, []) == task
  {
  }

  lemma CleanStep(ds: seq<Dependency>, i: nat, kept: seq<Dependency>)
    requires i < |ds|
    ensures Steps.WithoutSingleUse(ds[..i + 1]) + kept ==
      Steps.WithoutSingleUse(ds[..i]) + if ds[i].singleUse then kept else [ds[i]] + kept
  {
    var upto := ds[..i + 1];
    assert upto[..|upto| - 1] == ds[..i] && upto[|upto| - 1] == ds[i];
  }

  lemma EraseAt(ds: seq<Dependency>, i: nat, kept: seq<Dependency>)
    requires i < |ds|
    ensures var r := ds[..i + 1] + kept; r[..i] + r[i + 1..] == ds[..i] + kept && r == ds[..i] + ([ds[i]] + kept)
  {
  }

  lemma NothingLeft(ds: seq<Dependency>, kept: seq<Dependency>)
    ensures ds[..|ds|] == ds && ds + [] == ds && ds[..0] + kept == kept && Steps.WithoutSingleUse(ds[..0]) + kept == kept
    ensures Steps.WithoutSingleUse(ds) + [] == Steps.WithoutSingleUse(ds)
  {
  }

  /** Dependencies flagged as single-use are erased, going backwards. */
  method CleanSingleUseDependencies(dependencies: seq<Dependency>) returns (r: seq<Dependency>)
    ensures r == Steps.WithoutSingleUse(dependencies)
  {
    r := dependencies;
    var i := |dependencies|;
    ghost var kept: seq<Dependency> := [];
    NothingLeft(dependencies, []);
    while i > 0
      invariant 0 <= i <= |dependencies| && r == dependencies[..i] + kept
      invariant Steps.WithoutSingleUse(dependencies[..i]) + kept == Steps.WithoutSingleUse(dependencies)
    {
      i := i - 1;
      CleanStep(dependencies, i, kept);
      EraseAt(dependencies, i, kept);
      if dependencies[i].singleUse {
        r := r[..i] + r[i + 1..];
      } else {
        kept := [dependencies[i]] + kept;
      }
    }
    NothingLeft(dependencies, kept);
  }

  // ---- Scan records ---------------------------------------------------------------------------------

  function On(records: seq<Record>, i: nat): Record {
    if i < |records| then records[i] else CLEAR
  }

  function Paused(records: seq<Record>, pending: map<KeyID, nat>): map<KeyID, seq<InputRequest>> {
    map k | k in pending :: On(records, pending[k]).pausedInputRequests
  }

  function Deferred(records: seq<Record>, pending: map<KeyID, nat>): map<KeyID, seq<ScanRequest>> {
    map k | k in pending :: On(records, pending[k]).deferredScanRequests
  }

  lemma NoneParked(records: seq<Record>)
    ensures Paused(records, map[]) == map[] && Deferred(records, map[]) == map[]
  {
    assert Paused(records, map[]).Keys == {} && Deferred(records, map[]).Keys == {};
  }

  lemma SameMap<X>(m: map<KeyID, X>, m': map<KeyID, X>)
    requires m.Keys == m'.Keys && forall k :: k in m ==> m[k] == m'[k]
    ensures m == m'
  {
    forall k | k in m.Keys ensures m[k] == m'[k] { assert k in m; }
  }

  lemma NewParked(rs: seq<Record>, p: map<KeyID, nat>, rs': seq<Record>, p': map<KeyID, nat>, k: KeyID)
    requires k !in p && k in p' && p' == p[k := p'[k]] && On(rs', p'[k]) == CLEAR && forall x :: x in p ==> On(rs', p[x]) == On(rs, p[x])
    ensures Paused(rs', p') == Paused(rs, p)[k := []] && Deferred(rs', p') == Deferred(rs, p)[k := []]
  {
    SameMap(Paused(rs', p'), Paused(rs, p)[k := []]);
    SameMap(Deferred(rs', p'), Deferred(rs, p)[k := []]);
  }

  lemma FreeParked(rs: seq<Record>, p: map<KeyID, nat>, rs': seq<Record>, p': map<KeyID, nat>, k: KeyID)
    requires p' == p - {k} && forall x :: x in p' ==> On(rs', p'[x]) == On(rs, p[x])
    ensures Paused(rs', p') == Paused(rs, p) - {k} && Deferred(rs', p') == Deferred(rs, p) - {k}
  {
    SameMap(Paused(rs', p'), Paused(rs, p) - {k});
    SameMap(Deferred(rs', p'), Deferred(rs, p) - {k});
  }

  lemma MoreParked(rs: seq<Record>, p: map<KeyID, nat>, rs': seq<Record>, d: KeyID)
    requires d in p && forall x :: x in p && x != d ==> On(rs', p[x]) == On(rs, p[x])
    ensures Paused(rs', p) == Paused(rs, p)[d := On(rs', p[d]).pausedInputRequests]
    ensures Deferred(rs', p) == Deferred(rs, p)[d := On(rs', p[d]).deferredScanRequests]
  {
    SameMap(Paused(rs', p), Paused(rs, p)[d := On(rs', p[d]).pausedInputRequests]);
    SameMap(Deferred(rs', p), Deferred(rs, p)[d := On(rs', p[d]).deferredScanRequests]);
  }

  /** The scanning rules, and no others, have something to park on. */
  ghost predicate OneEach(s: State) {
    forall k :: (Info(s, k).phase.IsScanning? <==> k in s.paused) && (k in s.deferred <==> k in s.paused)
  }

  lemma ReachOneEach(c: Client, s: State)
    requires Reachable(c, s)
    ensures OneEach(s)
  {
    hide Reachable;
    ReachBetween(c, s);
    assert Shape(s) by { Unpack(c, s); }
    hide Between;
  }

  lemma HasRecord(s: State, k: KeyID)
    requires OneEach(s) && Scanning(s, k)
    ensures k in s.paused
  {
  }

  lemma NoRecordYet(s: State, k: KeyID)
    requires OneEach(s)
    ensures !Scanning(s, k) ==> k !in s.paused
  {
  }

  lemma TakenOneEach(s: State, s': State)
    requires OneEach(s) && s'.rules == s.rules && s'.db == s.db && s'.paused == s.paused && s'.deferred == s.deferred
    ensures OneEach(s')
  {
    forall k ensures Info(s', k) == Info(s, k) {}
  }

  lemma HeldOneEach(s: State, r: ScanRequest)
    requires OneEach(s)
    ensures OneEach(s.(curScan := [r]))
  {
    TakenOneEach(s, s.(curScan := [r]));
  }

  lemma ScanRuleOneEach(c: Client, s: State, k: KeyID)
    requires OneEach(s)
    ensures OneEach(Steps.ScanRule(c, s, k))
  {
    hide Steps.WithoutSingleUse, Steps.FirstLook;
    if !IsScanned(s, k) && !Scanning(s, k) {
      var res := Steps.Cleaned(Info(s, k).result);
      StartScanOneEach(s, k, res, Steps.FirstLook(c, s.epoch, k, res));
    }
  }

  lemma StartScanOneEach(s: State, k: KeyID, res: Result, look: Steps.Look)
    requires OneEach(s) && !Scanning(s, k)
    ensures OneEach(Steps.StartScan(s, k, res, look))
  {
    var s' := Steps.StartScan(s, k, res, look);
    forall x | x != k ensures Info(s', x) == Info(s, x) { match look case MustRun => case MayStay => case MustScan(_) => }
    var _ := Info(s, k);
    match look case MustRun => case MayStay => case MustScan(_) =>
  }

  lemma DemandRuleOneEach(c: Client, s: State, k: KeyID)
    requires OneEach(s)
    ensures OneEach(Steps.DemandRule(c, s, k))
  {
    hide Steps.LaunchTask, Steps.SetComplete, OneEach;
    if Info(s, k).phase.NeedsToRun? {
      LaunchOneEach(s, k, c.onStart(s.epoch, k));
    } else if Info(s, k).phase.DoesNotNeedToRun? {
      CompleteOneEach(s, k);
    }
  }

  lemma CompleteOneEach(s: State, k: KeyID)
    requires OneEach(s) && Info(s, k).phase.DoesNotNeedToRun?
    ensures OneEach(Steps.SetComplete(s, k))
  {
    var s' := Steps.SetComplete(s, k);
    forall x | x != k ensures Info(s', x) == Info(s, x) {}
  }

  lemma LaunchOneEach(s: State, k: KeyID, asks: seq<Dependency>)
    requires OneEach(s) && Info(s, k).phase.NeedsToRun?
    ensures OneEach(Steps.LaunchTask(s, k, asks))
  {
    hide Steps.Requests, Steps.PushIf, Steps.Asking;
    var s' := Steps.LaunchTask(s, k, asks);
    forall x | x != k ensures Info(s', x) == Info(s, x) {}
  }

  lemma HandOneEach(c: Client, s: State, mid: State, now: State, r: ScanRequest, n: nat)
    requires Held(c, s, mid, now, r, n)
    ensures OneEach(now)
  {
    hide Reachable, ScansTo;
    ReachScans(c, s, mid, n);
    ReachOneEach(c, mid);
    TakenOneEach(mid, now);
  }

  // Freeing all of them.

  lemma RulesKnown(s: State)
    requires OneEach(s)
    ensures forall k :: k in s.paused ==> k in s.rules.Keys
  {
    forall k | k in s.paused ensures k in s.rules.Keys { assert Info(s, k).phase.IsScanning?; }
  }

  lemma NoneGone(s: State)
    ensures s.paused - {} == s.paused && s.deferred - {} == s.deferred
  {
  }

  lemma OneGone(s: State, gone: set<KeyID>, k: KeyID)
    requires OneEach(s) && k !in gone
    ensures Info(s.(paused := s.paused - gone, deferred := s.deferred - gone), k) == Info(s, k)
    ensures Scanning(s, k) <==> k in s.paused - gone
    ensures (s.paused - gone) - {k} == s.paused - (gone + {k}) && (s.deferred - gone) - {k} == s.deferred - (gone + {k})
  {
    var _ := Info(s, k);
  }

  lemma AllGone(s: State, gone: set<KeyID>)
    requires OneEach(s) && forall k :: k in s.paused ==> k in gone
    ensures s.paused - gone == map[] && s.deferred - gone == map[]
  {
    forall k ensures k !in s.paused - gone && k !in s.deferred - gone { var _ := Info(s, k); }
    assert (s.paused - gone).Keys == {} && (s.deferred - gone).Keys == {};
  }

  /** What becomes of an attempt to break a cycle. */
  datatype Breaking = Broken | NotBroken | ReadPastTheEnd

  class BuildEngine {
    const client: Client
    var currentEpoch: nat
    var ruleInfos: map<KeyID, RuleInfo>
    var db: map<KeyID, Result>
    var taskInfos: map<KeyID, TaskInfo>
    var requestedBy: map<KeyID, seq<InputRequest>>
    var deferredOnTasks: map<KeyID, seq<ScanRequest>>
    const scanRecords: Allocator
    var ruleInfosToScan: seq<ScanRequest>
    var inputRequests: seq<InputRequest>
    var finishedInputRequests: seq<InputRequest>
    var readyTaskInfos: seq<KeyID>
    var finishedTaskInfos: seq<KeyID>
    var numOutstandingUnfinishedTasks: int
    var buildCancelled: bool

    // The request being worked on, and what has happened so far.
    ghost var curScan: seq<ScanRequest>
    ghost var curInput: seq<InputRequest>
    ghost var created: seq<KeyID>
    ghost var readied: seq<KeyID>
    ghost var owed: set<KeyID>
    ghost var broken: bool
    ghost var cancelled: bool
    ghost var tidy: bool
    ghost var building: bool

    /** The requests parked on the scan record of each scanning rule. */
    function PausedInputRequests(): (r: map<KeyID, seq<InputRequest>>)
      reads scanRecords
    {
      Paused(scanRecords.records, scanRecords.pending)
    }

    function DeferredScanRequests(): (r: map<KeyID, seq<ScanRequest>>)
      reads scanRecords
    {
      Deferred(scanRecords.records, scanRecords.pending)
    }

    ghost function View(): State
      reads this, scanRecords
    {
      State(currentEpoch, ruleInfos, db, taskInfos, requestedBy, deferredOnTasks, PausedInputRequests(), DeferredScanRequests(),
            ruleInfosToScan, curScan, inputRequests, curInput, finishedInputRequests, readyTaskInfos, finishedTaskInfos,
            numOutstandingUnfinishedTasks, created, readied, owed, broken, cancelled, tidy, building)
    }

    /** The allocator's records are in order. */
    ghost predicate RecordsKept()
      reads scanRecords
    {
      scanRecords.Valid()
    }

    /** A run of steps leads to the state this object stands for. */
    ghost predicate Valid()
      reads this, scanRecords
    {
      RecordsKept() && Reachable(client, View())
    }

    /** Every scanning rule owns a scan record, and no other rule does. Records of different rules are
        different, none of them is on the free list or in the part of the blocks not yet used, and
        what is on them is what is parked on the rule. */
    lemma EachScanOwnsItsRecord()
      requires Valid()
      ensures forall k :: Scanning(View(), k) <==> k in scanRecords.pending
      ensures forall k, x :: k in scanRecords.pending && x in scanRecords.pending && k != x ==> scanRecords.pending[k] != scanRecords.pending[x]
      ensures forall k :: k in scanRecords.pending ==>
        && scanRecords.pending[k] !in scanRecords.freeRuleScanRecords && scanRecords.pending[k] < scanRecords.currentBlockPos
        && scanRecords.records[scanRecords.pending[k]] == Record(At(View().paused, k), At(View().deferred, k))
    {
      ReachOneEach(client, View());
      hide Reachable;
      forall k ensures Scanning(View(), k) <==> k in scanRecords.pending {
        assert OneEach(View());
        assert k in View().paused <==> k in scanRecords.pending;
        var _ := Info(View(), k);
      }
    }

    constructor (c: Client)
      ensures Valid() && View() == INITIAL && client == c && fresh(scanRecords) && !buildCancelled
    {
      var a := new Allocator();
      scanRecords, buildCancelled := a, false;
      client, currentEpoch, ruleInfos, db, taskInfos := c, 0, map[], map[], map[];
      requestedBy, deferredOnTasks := map[], map[];
      ruleInfosToScan, inputRequests, finishedInputRequests, readyTaskInfos, finishedTaskInfos := [], [], [], [], [];
      numOutstandingUnfinishedTasks := 0;
      curScan, curInput, created, readied, owed := [], [], [], [], {};
      broken, cancelled, tidy, building := false, false, true, false;
      new;
      NoneParked(scanRecords.records);
      ReachInitial(client);
    }

    /** `getRuleInfoForKey`. A rule is registered when it is first changed. */
    function RuleInfoFor(k: KeyID): (r: RuleInfo)
      reads this, scanRecords
      ensures r == Info(View(), k)
    {
      if k in ruleInfos then ruleInfos[k] else RuleInfo(Incomplete, if k in db then db[k] else NO_RESULT, false)
    }

    predicate IsComplete(k: KeyID)
      reads this, scanRecords
      ensures IsComplete(k) == CompleteNow(View(), k)
    {
      RuleInfoFor(k).phase.Complete? && RuleInfoFor(k).result.builtAt == currentEpoch
    }

    predicate IsScannedNow(k: KeyID)
      reads this, scanRecords
      ensures IsScannedNow(k) == IsScanned(View(), k)
    {
      match RuleInfoFor(k).phase
      case NeedsToRun => true
      case DoesNotNeedToRun => true
      case InProgressWaiting => true
      case InProgressComputing => true
      case Complete => IsComplete(k)
      case _ => false
    }

    function Epoch(): (r: nat)
      reads this, scanRecords
      ensures r == View().epoch
    {
      currentEpoch
    }

    function TaskInfoFor(t: KeyID): (r: TaskInfo)
      reads this, scanRecords
      ensures r == TaskOf(View(), t)
    {
      if t in taskInfos then taskInfos[t] else NEW_TASK
    }

    function ScansDeferredOnScan(k: KeyID): (r: seq<ScanRequest>)
      reads this, scanRecords
      ensures r == At(View().deferred, k)
    {
      if k in scanRecords.pending then On(scanRecords.records, scanRecords.pending[k]).deferredScanRequests else []
    }

    function ScansDeferredOnTask(k: KeyID): (r: seq<ScanRequest>)
      reads this, scanRecords
      ensures r == At(View().taskDeferred, k)
    {
      At(deferredOnTasks, k)
    }

    function InputsPausedOn(k: KeyID): (r: seq<InputRequest>)
      reads this, scanRecords
      ensures r == At(View().paused, k)
    {
      if k in scanRecords.pending then On(scanRecords.records, scanRecords.pending[k]).pausedInputRequests else []
    }

    function InputsRequestedFrom(k: KeyID): (r: seq<InputRequest>)
      reads this, scanRecords
      ensures r == At(View().requestedBy, k)
    {
      At(requestedBy, k)
    }

    // ---- Changing one thing -----------------------------------------------------------------------

    method SetRule(k: KeyID, info: RuleInfo)
      modifies this`ruleInfos
      ensures View() == old(View()).(rules := old(View()).rules[k := info])
    {
      ruleInfos := ruleInfos[k := info];
    }

    method Store(k: KeyID, result: Result)
      modifies this`db
      ensures View() == old(View()).(db := old(View()).db[k := result])
    {
      db := db[k := result];
    }

    method PushScan(r: ScanRequest)
      modifies this`ruleInfosToScan
      ensures View() == old(View()).(ruleInfosToScan := old(View()).ruleInfosToScan + [r])
    {
      ruleInfosToScan := ruleInfosToScan + [r];
    }

    method PopScan() returns (r: ScanRequest)
      requires View().ruleInfosToScan != []
      modifies this`ruleInfosToScan
      ensures r == Steps.Last(old(View()).ruleInfosToScan)
      ensures View() == old(View()).(ruleInfosToScan := Steps.Front(old(View()).ruleInfosToScan))
    {
      r := Steps.Last(ruleInfosToScan);
      ruleInfosToScan := Steps.Front(ruleInfosToScan);
    }

    ghost method HoldScan(rs: seq<ScanRequest>)
      modifies this`curScan
      ensures View() == old(View()).(curScan := rs)
    {
      curScan := rs;
    }

    method NewScanRecord(k: KeyID)
      requires RecordsKept() && k !in View().paused
      modifies scanRecords
      ensures RecordsKept() && View() == old(View()).(paused := old(View()).paused[k := []], deferred := old(View()).deferred[k := []])
    {
      ghost var rs, p := scanRecords.records, scanRecords.pending;
      scanRecords.Acquire(k);
      NewParked(rs, p, scanRecords.records, scanRecords.pending, k);
    }

    method FreeScanRecord(k: KeyID)
      requires RecordsKept() && k in View().paused
      modifies scanRecords
      ensures RecordsKept() && View() == old(View()).(paused := old(View()).paused - {k}, deferred := old(View()).deferred - {k})
    {
      ghost var rs, p := scanRecords.records, scanRecords.pending;
      scanRecords.Release(k);
      FreeParked(rs, p, scanRecords.records, scanRecords.pending, k);
    }

    method ParkScanOnScan(d: KeyID, r: ScanRequest)
      requires RecordsKept() && d in View().paused
      modifies scanRecords
      ensures RecordsKept() && View() == old(View()).(deferred := old(View()).deferred[d := At(old(View()).deferred, d) + [r]])
    {
      ghost var rs, p := scanRecords.records, scanRecords.pending;
      var record := scanRecords.records[scanRecords.pending[d]];
      scanRecords.Park(d, record.(deferredScanRequests := record.deferredScanRequests + [r]));
      MoreParked(rs, p, scanRecords.records, d);
    }

    method ParkInputOnScan(d: KeyID, r: InputRequest)
      requires RecordsKept() && d in View().paused
      modifies scanRecords
      ensures RecordsKept() && View() == old(View()).(paused := old(View()).paused[d := At(old(View()).paused, d) + [r]])
    {
      ghost var rs, p := scanRecords.records, scanRecords.pending;
      var record := scanRecords.records[scanRecords.pending[d]];
      scanRecords.Park(d, record.(pausedInputRequests := record.pausedInputRequests + [r]));
      MoreParked(rs, p, scanRecords.records, d);
    }

    method ParkScanOnTask(d: KeyID, r: ScanRequest)
      modifies this`deferredOnTasks
      ensures View() == old(View()).(taskDeferred := old(View()).taskDeferred[d := At(old(View()).taskDeferred, d) + [r]])
    {
      deferredOnTasks := deferredOnTasks[d := At(deferredOnTasks, d) + [r]];
    }

    method SetRequestedBy(d: KeyID, rs: seq<InputRequest>)
      modifies this`requestedBy
      ensures View() == old(View()).(requestedBy := old(View()).requestedBy[d := rs])
    {
      requestedBy := requestedBy[d := rs];
    }

    method PushInput(r: InputRequest)
      modifies this`inputRequests
      ensures View() == old(View()).(inputRequests := old(View()).inputRequests + [r])
    {
      inputRequests := inputRequests + [r];
    }

    method PopInput() returns (r: InputRequest)
      requires View().inputRequests != []
      modifies this`inputRequests
      ensures r == old(View()).inputRequests[0]
      ensures View() == old(View()).(inputRequests := old(View()).inputRequests[1..])
    {
      r := inputRequests[0];
      inputRequests := inputRequests[1..];
    }

    ghost method HoldInput(rs: seq<InputRequest>)
      modifies this`curInput
      ensures View() == old(View()).(curInput := rs)
    {
      curInput := rs;
    }

    method PushFinishedInput(r: InputRequest)
      modifies this`finishedInputRequests
      ensures View() == old(View()).(finishedInputRequests := old(View()).finishedInputRequests + [r])
    {
      finishedInputRequests := finishedInputRequests + [r];
    }

    method PopFinishedInput() returns (r: InputRequest)
      requires View().finishedInputRequests != []
      modifies this`finishedInputRequests
      ensures r == Steps.Last(old(View()).finishedInputRequests)
      ensures View() == old(View()).(finishedInputRequests := Steps.Front(old(View()).finishedInputRequests))
    {
      r := Steps.Last(finishedInputRequests);
      finishedInputRequests := Steps.Front(finishedInputRequests);
    }

    method PutTask(t: KeyID, task: TaskInfo)
      modifies this`taskInfos
      ensures View() == old(View()).(tasks := old(View()).tasks[t := task])
    {
      taskInfos := taskInfos[t := task];
    }

    method OpenLists(t: KeyID)
      modifies this`requestedBy, this`deferredOnTasks
      ensures View() == old(View()).(requestedBy := old(View()).requestedBy[t := []], taskDeferred := old(View()).taskDeferred[t := []])
    {
      requestedBy := requestedBy[t := []];
      deferredOnTasks := deferredOnTasks[t := []];
    }

    method DropTask(t: KeyID)
      modifies this`taskInfos
      ensures View() == old(View()).(tasks := old(View()).tasks - {t})
    {
      taskInfos := taskInfos - {t};
    }

    method CloseLists(t: KeyID)
      modifies this`requestedBy, this`deferredOnTasks
      ensures View() == old(View()).(requestedBy := old(View()).requestedBy - {t}, taskDeferred := old(View()).taskDeferred - {t})
    {
      requestedBy := requestedBy - {t};
      deferredOnTasks := deferredOnTasks - {t};
    }

    method PushReady(t: KeyID)
      modifies this`readyTaskInfos, this`readied
      ensures View() == old(View()).(readyTaskInfos := old(View()).readyTaskInfos + [t], readied := old(View()).readied + [t])
    {
      readyTaskInfos := readyTaskInfos + [t];
      readied := readied + [t];
    }

    method PopReady() returns (t: KeyID)
      requires View().readyTaskInfos != []
      modifies this`readyTaskInfos
      ensures t == old(View()).readyTaskInfos[0]
      ensures View() == old(View()).(readyTaskInfos := old(View()).readyTaskInfos[1..])
    {
      t := readyTaskInfos[0];
      readyTaskInfos := readyTaskInfos[1..];
    }

    method PushFinished(t: KeyID)
      modifies this`finishedTaskInfos
      ensures View() == old(View()).(finishedTaskInfos := old(View()).finishedTaskInfos + [t])
    {
      finishedTaskInfos := finishedTaskInfos + [t];
    }

    method PopFinished() returns (t: KeyID)
      requires View().finishedTaskInfos != []
      modifies this`finishedTaskInfos
      ensures t == Steps.Last(old(View()).finishedTaskInfos)
      ensures View() == old(View()).(finishedTaskInfos := Steps.Front(old(View()).finishedTaskInfos))
    {
      t := Steps.Last(finishedTaskInfos);
      finishedTaskInfos := Steps.Front(finishedTaskInfos);
    }

    method AddOutstanding(n: int)
      modifies this`numOutstandingUnfinishedTasks
      ensures View() == old(View()).(numOutstanding := old(View()).numOutstanding + n)
    {
      numOutstandingUnfinishedTasks := numOutstandingUnfinishedTasks + n;
    }

    ghost method NoteCreated(t: KeyID)
      modifies this`created
      ensures View() == old(View()).(created := old(View()).created + [t])
    {
      created := created + [t];
    }

    ghost method NoteOwed(ks: set<KeyID>)
      modifies this`owed
      ensures View() == old(View()).(owed := old(View()).owed + ks)
    {
      owed := owed + ks;
    }

    ghost method NoteBroken()
      modifies this`broken
      ensures View() == old(View()).(broken := true)
    {
      broken := true;
    }

    // ---- Scanning ---------------------------------------------------------------------------------

    method BeginScan(k: KeyID, info: RuleInfo, needsToRun: bool)
      requires RecordsKept() && k !in View().paused
      modifies this`ruleInfos, scanRecords, this`ruleInfosToScan
      ensures RecordsKept() && View() == Steps.BeginScan(old(View()), k, info, needsToRun)
    {
      hide View, RecordsKept;
      SetRule(k, info);
      NewScanRecord(k);
      PushScan(ScanRequest(k, 0, None, false, needsToRun));
    }

    /** The tests of `scanRule`, with `scheduleChecksBeforeRunning`. */
    method LookAt(k: KeyID, res: Result) returns (look: Steps.Look)
      ensures look == Steps.FirstLook(client, View().epoch, k, res)
    {
      hide View;
      var epoch := Epoch();
      if res.builtAt == 0 { return Steps.MustRun; }
      if client.signature(epoch, k) != res.signature || !client.isResultValid(epoch, k, res.value) {
        if !client.checksBefore(epoch, k) || res.dependencies == [] { return Steps.MustRun; }
        return Steps.MustScan(true);
      }
      if res.dependencies == [] { return Steps.MayStay; }
      return Steps.MustScan(false);
    }

    method StartScan(k: KeyID, res: Result, look: Steps.Look) returns (scanned: bool)
      requires RecordsKept() && k !in View().paused
      modifies this`ruleInfos, scanRecords, this`ruleInfosToScan
      ensures RecordsKept() && View() == Steps.StartScan(old(View()), k, res, look)
      ensures scanned == !look.MustScan?
    {
      hide View, RecordsKept, Steps.BeginScan;
      match look {
        case MustRun => SetRule(k, RuleInfo(NeedsToRun, res, false));
        case MayStay => SetRule(k, RuleInfo(DoesNotNeedToRun, res, false));
        case MustScan(needsToRun) => BeginScan(k, RuleInfo(IsScanning, res, false), needsToRun);
      }
      scanned := !look.MustScan?;
    }

    /** `scanRule`: true if the rule is already scanned. */
    method ScanRule(k: KeyID) returns (scanned: bool)
      requires RecordsKept() && OneEach(View())
      modifies this`ruleInfos, scanRecords, this`ruleInfosToScan
      ensures RecordsKept() && OneEach(View()) && View() == Steps.ScanRule(client, old(View()), k)
      ensures scanned ==> IsScanned(View(), k)
      ensures !scanned ==> Scanning(View(), k)
    {
      ScanRuleOneEach(client, View(), k);
      NoRecordYet(View(), k);
      hide View, RecordsKept, OneEach, Steps.WithoutSingleUse, Steps.StartScan, Steps.FirstLook, IsScanned;
      var info := RuleInfoFor(k);
      if IsScannedNow(k) { return true; }
      if info.phase.IsScanning? { return false; }
      var dependencies := CleanSingleUseDependencies(info.result.dependencies);
      var res := info.result.(dependencies := dependencies);
      var look := LookAt(k, res);
      StartScanMarks(View(), k, res, look);
      scanned := StartScan(k, res, look);
    }

    // ---- Tasks ------------------------------------------------------------------------------------

    /** `addTaskInputRequest`. */
    method AddTaskInputRequest(t: KeyID, d: Dependency)
      requires t in View().tasks
      modifies this`inputRequests, this`taskInfos
      ensures var s, task := old(View()), old(View()).tasks[t];
        View() == s.(inputRequests := s.inputRequests + [InputRequest(Some(t), |task.asked|, d.key, d.orderOnly, d.singleUse, false)],
                     tasks := s.tasks[t := Steps.Asking(task, [d])])
    {
      hide View;
      var task := TaskInfoFor(t);
      PushInput(InputRequest(Some(t), |task.asked|, d.key, d.orderOnly, d.singleUse, false));
      assert seq(1, _ => |task.delivered|) == [|task.delivered|];
      PutTask(t, task.(waitCount := task.waitCount + 1, asked := task.asked + [d], seen := task.seen + [|task.delivered|]));
    }

    /** What a task asks for in a callback. */
    method AskFor(t: KeyID, asks: seq<Dependency>)
      requires t in View().tasks
      modifies this`inputRequests, this`taskInfos
      ensures var s, task := old(View()), old(View()).tasks[t];
        View() == s.(inputRequests := s.inputRequests + Steps.Requests(t, |task.asked|, asks), tasks := s.tasks[t := Steps.Asking(task, asks)])
    {
      hide View, Steps.Requests, Steps.Asking;
      ghost var s := View();
      ghost var task := s.tasks[t];
      NothingAsked(t, |task.asked|, task);
      assert s.tasks[t := task] == s.tasks;
      for i := 0 to |asks|
        invariant View() == s.(inputRequests := s.inputRequests + Steps.Requests(t, |task.asked|, asks[..i]),
                               tasks := s.tasks[t := Steps.Asking(task, asks[..i])])
      {
        RequestsPush(t, |task.asked|, asks, i);
        AskingPush(task, asks, i);
        AskedLength(task, asks[..i]);
        AddTaskInputRequest(t, asks[i]);
      }
      assert asks[..|asks|] == asks;
    }

    method OpenTask(k: KeyID)
      modifies this`ruleInfos, this`taskInfos, this`requestedBy, this`deferredOnTasks, this`created
      ensures View() == Opened(old(View()), k)
    {
      hide View;
      var info := RuleInfoFor(k);
      PutTask(k, NEW_TASK);
      OpenLists(k);
      SetRule(k, RuleInfo(InProgressWaiting, info.result.(dependencies := []), info.wasForced));
      NoteCreated(k);
    }

    /** A task without inputs is ready. */
    method ReadyIfNoInputs(k: KeyID)
      modifies this`readyTaskInfos, this`readied
      ensures var s := old(View()); var push := TaskOf(s, k).waitCount == 0;
        View() == s.(readyTaskInfos := Steps.PushIf(s.readyTaskInfos, k, push), readied := Steps.PushIf(s.readied, k, push))
    {
      hide View;
      if TaskInfoFor(k).waitCount == 0 { PushReady(k); }
    }

    /** Creates and starts the task of a rule. */
    method Launch(k: KeyID)
      modifies this`ruleInfos, this`taskInfos, this`requestedBy, this`deferredOnTasks, this`inputRequests, this`readyTaskInfos, this`readied, this`created
      ensures View() == Steps.LaunchTask(old(View()), k, client.onStart(old(View()).epoch, k))
    {
      hide View, Steps.Requests, Steps.Asking, Steps.PushIf, Opened, Steps.LaunchTask;
      ghost var s := View();
      var asks := client.onStart(Epoch(), k);
      LaunchSplit(s, k, asks);
      OpenTask(k);
      AskFor(k, asks);
      ReadyIfNoInputs(k);
    }

    /** `demandRule`, for a rule that has been scanned: true if it is already available. */
    method DemandRule(k: KeyID) returns (available: bool)
      requires IsScanned(View(), k) && OneEach(View())
      modifies this`ruleInfos, this`taskInfos, this`requestedBy, this`deferredOnTasks, this`inputRequests, this`readyTaskInfos, this`readied, this`created
      ensures OneEach(View()) && View() == Steps.DemandRule(client, old(View()), k)
      ensures available == CompleteNow(View(), k)
    {
      DemandRuleOneEach(client, View(), k);
      hide View, OneEach, Steps.LaunchTask;
      var info := RuleInfoFor(k);
      match info.phase {
        case DoesNotNeedToRun =>
          SetRule(k, info.(phase := Complete, result := info.result.(builtAt := Epoch())));
          return true;
        case NeedsToRun =>
          LaunchMarks(View(), k, client.onStart(Epoch(), k));
          Launch(k);
          return false;
        case Complete => return true;
        case _ => return false;
      }
    }

    // ---- Ending a scan ------------------------------------------------------------------------------

    /** `finishScanRequest`: wakes what is parked on the scan record, one request at a time. */
    method FinishScanRequest(k: KeyID, phase: Phase)
      requires RecordsKept() && k in View().paused
      modifies this`ruleInfos, this`ruleInfosToScan, this`inputRequests, scanRecords
      ensures RecordsKept() && View() == Steps.FinishScan(old(View()), k, phase)
    {
      hide View, RecordsKept;
      ghost var s := View();
      var deferred := ScansDeferredOnScan(k);
      var paused := InputsPausedOn(k);
      WakeScans(deferred);
      WakeInputs(paused);
      FreeScanRecord(k);
      SetRule(k, RuleInfoFor(k).(phase := phase));
    }

    method WakeScans(rs: seq<ScanRequest>)
      modifies this`ruleInfosToScan
      ensures View() == old(View()).(ruleInfosToScan := old(View()).ruleInfosToScan + rs)
    {
      hide View;
      ghost var s := View();
      for i := 0 to |rs|
        invariant View() == s.(ruleInfosToScan := s.ruleInfosToScan + rs[..i])
      {
        assert rs[..i + 1] == rs[..i] + [rs[i]];
        PushScan(rs[i]);
      }
      assert rs[..|rs|] == rs;
    }

    method WakeInputs(rs: seq<InputRequest>)
      modifies this`inputRequests
      ensures View() == old(View()).(inputRequests := old(View()).inputRequests + rs)
    {
      hide View;
      ghost var s := View();
      for i := 0 to |rs|
        invariant View() == s.(inputRequests := s.inputRequests + rs[..i])
      {
        assert rs[..i + 1] == rs[..i] + [rs[i]];
        PushInput(rs[i]);
      }
      assert rs[..|rs|] == rs;
    }

    method FinishInHand(k: KeyID, phase: Phase)
      requires RecordsKept() && k in View().paused
      modifies this`ruleInfos, this`ruleInfosToScan, this`inputRequests, this`curScan, scanRecords
      ensures RecordsKept() && View() == Steps.FinishHand(old(View()), k, phase)
    {
      hide View, RecordsKept, Steps.FinishScan;
      HoldScan([]);
      FinishScanRequest(k, phase);
    }

    // ---- One scan request -----------------------------------------------------------------------------

    /** The end of an iteration: the scan goes on with the next dependency, or is over. */
    method AdvanceScan(r: ScanRequest) returns (next: Option<ScanRequest>)
      requires RecordsKept() && OneEach(View()) && Scanning(View(), r.rule)
      modifies this, scanRecords
      ensures RecordsKept() && Onward(old(View()), View(), r, next, Steps.Advance(old(View()), r))
    {
      HasRecord(View(), r.rule);
      hide View, RecordsKept, OneEach, Steps.FinishHand;
      if r.index + 1 != |RuleInfoFor(r.rule).result.dependencies| {
        HoldScan([Steps.Next(r)]);
        next := Some(Steps.Next(r));
      } else {
        next := None;
        FinishInHand(r.rule, if r.needsToRun then NeedsToRun else DoesNotNeedToRun);
      }
    }

    /** The input of the request is available. */
    method CompareInput(r: ScanRequest, d: KeyID) returns (next: Option<ScanRequest>)
      requires RecordsKept() && OneEach(View()) && Scanning(View(), r.rule)
      modifies this, scanRecords
      ensures RecordsKept() && Onward(old(View()), View(), r, next, Steps.Conclude(client, old(View()), r, d))
    {
      HasRecord(View(), r.rule);
      hide View, RecordsKept, OneEach, Steps.FinishHand, Steps.Advance;
      if !r.orderOnly && !r.needsToRun && RuleInfoFor(r.rule).result.builtAt < RuleInfoFor(d).result.computedAt {
        if client.checksBefore(Epoch(), r.rule) {
          next := AdvanceScan(r.(needsToRun := true));
        } else {
          next := None;
          FinishInHand(r.rule, NeedsToRun);
        }
      } else {
        next := AdvanceScan(r);
      }
    }

    /** Scans and demands the input of the request in hand. */
    method ScanInput(r: ScanRequest, d: KeyID) returns (next: Option<ScanRequest>)
      requires RecordsKept() && OneEach(View()) && Scanning(View(), r.rule)
      modifies this, scanRecords
      ensures RecordsKept() && Onward(old(View()), View(), r, next, Steps.AfterLookUp(client, old(View()), r, d))
    {
      hide View, RecordsKept, OneEach, Steps.ScanRule, Steps.DemandRule, Steps.Conclude, Scanning, IsScanned, CompleteNow;
      ghost var s := View();
      var scanned := ScanRule(d);
      ghost var s2 := View();
      NotScannedTwice(s2, d);
      if !scanned {
        HasRecord(s2, d);
        HoldScan([]);
        ParkScanOnScan(d, r);
        return None;
      }
      var available := DemandRule(d);
      ghost var s3 := View();
      StillTheSame(client, s, r.rule, d);
      if !available {
        HoldScan([]);
        ParkScanOnTask(d, r);
        return None;
      }
      next := CompareInput(r, d);
    }

    /** One iteration of the loop in `processRuleScanRequest`, on the request in hand. */
    method ScanNextInput(r: ScanRequest) returns (next: Option<ScanRequest>)
      requires RecordsKept() && OneEach(View())
      modifies this, scanRecords
      ensures RecordsKept() && Onward(old(View()), View(), r, next, Steps.ProcessScan(client, old(View()), r))
    {
      hide View, RecordsKept, OneEach, Steps.AfterLookUp, Steps.Advance, Steps.DependencyAt;
      ghost var s := View();
      if !RuleInfoFor(r.rule).phase.IsScanning? {
        HoldScan([]);
        return None;
      }
      var d := DependencyAt(r);
      if r.input.None? && r.needsToRun && !client.mustCheck(Epoch(), r.rule, d.key) {
        next := AdvanceScan(r);
        return;
      }
      var r' := if r.input.Some? then r else r.(input := Some(d.key), orderOnly := d.orderOnly);
      HoldScan([r']);
      HeldSame(s, r.rule, r');
      HeldOneEach(s, r');
      next := ScanInput(r', r'.input.value);
    }

    function DependencyAt(r: ScanRequest): (d: Dependency)
      reads this, scanRecords
      ensures d == Steps.DependencyAt(View(), r.rule, r.index)
    {
      var ds := RuleInfoFor(r.rule).result.dependencies;
      if r.index < |ds| then ds[r.index] else Dependency(0, false, false)
    }

    /** `processRuleScanRequest`, on the request on top of the stack: some number of scan steps. */
    method ProcessRuleScanRequest() returns (ghost n: nat)
      requires Valid() && View().ruleInfosToScan != []
      modifies this, scanRecords
      ensures Valid() && n > 0 && ScansTo(client, old(View()), View(), n)
    {
      hide View, RecordsKept, OneEach, Reachable, Between, Scanning, Steps.ProcessScan, Held, Onward, ScansTo, Steps.TakeScan, Steps.PutBack;
      ghost var s := View();
      ghost var mid := s;
      ReachBetween(client, s);
      HeldFirst(client, s);
      var request := PopScan();
      HoldScan([request]);
      n := 0;
      while true
        invariant RecordsKept() && Held(client, s, mid, View(), request, n)
        decreases |Info(mid, request.rule).result.dependencies| - request.index
      {
        ghost var now := View();
        InBounds(client, s, mid, now, request, n);
        HandOneEach(client, s, mid, now, request, n);
        ScannedOnce(client, s, mid, now, request, n);
        var next := ScanNextInput(request);
        n := n + 1;
        OnwardMeans(client, s, mid, now, View(), request, next, n);
        if next.None? {
          ReachScans(client, s, View(), n);
          return;
        }
        mid := Steps.PutBack(View(), next.value);
        request := next.value;
      }
    }

    // ---- One input request ------------------------------------------------------------------------------

    /** Records the dependency of the requesting task. */
    method RecordDependency(r: InputRequest, t: KeyID)
      modifies this`ruleInfos, this`taskInfos, this`curInput
      ensures View() == Steps.Recorded(old(View()), r, t)
    {
      hide View;
      var info := RuleInfoFor(t);
      var task := TaskInfoFor(t);
      HoldInput([]);
      SetRule(t, info.(result := info.result.(dependencies := info.result.dependencies + [Dependency(r.input, r.orderOnly, r.singleUse)])));
      PutTask(t, task.(recorded := task.recorded + [r.id]));
    }

    method RecordRequest(r: InputRequest, t: KeyID)
      modifies this`ruleInfos, this`taskInfos, this`curInput, this`finishedInputRequests, this`requestedBy
      ensures View() == Steps.Record(old(View()), r, t)
    {
      hide View;
      ghost var s := View();
      var available := IsComplete(r.input);
      var waiting := InputsRequestedFrom(r.input);
      RecordedKeeps(s, r, t);
      RecordDependency(r, t);
      hide Steps.Recorded;
      if available { PushFinishedInput(r); } else { SetRequestedBy(r.input, waiting + [r]); }
    }

    /** The processing of one input request in `executeTasks`. */
    method ProcessInputRequest()
      requires Valid() && View().inputRequests != []
      modifies this, scanRecords
      ensures Valid() && View() == Steps.InputOne(client, old(View()))
    {
      hide View, RecordsKept, OneEach, Steps.ScanRule, Steps.DemandRule, Steps.Record, Reachable, Scanning, IsScanned, CompleteNow;
      ghost var s := View();
      ReachNext(client, s, Steps.DoInput);
      ReachOneEach(client, s);
      var r := PopInput();
      HoldInput([r]);
      TakenOneEach(s, View());
      var scanned := ScanRule(r.input);
      NotScannedTwice(View(), r.input);
      if !scanned {
        HasRecord(View(), r.input);
        HoldInput([]);
        ParkInputOnScan(r.input, r);
        return;
      }
      var available := DemandRule(r.input);
      if r.task.None? {
        HoldInput([]);
        return;
      }
      RecordRequest(r, r.task.value);
    }

    // ---- Answers, ready tasks, reports --------------------------------------------------------------------

    /** `decrementTaskWaitCount`, after the task has been given its input. */
    method DecrementTaskWaitCount(t: KeyID)
      requires t in View().tasks
      modifies this`taskInfos, this`readyTaskInfos, this`readied
      ensures var s := old(View()); var task := s.tasks[t].(waitCount := s.tasks[t].waitCount - 1);
        View() == s.(tasks := s.tasks[t := task],
                     readyTaskInfos := Steps.PushIf(s.readyTaskInfos, t, task.waitCount == 0),
                     readied := Steps.PushIf(s.readied, t, task.waitCount == 0))
    {
      hide View;
      var task := TaskInfoFor(t);
      PutTask(t, task.(waitCount := task.waitCount - 1));
      if task.waitCount == 1 { PushReady(t); }
    }

    /** The task receives an input, asks for more, and has one input less to wait for. */
    method ProvideInput(r: InputRequest, t: KeyID, got: seq<Delivery>, asks: seq<Dependency>)
      requires t in View().tasks
      modifies this`taskInfos, this`inputRequests, this`readyTaskInfos, this`readied
      ensures View() == Provided(old(View()), r, t, got, asks)
    {
      hide View, Steps.Requests, Steps.PushIf, Steps.Asking;
      var task := TaskInfoFor(t);
      PutTask(t, task.(delivered := task.delivered + [r.id], got := got));
      AskFor(t, asks);
      DecrementTaskWaitCount(t);
    }

    /** The processing of one finished input request. */
    method ProcessFinishedInputRequest()
      requires Valid() && View().finishedInputRequests != []
      modifies this
      ensures Valid() && View() == Steps.DeliverOne(client, old(View()))
    {
      hide View, Reachable, Steps.GotAfter, Steps.AsksAfter, Steps.Deliver, Provided;
      ghost var s := View();
      ReachNext(client, s, Steps.DoDeliver);
      AnswersTask(client, s);
      var r := PopFinishedInput();
      var t := r.task.value;
      AnswerIs(client, s, View(), r, t);
      var got := if r.orderOnly then TaskInfoFor(t).got else TaskInfoFor(t).got + [Delivery(r.input, RuleInfoFor(r.input).result.value)];
      var asks := if r.orderOnly then [] else client.onValue(Epoch(), t, got);
      DeliverSplit(s, r, t, got, asks);
      ProvideInput(r, t, got, asks);
    }

    /** The processing of one ready task. */
    method ProcessReadyTask()
      requires Valid() && View().readyTaskInfos != []
      modifies this
      ensures Valid() && View() == Steps.ReadyOne(old(View()))
    {
      hide View, RecordsKept, Reachable, Steps.AllReported, Computing, Idle, Quiet;
      ReachNext(client, View(), Steps.DoReady);
      var t := PopReady();
      SetRule(t, RuleInfoFor(t).(phase := InProgressComputing));
      AddOutstanding(1);
    }

    method Report(t: KeyID, value: Value, forceChange: bool, found: seq<Delivery>)
      modifies this`ruleInfos, this`taskInfos, this`finishedTaskInfos
      ensures View() == Steps.TaskIsComplete(client, old(View()), t, value, forceChange, found)
    {
      hide View, Steps.Discovered;
      var info := RuleInfoFor(t);
      var task := TaskInfoFor(t);
      var res := info.result.(signature := client.signature(Epoch(), t), used := task.got + found, ranAt := Epoch());
      if forceChange || value != res.value {
        res := res.(value := value, computedAt := Epoch());
      }
      SetRule(t, info.(result := res));
      PutTask(t, task.(discovered := Steps.Discovered(found)));
      PushFinished(t);
    }

    /** `taskDiscoveredDependency` for each of `found`, then `taskIsComplete`. Either refuses a task
        that is not computing, and cancels the build; the source expects one report of each task. */
    method TaskIsComplete(t: KeyID, value: Value, forceChange: bool, found: seq<Delivery>) returns (accepted: bool)
      requires Valid() && t !in View().finishedTaskInfos
      modifies this
      ensures Valid() && accepted == Computing(old(View()), t) && buildCancelled == (old(buildCancelled) || !accepted)
      ensures View() == if accepted then Steps.TaskIsComplete(client, old(View()), t, value, forceChange, found) else old(View())
    {
      hide View, Reachable, Steps.TaskIsComplete;
      accepted := RuleInfoFor(t).phase.InProgressComputing?;
      if accepted {
        ReachNext(client, View(), Steps.DoTaskIsComplete(t, value, forceChange, found));
        Report(t, value, forceChange, found);
      } else {
        RefuseReport();
      }
    }

    method RefuseReport()
      modifies this`buildCancelled
      ensures buildCancelled && View() == old(View())
    {
      buildCancelled := true;
    }

    // ---- Finished tasks -------------------------------------------------------------------------------------

    /** The rule becomes complete, its discovered dependencies are requested, and its result is stored. */
    method CompleteTask(t: KeyID, found: seq<Dependency>)
      modifies this`ruleInfos, this`inputRequests, this`db
      ensures View() == Completed(old(View()), t, found)
    {
      hide View, Steps.Dummies;
      var info := RuleInfoFor(t);
      var res := info.result.(builtAt := Epoch(), dependencies := info.result.dependencies + found);
      SetRule(t, info.(phase := Complete, result := res));
      WakeInputs(Steps.Dummies(found));
      Store(t, res);
    }

    method WakeFinishedInputs(rs: seq<InputRequest>)
      modifies this`finishedInputRequests
      ensures View() == old(View()).(finishedInputRequests := old(View()).finishedInputRequests + rs)
    {
      hide View;
      ghost var s := View();
      for i := 0 to |rs|
        invariant View() == s.(finishedInputRequests := s.finishedInputRequests + rs[..i])
      {
        assert rs[..i + 1] == rs[..i] + [rs[i]];
        PushFinishedInput(rs[i]);
      }
      assert rs[..|rs|] == rs;
    }

    /** Wakes everything that waits for the task, and deletes it. */
    method RetireTask(t: KeyID)
      modifies this`ruleInfosToScan, this`finishedInputRequests, this`numOutstandingUnfinishedTasks, this`taskInfos, this`requestedBy, this`deferredOnTasks
      ensures View() == Retired(old(View()), t)
    {
      hide View;
      var scans := ScansDeferredOnTask(t);
      var inputs := InputsRequestedFrom(t);
      WakeScans(scans);
      WakeFinishedInputs(inputs);
      AddOutstanding(-1);
      DropTask(t);
      CloseLists(t);
    }

    /** The processing of one finished task. */
    method ProcessFinishedTask()
      requires Valid() && View().finishedTaskInfos != []
      modifies this
      ensures Valid() && View() == Steps.FinishOne(old(View()))
    {
      hide View, Reachable, Completed, Retired, Steps.FinishOne, Steps.KeysOf;
      ghost var s := View();
      ReachNext(client, s, Steps.DoFinish);
      FinishSplit(s);
      var t := PopFinished();
      var found := TaskInfoFor(t).discovered;
      assert found == TaskOf(s, t).discovered by { SameTask(s, View(), t); }
      CompleteTask(t, found);
      RetireTask(t);
      NoteOwed(Steps.KeysOf(found));
    }

    // ---- Breaking cycles --------------------------------------------------------------------------------------

    /** `breakCycle`, by forcing a scanning rule. */
    method ForceRule(k: KeyID)
      requires Valid() && Idle(View()) && Scanning(View(), k)
      modifies this, scanRecords
      ensures Valid() && View() == Steps.ForceBuild(old(View()), k)
    {
      ReachOneEach(client, View());
      HasRecord(View(), k);
      hide View, RecordsKept, OneEach, Reachable, Steps.FinishScan, Steps.ForceBuild;
      ghost var s := View();
      ReachNext(client, s, Steps.DoForceBuild(k));
      ForceSplit(s, k);
      FinishScanRequest(k, NeedsToRun);
      SetRule(k, RuleInfoFor(k).(wasForced := true));
      NoteBroken();
    }

    /** `breakCycle`, by supplying the prior value of `k` to the request at position `i`. */
    method SupplyValue(k: KeyID, i: nat)
      requires Valid() && Idle(View()) && Waiting(View(), k) && Info(View(), k).result.builtAt != 0 && i < |At(View().requestedBy, k)|
      modifies this
      ensures Valid() && View() == Steps.SupplyPriorValue(old(View()), k, i)
    {
      hide View, Reachable;
      ReachNext(client, View(), Steps.DoSupplyPriorValue(k, i));
      var rs := InputsRequestedFrom(k);
      SetRequestedBy(k, rs[..i] + rs[i + 1..]);
      PushFinishedInput(rs[i].(forcePriorValue := true));
      NoteBroken();
    }

    /** `findTaskInputRequestForRule`: the first request of task `t`, if any. */
    static method FindRequest(rs: seq<InputRequest>, t: KeyID) returns (r: Option<nat>)
      ensures r.Some? ==> r.value < |rs| && rs[r.value].task == Some(t) && forall j :: 0 <= j < r.value ==> rs[j].task != Some(t)
      ensures r.None? ==> forall j :: 0 <= j < |rs| ==> rs[j].task != Some(t)
    {
      for i := 0 to |rs|
        invariant forall j :: 0 <= j < i ==> rs[j].task != Some(t)
      {
        if rs[i].task == Some(t) { return Some(i); }
      }
      r := None;
    }

    /** `breakCycle`: goes back along the cycle to a rule that can be forced, or whose prior value can
        be supplied, and asks the delegate. Whatever it does is one step of the engine. It reads past
        the end of the list if and only if it comes to the first rule, and that waits and has an
        earlier result. */
    method BreakCycle(cycleList: seq<KeyID>, shouldResolve: (KeyID, bool) -> bool) returns (outcome: Breaking, ghost step: Steps.Step)
      requires Valid() && Idle(View())
      modifies this, scanRecords
      ensures Valid()
      ensures outcome.Broken? ==> (step.DoForceBuild? || step.DoSupplyPriorValue?) && Steps.Enabled(old(View()), step)
      ensures View() == if outcome.Broken? && Steps.Enabled(old(View()), step) then Steps.Apply(client, old(View()), step) else old(View())
      ensures outcome.Broken? ==> exists i: nat ::
        LastResolvable(old(View()), cycleList, i) && shouldResolve(cycleList[i], Scanning(old(View()), cycleList[i]))
        && Resolves(old(View()), cycleList, i, step)
      ensures !outcome.Broken? ==> forall i: nat ::
        LastResolvable(old(View()), cycleList, i) ==> !shouldResolve(cycleList[i], Scanning(old(View()), cycleList[i]))
      ensures outcome.ReadPastTheEnd? <==> PastTheEnd(old(View()), cycleList)
    {
      hide View, RecordsKept, Reachable, Steps.ForceBuild, Steps.SupplyPriorValue, Idle;
      ghost var s := View();
      step := Steps.DoCancel;
      var i := |cycleList|;
      while i > 0
        invariant 0 <= i <= |cycleList| && View() == s && Valid()
        invariant forall j :: i <= j < |cycleList| ==> !Resolvable(s, cycleList, j)
        invariant i == 0 ==> !PastTheEnd(s, cycleList)
      {
        i := i - 1;
        var k := cycleList[i];
        var info := RuleInfoFor(k);
        assert Resolvable(s, cycleList, i) ==> LastResolvable(s, cycleList, i);
        if Resolvable(s, cycleList, i) {
          OneLast(s, cycleList, i);
          assert i > 0 ==> !PastTheEnd(s, cycleList);
        }
        if info.phase.IsScanning? {
          if !shouldResolve(k, true) { return NotBroken, step; }
          step := Steps.DoForceBuild(k);
          ForceRule(k);
          return Broken, step;
        }
        if info.phase.InProgressWaiting? && info.result.builtAt != 0 {
          if i == 0 { return ReadPastTheEnd, step; }
          var found := FindRequest(InputsRequestedFrom(k), cycleList[i - 1]);
          if found.Some? {
            if !shouldResolve(k, false) { return NotBroken, step; }
            step := Steps.DoSupplyPriorValue(k, found.value);
            SupplyValue(k, found.value);
            return Broken, step;
          }
        }
      }
      outcome := NotBroken;
    }

    /** `findCycle`, from the key that was asked for. */
    method FindCycleFrom(root: KeyID) returns (cycleList: seq<KeyID>)
      ensures cycleList == [] <==> !ReachesCycle(View(), root)
      ensures cycleList != [] ==> cycleList[0] == root && Walk(View(), cycleList) && Steps.Last(cycleList) in Steps.Front(cycleList)
    {
      hide ReachesCycle, Walk;
      cycleList := FindWaitCycle(requestedBy, deferredOnTasks, PausedInputRequests(), DeferredScanRequests(), View(), root);
    }

    /** `resolveCycle`, when no work is left, no task computes, and tasks are left: a cycle is found, as
        the source asserts, if the key is not complete; and before a cycle has been broken in this
        build, only then. */
    method ResolveCycle(root: KeyID, shouldResolve: (KeyID, bool) -> bool) returns (outcome: Breaking, cycleList: seq<KeyID>)
      requires Valid() && Stuck(View()) && root in View().owed && View().tasks != map[]
      modifies this, scanRecords
      ensures Valid() && (!CompleteNow(old(View()), root) ==> cycleList != [])
      ensures !old(View()).broken ==> (cycleList != [] <==> !CompleteNow(old(View()), root))
      ensures cycleList != [] ==> cycleList[0] == root && Walk(old(View()), cycleList) && Steps.Last(cycleList) in Steps.Front(cycleList)
      ensures !outcome.Broken? ==> View() == old(View())
      ensures outcome.ReadPastTheEnd? <==> PastTheEnd(old(View()), cycleList)
    {
      hide View, RecordsKept, Reachable, Walk, ReachesCycle, CompleteNow, PastTheEnd;
      ghost var s := View();
      CycleIffIncomplete(client, s, root);
      cycleList := FindCycleFrom(root);
      assert Idle(s) by { StuckIdle(s); }
      ghost var step;
      outcome, step := BreakCycle(cycleList, shouldResolve);
    }

    // ---- Cancelling ---------------------------------------------------------------------------------------------

    method SetRules(rules: map<KeyID, RuleInfo>)
      modifies this`ruleInfos
      ensures View() == old(View()).(rules := rules)
    {
      ruleInfos := rules;
    }

    method ClearTasks()
      modifies this`taskInfos
      ensures View() == old(View()).(tasks := map[])
    {
      taskInfos := map[];
    }

    method ClearLists()
      modifies this`requestedBy, this`deferredOnTasks
      ensures View() == old(View()).(requestedBy := map[], taskDeferred := map[])
    {
      requestedBy, deferredOnTasks := map[], map[];
    }

    function KnownRules(): (r: set<KeyID>)
      reads this, scanRecords
      ensures r == View().rules.Keys
    {
      ruleInfos.Keys
    }

    /** Frees the scan record of every scanning rule. */
    method FreeScanRecords()
      requires RecordsKept() && OneEach(View())
      modifies scanRecords
      ensures RecordsKept() && View() == old(View()).(paused := map[], deferred := map[])
    {
      hide View, RecordsKept, OneEach;
      ghost var s := View();
      var todo := KnownRules();
      ghost var gone: set<KeyID> := {};
      RulesKnown(s);
      NoneGone(s);
      while exists k :: k in todo
        invariant RecordsKept() && View() == s.(paused := s.paused - gone, deferred := s.deferred - gone)
        invariant forall k :: k in s.paused && k !in gone ==> k in todo
        invariant forall k :: k in todo ==> k !in gone
        decreases todo
      {
        var k :| k in todo;
        OneGone(s, gone, k);
        if RuleInfoFor(k).phase.IsScanning? {
          FreeScanRecord(k);
          gone := gone + {k};
        }
        todo := todo - {k};
      }
      AllGone(s, gone);
    }

    method ClearRequests()
      modifies this`ruleInfosToScan, this`inputRequests
      ensures View() == old(View()).(ruleInfosToScan := [], inputRequests := [])
    {
      ruleInfosToScan, inputRequests := [], [];
    }

    method ClearFinishedInputs()
      modifies this`finishedInputRequests, this`readyTaskInfos
      ensures View() == old(View()).(finishedInputRequests := [], readyTaskInfos := [])
    {
      finishedInputRequests, readyTaskInfos := [], [];
    }

    ghost method NoteNothingDone(ks: set<KeyID>)
      modifies this`created, this`readied, this`owed
      ensures View() == old(View()).(created := [], readied := [], owed := ks)
    {
      created := [];
      readied := [];
      owed := ks;
    }

    ghost method NoteTidy(t: bool)
      modifies this`tidy
      ensures View() == old(View()).(tidy := t)
    {
      tidy := t;
    }

    ghost method NoteCancelled()
      modifies this`cancelled
      ensures View() == old(View()).(cancelled := true)
    {
      cancelled := true;
    }

    ghost method NoteBuilding()
      modifies this`building, this`broken
      ensures View() == old(View()).(building := true, broken := false)
    {
      building, broken := true, false;
    }

    /** The reports that come in while the engine waits. */
    method Receive(batch: seq<Completion>, ghost s: State, ghost got: seq<Completion>)
      requires View() == Left(Told(client, s, got), finishedTaskInfos, numOutstandingUnfinishedTasks)
      modifies this`ruleInfos, this`taskInfos, this`finishedTaskInfos
      ensures |finishedTaskInfos| == old(|finishedTaskInfos|) + |batch|
      ensures View() == Left(Told(client, s, got + batch), finishedTaskInfos, numOutstandingUnfinishedTasks)
    {
      hide Told, Steps.TaskIsComplete, Steps.Discovered;
      assert got + batch[..0] == got;
      for i := 0 to |batch|
        invariant |finishedTaskInfos| == old(|finishedTaskInfos|) + i
        invariant View() == Left(Told(client, s, got + batch[..i]), finishedTaskInfos, numOutstandingUnfinishedTasks)
      {
        var u := batch[i];
        ghost var t := Told(client, s, got + batch[..i]);
        ToldOne(client, s, got, batch, i);
        ApartFromCount(client, t, u, finishedTaskInfos, numOutstandingUnfinishedTasks);
        Report(u.task, u.value, u.force, u.found);
      }
      assert batch[..|batch|] == batch;
    }

    method TakeReports(ghost t: State)
      requires View() == Left(t, finishedTaskInfos, numOutstandingUnfinishedTasks) && |finishedTaskInfos| <= numOutstandingUnfinishedTasks
      modifies this`finishedTaskInfos, this`numOutstandingUnfinishedTasks
      ensures finishedTaskInfos == [] && numOutstandingUnfinishedTasks == old(numOutstandingUnfinishedTasks) - old(|finishedTaskInfos|)
      ensures View() == Left(t, finishedTaskInfos, numOutstandingUnfinishedTasks)
    {
      numOutstandingUnfinishedTasks := numOutstandingUnfinishedTasks - |finishedTaskInfos|;
      finishedTaskInfos := [];
    }

    /** Waits for the outstanding tasks. Each turn, some tasks report; what is in the queue is then
        taken off the counter and thrown away. The counter never gets below the number of reports in
        the queue, and reaches zero when the last outstanding task has reported. */
    method Drain(batches: seq<seq<Completion>>)
      requires var t := Told(client, View(), Flat(batches)); t.numOutstanding == |t.finishedTaskInfos|
      modifies this`ruleInfos, this`taskInfos, this`finishedTaskInfos, this`numOutstandingUnfinishedTasks
      ensures View() == Left(Told(client, old(View()), Flat(batches)), [], 0)
    {
      ghost var s := View();
      assert View() == Left(s, finishedTaskInfos, numOutstandingUnfinishedTasks);
      hide Told, Flat, View, Left;
      ToldCount(client, s, Flat(batches));
      FlatNone(batches);
      ToldNone(client, s);
      var i := 0;
      while numOutstandingUnfinishedTasks != 0
        invariant i <= |batches|
        invariant View() == Left(Told(client, s, Flat(batches[..i])), finishedTaskInfos, numOutstandingUnfinishedTasks)
        invariant numOutstandingUnfinishedTasks - |finishedTaskInfos| == |Flat(batches)| - |Flat(batches[..i])|
        decreases |batches| - i, |finishedTaskInfos|
      {
        FlatPrefix(batches, i);
        if i < |batches| {
          FlatOne(batches, i);
          FlatPrefix(batches, i + 1);
          Receive(batches[i], s, Flat(batches[..i]));
          i := i + 1;
        }
        if finishedTaskInfos != [] {
          TakeReports(Told(client, s, Flat(batches[..i])));
        }
      }
      FlatPrefix(batches, i);
      assert Flat(batches[..i]) == Flat(batches);
    }

    /** `cancelRemainingTasks`. Every outstanding task reports, once, while it waits. */
    method CancelRemainingTasks(batches: seq<seq<Completion>>)
      requires Valid() && Welcome(client, View(), Flat(batches)) && Steps.AllReported(Told(client, View(), Flat(batches)))
      modifies this, scanRecords
      ensures Valid() && View() == Steps.Cancel(Told(client, old(View()), Flat(batches)))
    {
      hide View, RecordsKept, Reachable, OneEach, Steps.CancelledRules, Steps.AllReported, Told, Welcome, Flat;
      ghost var s := Told(client, View(), Flat(batches));
      ToldReachable(client, View(), Flat(batches));
      ReachNext(client, s, Steps.DoCancel);
      ReachOneEach(client, s);
      CountReports(client, s);
      Drain(batches);
      TakenOneEach(s, View());
      FreeScanRecords();
      var rules := CancelledRuleInfos();
      CancelledSame(s, View());
      SetRules(rules);
      ClearTasks();
      ClearLists();
      ClearRequests();
      ClearFinishedInputs();
      NoteNothingDone({});
      NoteCancelled();
      NoteTidy(false);
    }

    /** Marks every task's rule, and then every scanning rule, as incomplete. */
    method CancelledRuleInfos() returns (infos: map<KeyID, RuleInfo>)
      ensures infos == Steps.CancelledRules(View())
    {
      infos := ruleInfos;
      var todo := taskInfos.Keys;
      while exists k :: k in todo
        invariant infos.Keys == ruleInfos.Keys
        invariant forall k :: k in infos ==>
          infos[k] == if k in taskInfos && k !in todo then ruleInfos[k].(phase := Incomplete) else ruleInfos[k]
        decreases todo
      {
        var k :| k in todo;
        if k in infos { infos := infos[k := infos[k].(phase := Incomplete)]; }
        todo := todo - {k};
      }
      todo := ruleInfos.Keys;
      while exists k :: k in todo
        invariant infos.Keys == ruleInfos.Keys
        invariant forall k :: k in infos ==>
          infos[k] == if k in taskInfos || (k !in todo && ruleInfos[k].phase.IsScanning?) then ruleInfos[k].(phase := Incomplete) else ruleInfos[k]
        decreases todo
      {
        var k :| k in todo;
        if k in infos && infos[k].phase.IsScanning? { infos := infos[k := infos[k].(phase := Incomplete)]; }
        todo := todo - {k};
      }
      AreCancelled(View(), infos);
    }

    // ---- Builds ---------------------------------------------------------------------------------------------------

    /** `build`, up to the first turn of `executeTasks`. */
    method Begin(root: KeyID)
      requires Valid() && Quiet(View())
      modifies this
      ensures Valid() && View() == Steps.StartBuild(old(View()), root)
    {
      hide View, Reachable, Verdict;
      ghost var s := View();
      ReachNext(client, s, Steps.DoStartBuild(root));
      NextEpoch();
      PushInput(Steps.Dummy(Dependency(root, false, false)));
      NoteNothingDone({root});
      NoteBuilding();
      NoteTidy(forall k :: k in s.rules ==> !Verdict(s, k));
    }

    /** The end of `build`: the blocks of scan records are deleted, whoever may still point to them. What
        is left is in order if and only if no rule is scanning. */
    method EndBuild()
      requires Valid()
      modifies scanRecords
      ensures Valid() <==> forall k :: !Scanning(old(View()), k)
      ensures Valid() ==> View() == old(View())
    {
      EachScanOwnsItsRecord();
      ghost var s := View();
      ghost var p := scanRecords.pending;
      scanRecords.Clear();
      if forall k :: k !in p {
        EmptyMap(p);
        NoneParked(scanRecords.records);
        assert View() == s;
      }
    }

    method NextEpoch()
      modifies this`currentEpoch
      ensures View() == old(View()).(epoch := old(View()).epoch + 1)
    {
      currentEpoch := currentEpoch + 1;
    }
  }

  // ---- Reports that come in while the engine waits ------------------------------------------------

  /** What a task tells the engine when it is done. */
  datatype Completion = Completion(task: KeyID, value: Value, force: bool, found: seq<Delivery>)

  ghost function Flat(batches: seq<seq<Completion>>): seq<Completion> {
    if batches == [] then [] else Flat(Steps.Front(batches)) + Steps.Last(batches)
  }

  /** The state after these reports. */
  ghost function Told(c: Client, s: State, rs: seq<Completion>): State {
    if rs == [] then s else Complete1(c, Told(c, s, Steps.Front(rs)), Steps.Last(rs))
  }

  ghost function Complete1(c: Client, s: State, u: Completion): State {
    Steps.TaskIsComplete(c, s, u.task, u.value, u.force, u.found)
  }

  /** Each report is of a task that is computing and has not reported before. */
  ghost predicate Welcome(c: Client, s: State, rs: seq<Completion>) {
    rs == [] || (Welcome(c, s, Steps.Front(rs)) && CanBeTold(Told(c, s, Steps.Front(rs)), Steps.Last(rs).task))
  }

  ghost predicate CanBeTold(s: State, t: KeyID) {
    Computing(s, t) && t !in s.finishedTaskInfos
  }

  lemma {:induction false} ToldReachable(c: Client, s: State, rs: seq<Completion>)
    requires Reachable(c, s) && Welcome(c, s, rs)
    ensures Reachable(c, Told(c, s, rs))
    decreases |rs|
  {
    hide Reachable, Computing, Steps.TaskIsComplete;
    if rs != [] {
      var u := Steps.Last(rs);
      ToldReachable(c, s, Steps.Front(rs));
      ReachNext(c, Told(c, s, Steps.Front(rs)), Steps.DoTaskIsComplete(u.task, u.value, u.force, u.found));
    }
  }

  lemma {:induction false} ToldCount(c: Client, s: State, rs: seq<Completion>)
    ensures Told(c, s, rs).numOutstanding == s.numOutstanding
    ensures |Told(c, s, rs).finishedTaskInfos| == |s.finishedTaskInfos| + |rs|
    decreases |rs|
  {
    if rs != [] { ToldCount(c, s, Steps.Front(rs)); }
  }

  lemma ToldNone(c: Client, s: State)
    ensures Told(c, s, []) == s
  {
  }

  lemma ToldOne(c: Client, s: State, got: seq<Completion>, batch: seq<Completion>, i: nat)
    requires i < |batch|
    ensures Told(c, s, got + batch[..i + 1]) == Complete1(c, Told(c, s, got + batch[..i]), batch[i])
  {
    hide Complete1;
    var rs := got + batch[..i + 1];
    assert Steps.Front(rs) == got + batch[..i] && Steps.Last(rs) == batch[i];
  }

  /** The state `s`, with these reports left in the queue and this left of the counter. */
  ghost function Left(s: State, queue: seq<KeyID>, n: int): State {
    s.(finishedTaskInfos := queue, numOutstanding := n)
  }

  /** A report does the same whatever the counter is and whatever else is in the queue. */
  lemma ApartFromCount(c: Client, s: State, u: Completion, queue: seq<KeyID>, n: int)
    ensures Complete1(c, Left(s, queue, n), u) == Left(Complete1(c, s, u), queue + [u.task], n)
  {
  }

  lemma FlatNone(batches: seq<seq<Completion>>)
    ensures Flat(batches[..0]) == []
  {
  }

  lemma FlatOne(batches: seq<seq<Completion>>, i: nat)
    requires i < |batches|
    ensures Flat(batches[..i + 1]) == Flat(batches[..i]) + batches[i]
  {
    assert Steps.Front(batches[..i + 1]) == batches[..i];
  }

  lemma {:induction false} FlatPrefix(batches: seq<seq<Completion>>, i: nat)
    requires i <= |batches|
    ensures Flat(batches[..i]) <= Flat(batches)
    ensures i == |batches| ==> Flat(batches[..i]) == Flat(batches)
    decreases |batches| - i
  {
    hide Flat;
    if i == |batches| {
      assert batches[..i] == batches;
    } else {
      FlatOne(batches, i);
      FlatPrefix(batches, i + 1);
    }
  }

  lemma CancelledSame(s: State, s': State)
    requires s'.rules == s.rules && s'.tasks == s.tasks
    ensures Steps.CancelledRules(s') == Steps.CancelledRules(s)
  {
  }

  lemma AreCancelled(s: State, infos: map<KeyID, RuleInfo>)
    requires infos.Keys == s.rules.Keys
    requires forall k :: k in infos ==>
      infos[k] == if k in s.tasks || s.rules[k].phase.IsScanning? then s.rules[k].(phase := Incomplete) else s.rules[k]
    ensures infos == Steps.CancelledRules(s)
  {
    var r := Steps.CancelledRules(s);
    assert infos.Keys == r.Keys;
    forall k | k in infos.Keys ensures infos[k] == r[k] { assert k in infos && k in r; }
  }

  lemma StuckIdle(s: State)
    requires Stuck(s)
    ensures Idle(s)
  {
  }

  lemma CycleIffIncomplete(c: Client, s: State, root: KeyID)
    requires Reachable(c, s) && Stuck(s) && root in s.owed && s.tasks != map[]
    ensures !CompleteNow(s, root) ==> ReachesCycle(s, root)
    ensures !s.broken ==> (ReachesCycle(s, root) <==> !CompleteNow(s, root))
  {
    hide Steps.Legal, Steps.Exec, Stuck, ReachesCycle, CompleteNow;
    var steps :| Steps.Legal(c, steps) && Steps.Exec(c, steps) == s;
    CycleFoundIff(c, steps, root);
  }

  /** If every computing task has reported, the counter is the number of reports. */
  lemma CountReports(c: Client, s: State)
    requires Reachable(c, s) && Steps.AllReported(s)
    ensures s.numOutstanding == |s.finishedTaskInfos|
  {
    hide Reachable;
    ReachBetween(c, s);
    BetweenParts(c, s);
    OutstandingNow(s);
    hide Between, RequestsOk, CountsOk, TasksOk, OwnersOk, VerdictsOk, OwedOk, NoDuplicates;
    AtMostReported(ComputingSet(s), s.finishedTaskInfos);
  }

  lemma {:induction false} AtMostReported(ks: set<KeyID>, xs: seq<KeyID>)
    requires forall k :: k in ks ==> k in xs
    ensures |ks| <= |xs|
    decreases |xs|
  {
    if xs == [] {
      assert forall k :: k in ks <==> k in {};
      assert ks == {};
    } else {
      var x := Steps.Last(xs);
      assert xs == Steps.Front(xs) + [x];
      AtMostReported(ks - {x}, Steps.Front(xs));
      assert |ks| <= |ks - {x}| + 1;
    }
  }

  /** The three parts of finishing a task. */
  ghost function Completed(s: State, t: KeyID, found: seq<Dependency>): State {
    var ri := Info(s, t);
    var res := ri.result.(builtAt := s.epoch, dependencies := ri.result.dependencies + found);
    s.(rules := s.rules[t := ri.(phase := Complete, result := res)], inputRequests := s.inputRequests + Steps.Dummies(found), db := s.db[t := res])
  }

  ghost function Retired(s: State, t: KeyID): State {
    s.(ruleInfosToScan := s.ruleInfosToScan + At(s.taskDeferred, t),
       finishedInputRequests := s.finishedInputRequests + At(s.requestedBy, t),
       numOutstanding := s.numOutstanding - 1,
       tasks := s.tasks - {t}, requestedBy := s.requestedBy - {t}, taskDeferred := s.taskDeferred - {t})
  }

  lemma FinishSplit(s: State)
    requires s.finishedTaskInfos != []
    ensures var t := Steps.Last(s.finishedTaskInfos); var found := TaskOf(s, t).discovered;
      var s' := Retired(Completed(s.(finishedTaskInfos := Steps.Front(s.finishedTaskInfos)), t, found), t);
      Steps.FinishOne(s) == s'.(owed := s'.owed + Steps.KeysOf(found))
  {
    hide Steps.Dummies, Steps.KeysOf;
  }

  lemma SameTask(s: State, s': State, t: KeyID)
    requires s'.tasks == s.tasks
    ensures TaskOf(s', t) == TaskOf(s, t)
  {
  }

  lemma ForceSplit(s: State, k: KeyID)
    requires Idle(s)
    ensures var s1 := Steps.FinishScan(s, k, NeedsToRun);
      Steps.ForceBuild(s, k) == s1.(rules := s1.rules[k := Info(s1, k).(wasForced := true)], broken := true)
  {
    hide Steps.FinishScan;
    assert Steps.WithoutScansOf(s.ruleInfosToScan, k) == [];
    assert s.(ruleInfosToScan := []) == s;
  }

  lemma RecordedKeeps(s: State, r: InputRequest, t: KeyID)
    ensures var s' := Steps.Recorded(s, r, t); s'.finishedInputRequests == s.finishedInputRequests && s'.requestedBy == s.requestedBy
  {
  }

  /** What is answered is a request of a task. */
  lemma AnswersTask(c: Client, s: State)
    requires Reachable(c, s) && s.finishedInputRequests != []
    ensures var r := Steps.Last(s.finishedInputRequests); r.task.Some? && r.task.value in s.tasks
  {
    hide Reachable;
    ReachBetween(c, s);
    assert RequestsOk(s) by { Unpack(c, s); }
    hide Between;
    var r := Steps.Last(s.finishedInputRequests);
    assert r in s.finishedInputRequests;
    assert Live(s, r) && Answerable(s, r);
  }

  lemma AnswerIs(c: Client, s: State, s': State, r: InputRequest, t: KeyID)
    requires s.finishedInputRequests != [] && s' == s.(finishedInputRequests := Steps.Front(s.finishedInputRequests))
    ensures Info(s', r.input) == Info(s, r.input) && TaskOf(s', t) == TaskOf(s, t) && s'.epoch == s.epoch
    ensures Steps.GotAfter(s, r, t) == if r.orderOnly then TaskOf(s, t).got else TaskOf(s, t).got + [Delivery(r.input, Info(s, r.input).result.value)]
    ensures Steps.AsksAfter(c, s, r, t) == if r.orderOnly then [] else c.onValue(s.epoch, t, Steps.GotAfter(s, r, t))
  {
  }

  /** Receiving, then asking, then counting. */
  ghost function Provided(s: State, r: InputRequest, t: KeyID, got: seq<Delivery>, asks: seq<Dependency>): State
    requires t in s.tasks
  {
    var task := s.tasks[t].(delivered := s.tasks[t].delivered + [r.id], got := got);
    var asked := Steps.Asking(task, asks);
    var final := asked.(waitCount := asked.waitCount - 1);
    s.(tasks := s.tasks[t := task][t := asked][t := final],
       inputRequests := s.inputRequests + Steps.Requests(t, |task.asked|, asks),
       readyTaskInfos := Steps.PushIf(s.readyTaskInfos, t, final.waitCount == 0),
       readied := Steps.PushIf(s.readied, t, final.waitCount == 0))
  }

  lemma DeliverSplit(s: State, r: InputRequest, t: KeyID, got: seq<Delivery>, asks: seq<Dependency>)
    requires s.finishedInputRequests != [] && t in s.tasks
    ensures Steps.Deliver(s, r, t, got, asks) == Provided(s.(finishedInputRequests := Steps.Front(s.finishedInputRequests)), r, t, got, asks)
  {
    hide Steps.Requests, Steps.PushIf;
    var task := s.tasks[t].(delivered := s.tasks[t].delivered + [r.id], got := got);
    var asked := Steps.Asking(task, asks);
    var final := asked.(waitCount := asked.waitCount - 1);
    assert s.tasks[t := task][t := asked][t := final] == s.tasks[t := final];
  }

  /** After an iteration of the scan loop on `r`: it is over and has led to `goal`, or it goes on with
      the next dependency in hand, which is as good as putting it back on the stack. */
  ghost predicate Onward(s: State, s': State, r: ScanRequest, next: Option<ScanRequest>, goal: State) {
    if next.None? then s' == goal
    else
      && s'.curScan == [next.value] && Steps.PutBack(s', next.value) == goal
      && next.value.rule == r.rule && next.value.index == r.index + 1 && Info(s', r.rule) == Info(s, r.rule)
      && Scanning(s, r.rule)
  }

  lemma NotScannedTwice(s: State, k: KeyID)
    ensures !(IsScanned(s, k) && Scanning(s, k))
  {
  }

  /** A task has been created, but has not been started. */
  ghost function Opened(s: State, k: KeyID): State {
    s.(rules := s.rules[k := RuleInfo(InProgressWaiting, Info(s, k).result.(dependencies := []), Info(s, k).wasForced)],
       tasks := s.tasks[k := NEW_TASK],
       requestedBy := s.requestedBy[k := []],
       taskDeferred := s.taskDeferred[k := []],
       created := s.created + [k])
  }

  lemma LaunchSplit(s: State, k: KeyID, asks: seq<Dependency>)
    ensures var o := Opened(s, k);
      && k in o.tasks && o.tasks[k] == NEW_TASK && (Steps.Asking(NEW_TASK, asks).waitCount == 0 <==> asks == [])
      && Steps.LaunchTask(s, k, asks) ==
           o.(inputRequests := o.inputRequests + Steps.Requests(k, 0, asks), tasks := o.tasks[k := Steps.Asking(NEW_TASK, asks)],
              readyTaskInfos := Steps.PushIf(o.readyTaskInfos, k, asks == []), readied := Steps.PushIf(o.readied, k, asks == []))
  {
    hide Steps.Requests, Steps.PushIf;
    assert s.tasks[k := NEW_TASK][k := Steps.Asking(NEW_TASK, asks)] == s.tasks[k := Steps.Asking(NEW_TASK, asks)];
  }

  lemma LaunchMarks(s: State, k: KeyID, asks: seq<Dependency>)
    ensures !CompleteNow(Steps.LaunchTask(s, k, asks), k)
  {
    hide Steps.Requests;
  }

  /** A scanning rule does not change while another is scanned and demanded. */
  lemma StillTheSame(c: Client, s: State, k: KeyID, d: KeyID)
    requires Scanning(s, k)
    ensures var s2 := Steps.ScanRule(c, s, d);
      IsScanned(s2, d) ==> Info(Steps.DemandRule(c, s2, d), k) == Info(s, k) && Scanning(Steps.DemandRule(c, s2, d), k)
  {
    hide Steps.WithoutSingleUse, Steps.FirstLook, Steps.StartScan, Steps.LaunchTask, Steps.SetComplete;
    var s2 := Steps.ScanRule(c, s, d);
    if k != d {
      StartScanOthers(s, d, Steps.Cleaned(Info(s, d).result), Steps.FirstLook(c, s.epoch, d, Steps.Cleaned(Info(s, d).result)), k);
      LaunchOthers(s2, d, c.onStart(s2.epoch, d), k);
      CompleteOthers(s2, d, k);
      match Info(s2, d).phase case DoesNotNeedToRun => case NeedsToRun => case _ =>
    }
  }

  lemma HeldSame(s: State, k: KeyID, r: ScanRequest)
    ensures Info(s.(curScan := [r]), k) == Info(s, k)
  {
  }

  /** `mid` is `n` scan steps on from `s`, and `now` is `mid` with `r` taken off the stack. */
  ghost predicate Held(c: Client, s: State, mid: State, now: State, r: ScanRequest, n: nat) {
    && ScansTo(c, s, mid, n) && Reachable(c, s) && mid.ruleInfosToScan != []
    && now == Steps.TakeScan(mid) && r == Steps.Last(mid.ruleInfosToScan)
  }

  lemma InBounds(c: Client, s: State, mid: State, now: State, r: ScanRequest, n: nat)
    requires Held(c, s, mid, now, r, n)
    ensures Scanning(mid, r.rule) ==> r.index < |Info(mid, r.rule).result.dependencies|
    ensures Info(now, r.rule) == Info(mid, r.rule)
  {
    hide Reachable, ScansTo;
    ReachScans(c, s, mid, n);
    ReachBetween(c, mid);
    assert ScansOk(c, mid) by { Unpack(c, mid); }
    hide Between;
    assert r in mid.ruleInfosToScan;
    assert ScanOk(c, mid, r);
  }

  lemma HeldFirst(c: Client, s: State)
    requires Reachable(c, s) && Between(c, s) && s.ruleInfosToScan != []
    ensures var r := Steps.Last(s.ruleInfosToScan);
      Held(c, s, s, s.(ruleInfosToScan := Steps.Front(s.ruleInfosToScan)).(curScan := [r]), r, 0)
  {
    hide Reachable, Inv, Quiet;
  }

  lemma ScannedOnce(c: Client, s: State, mid: State, now: State, r: ScanRequest, n: nat)
    requires Held(c, s, mid, now, r, n)
    ensures Reachable(c, s) && ScansTo(c, s, Steps.ProcessScan(c, now, r), n + 1)
  {
    hide Steps.ProcessScan, Reachable;
    assert Steps.ScanOne(c, mid) == Steps.ProcessScan(c, now, r);
  }

  lemma OnwardMeans(c: Client, s: State, mid: State, now: State, s': State, r: ScanRequest, next: Option<ScanRequest>, n: nat)
    requires Onward(now, s', r, next, Steps.ProcessScan(c, now, r)) && Info(now, r.rule) == Info(mid, r.rule)
    requires Reachable(c, s) && ScansTo(c, s, Steps.ProcessScan(c, now, r), n)
    ensures next.None? ==> ScansTo(c, s, s', n)
    ensures next.Some? ==> Held(c, s, Steps.PutBack(s', next.value), s', next.value, n)
    ensures next.Some? ==> next.value.rule == r.rule && next.value.index == r.index + 1
    ensures next.Some? ==> Info(Steps.PutBack(s', next.value), r.rule) == Info(mid, r.rule)
    ensures next.Some? ==> Scanning(mid, r.rule)
  {
    hide Steps.ProcessScan, Reachable, ScansTo, Held;
    if next.Some? { HeldNext(c, s, s', next.value, n); }
  }

  lemma HeldNext(c: Client, s: State, now: State, next: ScanRequest, n: nat)
    requires Reachable(c, s) && ScansTo(c, s, Steps.PutBack(now, next), n) && now.curScan == [next]
    ensures Held(c, s, Steps.PutBack(now, next), now, next, n)
  {
    hide Reachable, ScansTo;
    var mid := Steps.PutBack(now, next);
    assert Steps.Front(mid.ruleInfosToScan) == now.ruleInfosToScan;
  }

  lemma StartScanMarks(s: State, k: KeyID, res: Result, look: Steps.Look)
    ensures var s' := Steps.StartScan(s, k, res, look); if look.MustScan? then Scanning(s', k) else IsScanned(s', k)
  {
    match look case MustRun => case MayStay => case MustScan(_) =>
  }

  lemma AskedLength(task: TaskInfo, asks: seq<Dependency>)
    ensures |Steps.Asking(task, asks).asked| == |task.asked| + |asks|
  {
  }
}
