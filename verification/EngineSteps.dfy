/** What each operation of the engine does, as a function of the state. */
module EngineSteps {
  import opened Options
  import opened EngineState

  // ---- Scanning ----------------------------------------------------------------------

  function WithoutSingleUse(ds: seq<Dependency>): (r: seq<Dependency>)
    ensures forall d :: d in r <==> d in ds && !d.singleUse
    ensures |r| <= |ds|
  {
    if ds == [] then []
    else if ds[|ds| - 1].singleUse then WithoutSingleUse(ds[..|ds| - 1])
    else WithoutSingleUse(ds[..|ds| - 1]) + [ds[|ds| - 1]]
  }

  function BeginScan(s: State, k: KeyID, ri: RuleInfo, needsToRun: bool): State {
    s.(rules := s.rules[k := ri],
       paused := s.paused[k := []],
       deferred := s.deferred[k := []],
       ruleInfosToScan := s.ruleInfosToScan + [ScanRequest(k, 0, None, false, needsToRun)])
  }

  /** What `scanRule` finds before looking at any dependency. */
  datatype Look = MustRun | MayStay | MustScan(needsToRun: bool)

  /** The tests of `scanRule`, with `scheduleChecksBeforeRunning` for a rule that must run. */
  function FirstLook(c: Client, epoch: nat, k: KeyID, res: Result): Look {
    if res.builtAt == 0 then MustRun
    else if c.signature(epoch, k) != res.signature || !c.isResultValid(epoch, k, res.value) then
      if c.checksBefore(epoch, k) && res.dependencies != [] then MustScan(true) else MustRun
    else if res.dependencies == [] then MayStay
    else MustScan(false)
  }

  function Cleaned(res: Result): Result {
    res.(dependencies := WithoutSingleUse(res.dependencies))
  }

  function StartScan(s: State, k: KeyID, res: Result, look: Look): State {
    match look
    case MustRun => SetInfo(s, k, RuleInfo(NeedsToRun, res, false))
    case MayStay => SetInfo(s, k, RuleInfo(DoesNotNeedToRun, res, false))
    case MustScan(n) => BeginScan(s, k, RuleInfo(IsScanning, res, false), n)
  }

  /** `scanRule`. Its return value is `IsScanned` of the new state. */
  function ScanRule(c: Client, s: State, k: KeyID): State {
    if IsScanned(s, k) || Scanning(s, k) then s
    else StartScan(s, k, Cleaned(Info(s, k).result), FirstLook(c, s.epoch, k, Cleaned(Info(s, k).result)))
  }

  /** `finishScanRequest`: wakes everything parked on the scan record. */
  function FinishScan(s: State, k: KeyID, phase: Phase): State {
    s.(rules := s.rules[k := Info(s, k).(phase := phase)],
       ruleInfosToScan := s.ruleInfosToScan + At(s.deferred, k),
       inputRequests := s.inputRequests + At(s.paused, k),
       deferred := s.deferred - {k},
       paused := s.paused - {k})
  }

  // ---- Tasks -------------------------------------------------------------------------

  function Requests(t: KeyID, base: nat, asks: seq<Dependency>): (r: seq<InputRequest>)
    ensures |r| == |asks|
  {
    seq(|asks|, i requires 0 <= i < |asks| =>
      InputRequest(Some(t), base + i, asks[i].key, asks[i].orderOnly, asks[i].singleUse, false))
  }

  /** `addTaskInputRequest`, for each of the inputs a callback asks for: the task's side. */
  function Asking(task: TaskInfo, asks: seq<Dependency>): TaskInfo {
    task.(waitCount := task.waitCount + |asks|,
          asked := task.asked + asks,
          seen := task.seen + seq(|asks|, _ => |task.delivered|))
  }

  function PushIf(ts: seq<KeyID>, t: KeyID, push: bool): seq<KeyID> {
    if push then ts + [t] else ts
  }

  /** A task is created and started, and asks for `asks`; with no inputs it is ready at once. */
  function LaunchTask(s: State, k: KeyID, asks: seq<Dependency>): State {
    s.(rules := s.rules[k := RuleInfo(InProgressWaiting, Info(s, k).result.(dependencies := []), Info(s, k).wasForced)],
       tasks := s.tasks[k := Asking(NEW_TASK, asks)],
       requestedBy := s.requestedBy[k := []],
       taskDeferred := s.taskDeferred[k := []],
       inputRequests := s.inputRequests + Requests(k, 0, asks),
       readyTaskInfos := PushIf(s.readyTaskInfos, k, asks == []),
       readied := PushIf(s.readied, k, asks == []),
       created := s.created + [k])
  }

  function SetComplete(s: State, k: KeyID): State {
    var ri := Info(s, k);
    SetInfo(s, k, ri.(phase := Complete, result := ri.result.(builtAt := s.epoch)))
  }

  /** `demandRule`, for a rule that has been scanned. Its return value is `CompleteNow` of the
      new state. */
  function DemandRule(c: Client, s: State, k: KeyID): State {
    match Info(s, k).phase
    case DoesNotNeedToRun => SetComplete(s, k)
    case NeedsToRun => LaunchTask(s, k, c.onStart(s.epoch, k))
    case _ => s
  }

  // ---- One scan request --------------------------------------------------------------

  function DependencyAt(s: State, k: KeyID, i: nat): Dependency {
    if i < |Info(s, k).result.dependencies| then Info(s, k).result.dependencies[i] else Dependency(0, false, false)
  }

  function Last<X>(xs: seq<X>): X requires xs != [] { xs[|xs| - 1] }

  function Front<X>(xs: seq<X>): seq<X> requires xs != [] { xs[..|xs| - 1] }

  /** Pops a scan request. */
  function TakeScan(s: State): State
    requires s.ruleInfosToScan != []
  {
    s.(curScan := [Last(s.ruleInfosToScan)], ruleInfosToScan := Front(s.ruleInfosToScan))
  }

  /** Looks up the dependency a scan request is at, unless it already has. */
  function LookUp(s: State, r: ScanRequest): ScanRequest {
    if r.input.Some? then r else
    var d := DependencyAt(s, r.rule, r.index);
    r.(input := Some(d.key), orderOnly := d.orderOnly)
  }

  function Next(r: ScanRequest): ScanRequest {
    r.(index := r.index + 1, input := None, orderOnly := false)
  }

  function PutBack(s: State, r: ScanRequest): State {
    s.(curScan := [], ruleInfosToScan := s.ruleInfosToScan + [r])
  }

  function FinishHand(s: State, k: KeyID, phase: Phase): State {
    FinishScan(s.(curScan := []), k, phase)
  }

  /** The scan moves to the next dependency. Going round the loop once more is the same as
      putting the request back on top of the stack: nothing was pushed since it was popped. */
  function Advance(s: State, r: ScanRequest): State {
    if r.index + 1 != |Info(s, r.rule).result.dependencies| then PutBack(s, Next(r))
    else FinishHand(s, r.rule, if r.needsToRun then NeedsToRun else DoesNotNeedToRun)
  }

  function DeferOnScan(s: State, r: ScanRequest, d: KeyID): State {
    s.(curScan := [], deferred := s.deferred[d := At(s.deferred, d) + [r]])
  }

  function DeferOnTask(s: State, r: ScanRequest, d: KeyID): State {
    s.(curScan := [], taskDeferred := s.taskDeferred[d := At(s.taskDeferred, d) + [r]])
  }

  predicate InputRebuilt(s: State, r: ScanRequest, d: KeyID) {
    !r.orderOnly && !r.needsToRun && Info(s, r.rule).result.builtAt < Info(s, d).result.computedAt
  }

  /** The input is available: compare timestamps. */
  function Conclude(c: Client, s: State, r: ScanRequest, d: KeyID): State {
    if !InputRebuilt(s, r, d) then Advance(s, r)
    else if c.checksBefore(s.epoch, r.rule) then Advance(s, r.(needsToRun := true))
    else FinishHand(s, r.rule, NeedsToRun)
  }

  predicate SkipsDependency(c: Client, s: State, r: ScanRequest) {
    r.input.None? && r.needsToRun && !c.mustCheck(s.epoch, r.rule, DependencyAt(s, r.rule, r.index).key)
  }

  /** The input of the request in hand is scanned, demanded, and compared. */
  function AfterLookUp(c: Client, s: State, r: ScanRequest, d: KeyID): State {
    var s2 := ScanRule(c, s, d);
    if Scanning(s2, d) then DeferOnScan(s2, r, d) else
    var s3 := DemandRule(c, s2, d);
    if CompleteNow(s3, d) then Conclude(c, s3, r, d) else DeferOnTask(s3, r, d)
  }

  /** One iteration of the loop in `processRuleScanRequest`, on the request in hand. */
  function ProcessScan(c: Client, s: State, r: ScanRequest): State {
    if !Scanning(s, r.rule) then s.(curScan := [])
    else if SkipsDependency(c, s, r) then Advance(s, r)
    else AfterLookUp(c, s.(curScan := [LookUp(s, r)]), LookUp(s, r), LookUp(s, r).input.value)
  }

  function ScanOne(c: Client, s: State): State
    requires s.ruleInfosToScan != []
  {
    ProcessScan(c, TakeScan(s), Last(s.ruleInfosToScan))
  }

  // ---- One input request -------------------------------------------------------------

  function TakeInput(s: State): State
    requires s.inputRequests != []
  {
    s.(curInput := [s.inputRequests[0]], inputRequests := s.inputRequests[1..])
  }

  function Pause(s: State, r: InputRequest): State {
    s.(curInput := [], paused := s.paused[r.input := At(s.paused, r.input) + [r]])
  }

  function Recorded(s: State, r: InputRequest, t: KeyID): State {
    var ri := Info(s, t);
    var dep := Dependency(r.input, r.orderOnly, r.singleUse);
    s.(curInput := [],
       rules := s.rules[t := ri.(result := ri.result.(dependencies := ri.result.dependencies + [dep]))],
       tasks := s.tasks[t := TaskOf(s, t).(recorded := TaskOf(s, t).recorded + [r.id])])
  }

  /** The dependency is recorded, and the request waits for its input or is finished. */
  function Record(s: State, r: InputRequest, t: KeyID): State {
    if CompleteNow(s, r.input) then
      Recorded(s, r, t).(finishedInputRequests := s.finishedInputRequests + [r])
    else
      Recorded(s, r, t).(requestedBy := s.requestedBy[r.input := At(s.requestedBy, r.input) + [r]])
  }

  function ProcessInput(c: Client, s: State, r: InputRequest): State {
    var s1 := ScanRule(c, s, r.input);
    if Scanning(s1, r.input) then Pause(s1, r) else
    var s2 := DemandRule(c, s1, r.input);
    if r.task.None? then s2.(curInput := []) else Record(s2, r, r.task.value)
  }

  function InputOne(c: Client, s: State): State
    requires s.inputRequests != []
  {
    ProcessInput(c, TakeInput(s), s.inputRequests[0])
  }

  // ---- Finished inputs, ready tasks, completion ---------------------------------------

  /** The values a task has received once request `r` has been answered. */
  function GotAfter(s: State, r: InputRequest, t: KeyID): seq<Delivery> {
    if r.orderOnly then TaskOf(s, t).got else TaskOf(s, t).got + [Delivery(r.input, Info(s, r.input).result.value)]
  }

  /** What a task asks for in `provideValue`, which is not called for a must-follow input. */
  function AsksAfter(c: Client, s: State, r: InputRequest, t: KeyID): seq<Dependency> {
    if r.orderOnly then [] else c.onValue(s.epoch, t, GotAfter(s, r, t))
  }

  /** The answer to `r` reaches task `t`, which asks for `asks`; then `decrementTaskWaitCount`. */
  function Deliver(s: State, r: InputRequest, t: KeyID, got: seq<Delivery>, asks: seq<Dependency>): State
    requires s.finishedInputRequests != []
  {
    var task := TaskOf(s, t);
    var task' := Asking(task.(waitCount := task.waitCount - 1, delivered := task.delivered + [r.id], got := got), asks);
    s.(finishedInputRequests := Front(s.finishedInputRequests),
       tasks := s.tasks[t := task'],
       inputRequests := s.inputRequests + Requests(t, |task.asked|, asks),
       readyTaskInfos := PushIf(s.readyTaskInfos, t, task'.waitCount == 0),
       readied := PushIf(s.readied, t, task'.waitCount == 0))
  }

  function DeliverOne(c: Client, s: State): State
    requires s.finishedInputRequests != []
  {
    var r := Last(s.finishedInputRequests);
    if r.task.None? then s.(finishedInputRequests := Front(s.finishedInputRequests))
    else Deliver(s, r, r.task.value, GotAfter(s, r, r.task.value), AsksAfter(c, s, r, r.task.value))
  }

  function ReadyOne(s: State): State
    requires s.readyTaskInfos != []
  {
    var t := s.readyTaskInfos[0];
    s.(readyTaskInfos := s.readyTaskInfos[1..],
       rules := s.rules[t := Info(s, t).(phase := InProgressComputing)],
       numOutstanding := s.numOutstanding + 1)
  }

  function Discovered(found: seq<Delivery>): (r: seq<Dependency>)
    ensures |r| == |found|
  {
    seq(|found|, i requires 0 <= i < |found| => Dependency(found[i].key, false, false))
  }

  /** `taskDiscoveredDependency` for each of `found`, then `taskIsComplete`. */
  function TaskIsComplete(c: Client, s: State, t: KeyID, value: Value, force: bool, found: seq<Delivery>): State {
    var ri := Info(s, t);
    var res := ri.result.(signature := c.signature(s.epoch, t), used := TaskOf(s, t).got + found, ranAt := s.epoch);
    s.(rules := s.rules[t := ri.(result :=
         if !force && value == res.value then res else res.(value := value, computedAt := s.epoch))],
       tasks := s.tasks[t := TaskOf(s, t).(discovered := Discovered(found))],
       finishedTaskInfos := s.finishedTaskInfos + [t])
  }

  /** The request the engine makes on its own behalf, for the key to build and for each
      discovered dependency. */
  function Dummy(d: Dependency): InputRequest {
    InputRequest(None, 0, d.key, d.orderOnly, d.singleUse, false)
  }

  function Dummies(ds: seq<Dependency>): (r: seq<InputRequest>)
    ensures |r| == |ds|
  {
    seq(|ds|, i requires 0 <= i < |ds| => Dummy(ds[i]))
  }

  function KeysOf(ds: seq<Dependency>): (r: set<KeyID>)
    ensures forall d :: d in ds ==> d.key in r
  {
    set d | d in ds :: d.key
  }

  function FinishOne(s: State): State
    requires s.finishedTaskInfos != []
  {
    var t := Last(s.finishedTaskInfos);
    var found := TaskOf(s, t).discovered;
    var ri := Info(s, t);
    var res := ri.result.(builtAt := s.epoch, dependencies := ri.result.dependencies + found);
    s.(finishedTaskInfos := Front(s.finishedTaskInfos),
       rules := s.rules[t := ri.(phase := Complete, result := res)],
       db := s.db[t := res],
       inputRequests := s.inputRequests + Dummies(found),
       ruleInfosToScan := s.ruleInfosToScan + At(s.taskDeferred, t),
       finishedInputRequests := s.finishedInputRequests + At(s.requestedBy, t),
       numOutstanding := s.numOutstanding - 1,
       tasks := s.tasks - {t},
       requestedBy := s.requestedBy - {t},
       taskDeferred := s.taskDeferred - {t},
       owed := s.owed + KeysOf(found))
  }

  // ---- Cycles, cancellation, builds ----------------------------------------------------

  function WithoutScansOf(rs: seq<ScanRequest>, k: KeyID): seq<ScanRequest> {
    if rs == [] then [] else if rs[0].rule == k then rs[1..] else [rs[0]] + WithoutScansOf(rs[1..], k)
  }

  /** `breakCycle`, by forcing a scanning rule to be built. */
  function ForceBuild(s: State, k: KeyID): State {
    var s1 := FinishScan(s.(ruleInfosToScan := WithoutScansOf(s.ruleInfosToScan, k)), k, NeedsToRun);
    s1.(rules := s1.rules[k := Info(s1, k).(wasForced := true)], broken := true)
  }

  /** `breakCycle`, by supplying the prior value of `k` to one of the requests waiting for it. */
  function SupplyPriorValue(s: State, k: KeyID, i: nat): State
    requires i < |At(s.requestedBy, k)|
  {
    var rs := At(s.requestedBy, k);
    s.(requestedBy := s.requestedBy[k := rs[..i] + rs[i + 1..]],
       finishedInputRequests := s.finishedInputRequests + [rs[i].(forcePriorValue := true)],
       broken := true)
  }

  /** The rules after `cancelRemainingTasks`. */
  function CancelledRules(s: State): map<KeyID, RuleInfo> {
    map k | k in s.rules ::
      if k in s.tasks || s.rules[k].phase.IsScanning? then s.rules[k].(phase := Incomplete) else s.rules[k]
  }

  /** `cancelRemainingTasks`, once every outstanding task has reported. */
  function Cancel(s: State): State {
    s.(rules := CancelledRules(s),
       tasks := map[], requestedBy := map[], taskDeferred := map[], paused := map[], deferred := map[],
       ruleInfosToScan := [], inputRequests := [], finishedInputRequests := [],
       readyTaskInfos := [], finishedTaskInfos := [], numOutstanding := 0,
       created := [], readied := [], owed := {}, cancelled := true, tidy := false)
  }

  /** `build`: a new epoch, and a dummy request for the key to build. */
  function StartBuild(s: State, root: KeyID): State {
    s.(epoch := s.epoch + 1,
       inputRequests := s.inputRequests + [Dummy(Dependency(root, false, false))],
       created := [], readied := [], owed := {root}, broken := false, building := true,
       tidy := forall k :: k in s.rules ==> !Verdict(s, k))
  }

  /** A new engine attached to the same database. */
  function NewEngine(s: State): State {
    INITIAL.(epoch := s.epoch, db := s.db)
  }

  // ---- Runs ---------------------------------------------------------------------------

  datatype Step =
    | DoScan
    | DoInput
    | DoDeliver
    | DoReady
    | DoTaskIsComplete(task: KeyID, value: Value, force: bool, found: seq<Delivery>)
    | DoFinish
    | DoForceBuild(rule: KeyID)
    | DoSupplyPriorValue(rule: KeyID, index: nat)
    | DoCancel
    | DoStartBuild(root: KeyID)
    | DoNewEngine

  /** Every task that has been told its inputs are available has reported its result. */
  predicate AllReported(s: State) {
    forall t :: t in s.tasks && Computing(s, t) ==> t in s.finishedTaskInfos
  }

  predicate Enabled(s: State, step: Step) {
    match step
    case DoScan => s.ruleInfosToScan != []
    case DoInput => s.inputRequests != []
    case DoDeliver => s.finishedInputRequests != []
    case DoReady => s.readyTaskInfos != []
    case DoTaskIsComplete(t, _, _, _) => Computing(s, t) && t !in s.finishedTaskInfos
    case DoFinish => s.finishedTaskInfos != []
    case DoForceBuild(k) => Idle(s) && Scanning(s, k)
    case DoSupplyPriorValue(k, i) => Idle(s) && Waiting(s, k) && Info(s, k).result.builtAt != 0 && i < |At(s.requestedBy, k)|
    case DoCancel => AllReported(s)
    case DoStartBuild(_) => Quiet(s)
    case DoNewEngine => Quiet(s)
  }

  function Apply(c: Client, s: State, step: Step): State
    requires Enabled(s, step)
  {
    match step
    case DoScan => ScanOne(c, s)
    case DoInput => InputOne(c, s)
    case DoDeliver => DeliverOne(c, s)
    case DoReady => ReadyOne(s)
    case DoTaskIsComplete(t, v, f, found) => TaskIsComplete(c, s, t, v, f, found)
    case DoFinish => FinishOne(s)
    case DoForceBuild(k) => ForceBuild(s, k)
    case DoSupplyPriorValue(k, i) => SupplyPriorValue(s, k, i)
    case DoCancel => Cancel(s)
    case DoStartBuild(root) => StartBuild(s, root)
    case DoNewEngine => NewEngine(s)
  }

  /** The states of a run that starts in the initial state and takes `steps`. */
  predicate Legal(c: Client, steps: seq<Step>)
    decreases |steps|, 0
  {
    steps == [] || (Legal(c, Front(steps)) && Enabled(Exec(c, Front(steps)), Last(steps)))
  }

  function Exec(c: Client, steps: seq<Step>): State
    requires Legal(c, steps)
    decreases |steps|, 1
  {
    if steps == [] then INITIAL else Apply(c, Exec(c, Front(steps)), Last(steps))
  }
}
