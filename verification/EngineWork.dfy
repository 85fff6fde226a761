/** How long a build can take. Every step of a build pays for itself: there is a sum over the rules and
    the queues that each step makes smaller, and what it can start from and end with is known. */
module EngineWork {
  import opened Options
  import opened EngineState
  import opened EngineSteps
  import opened EngineCounts
  import opened EngineInvariant
  import opened EngineRules
  import opened EngineDemand
  import opened EngineScanning
  import opened EngineInputs
  import opened EngineRuns
  import opened EngineSince

  // ---- Sums ---------------------------------------------------------------------------------------

  ghost function Sum<X>(xs: seq<X>, f: X -> int): int {
    if xs == [] then 0 else Sum(Front(xs), f) + f(Last(xs))
  }

  lemma SumNone<X>(f: X -> int)
    ensures Sum([], f) == 0
  {
  }

  lemma SumSingle<X>(x: X, f: X -> int)
    ensures Sum([x], f) == f(x)
  {
    assert Front([x]) == [] && Last([x]) == x;
  }

  lemma {:induction false} SumConcat<X>(a: seq<X>, b: seq<X>, f: X -> int)
    ensures Sum(a + b, f) == Sum(a, f) + Sum(b, f)
    decreases |b|
  {
    if b == [] {
      assert a + b == a;
    } else {
      assert Front(a + b) == a + Front(b) && Last(a + b) == Last(b);
      SumConcat(a, Front(b), f);
    }
  }

  lemma {:induction false} SumLeq<X>(xs: seq<X>, f: X -> int, g: X -> int)
    requires forall x :: x in xs ==> f(x) <= g(x)
    ensures Sum(xs, f) <= Sum(xs, g)
    decreases |xs|
  {
    if xs != [] { SumLeq(Front(xs), f, g); }
  }

  lemma {:induction false} SumAtMost<X>(xs: seq<X>, f: X -> int, n: nat)
    requires forall x :: x in xs ==> f(x) <= n
    ensures Sum(xs, f) <= n * |xs|
    decreases |xs|
  {
    if xs != [] {
      SumAtMost(Front(xs), f, n);
      assert n * |xs| == n * |Front(xs)| + n;
    }
  }

  /** A sum in which one term changes. */
  lemma {:induction false} SumAt(xs: seq<KeyID>, f: KeyID -> int, g: KeyID -> int, k: KeyID, more: int)
    requires NoDuplicates(xs) && k in xs
    requires forall x :: x in xs && x != k ==> g(x) <= f(x)
    requires g(k) <= f(k) + more
    ensures Sum(xs, g) <= Sum(xs, f) + more
    decreases |xs|
  {
    var front, last := Front(xs), Last(xs);
    assert xs == front + [last];
    if last == k {
      assert forall x :: x in front ==> x != k;
      SumLeq(front, g, f);
    } else {
      SumAt(front, f, g, k, more);
    }
  }

  // ---- What is left to do ---------------------------------------------------------------------------

  /** A scan looks at each dependency up to three times: it may have to wait for it to be scanned, and
      then for it to be built. This is for the dependencies after the one it is at. */
  ghost function ToGo(s: State, r: ScanRequest): nat {
    var n := |Info(s, r.rule).result.dependencies|;
    if Scanning(s, r.rule) && r.index < n then 3 * (n - r.index - 1) else 0
  }

  ghost function AtThis(s: State, r: ScanRequest): int {
    if r.input.None? then 3 else if CompleteNow(s, r.input.value) then 1 else 2
  }

  ghost function ScanWork(s: State): ScanRequest -> int {
    r => ToGo(s, r) + AtThis(s, r)
  }

  ghost function OnScanWork(s: State): ScanRequest -> int {
    r => ToGo(s, r) + 2
  }

  ghost function OnTaskWork(s: State): ScanRequest -> int {
    r => ToGo(s, r) + 1
  }

  /** A request may have to wait for its input to be scanned; then it is recorded, it may be answered
      early to break a cycle, and it is delivered. */
  ghost function InputWork(s: State): InputRequest -> int {
    (r: InputRequest) => if IsScanned(s, r.input) then 3 else 4
  }

  /** A rule is forced, readied, reported and finished at most once each. What its task asks for or
      discovers is charged to it when it does. */
  ghost function RuleWork(s: State, k: KeyID): int {
    match Info(s, k).phase
    case IsScanning => 4
    case NeedsToRun => 3
    case DoesNotNeedToRun => 3
    case InProgressWaiting => 3 - 4 * Made(s, k)
    case InProgressComputing => (if k in s.finishedTaskInfos then 1 else 2) - 4 * Made(s, k)
    case _ => if CompleteNow(s, k) then -4 * Made(s, k) else 4 + 3 * |Info(s, k).result.dependencies|
  }

  /** How many inputs the task of `k` has asked for in this build, with those it discovered once it is
      complete. */
  ghost function Made(s: State, k: KeyID): nat {
    if InProgress(s, k) then |TaskOf(s, k).asked|
    else if CompleteNow(s, k) && k in s.created then |Info(s, k).result.dependencies|
    else 0
  }

  ghost function Parked(s: State, k: KeyID): int {
    3 * |At(s.paused, k)| + 2 * |At(s.requestedBy, k)|
    + Sum(At(s.deferred, k), OnScanWork(s)) + Sum(At(s.taskDeferred, k), OnTaskWork(s))
  }

  ghost function Work(s: State): KeyID -> int {
    k => RuleWork(s, k) + Parked(s, k)
  }

  /** The work in the queues of `q`, as it looks in state `s`. */
  ghost function QueueWork(s: State, q: State): int {
    Sum(q.ruleInfosToScan, ScanWork(s)) + Sum(q.curScan, ScanWork(s))
    + Sum(q.inputRequests, InputWork(s)) + Sum(q.curInput, InputWork(s)) + |q.finishedInputRequests|
  }

  ghost function Total(ks: seq<KeyID>, s: State): int {
    Sum(ks, Work(s)) + QueueWork(s, s)
  }

  ghost predicate Known(ks: seq<KeyID>, s: State) {
    NoDuplicates(ks) && forall k :: k in s.rules ==> k in ks
  }

  // ---- Work does not grow by itself -------------------------------------------------------------------

  ghost predicate Placed(s: State, r: ScanRequest) {
    Scanning(s, r.rule) || IsScanned(s, r.rule)
  }

  ghost predicate ScansAreFiled(s: State) {
    && (forall r :: r in s.ruleInfosToScan ==> Placed(s, r))
    && (forall r :: r in s.curScan ==> Placed(s, r))
    && (forall d, r :: d in s.deferred && r in s.deferred[d] ==> Placed(s, r) && r.input == Some(d))
    && (forall d, r :: d in s.taskDeferred && r in s.taskDeferred[d] ==> Placed(s, r) && r.input == Some(d))
  }

  ghost predicate InputsAreFiled(s: State) {
    forall d, r :: d in s.paused && r in s.paused[d] ==> r.input == d
  }

  /** Every request is where it belongs. */
  ghost predicate Filed(s: State) {
    ScansAreFiled(s) && InputsAreFiled(s)
  }

  lemma IsFiled(c: Client, s: State)
    requires Inv(c, s)
    ensures Filed(s)
  {
    hide ScansAreFiled, InputsAreFiled;
    Unpack(c, s);
    hide Inv, Shape, TimesOk, RequestsOk, CountsOk, TasksOk, QueuesOk, OwnersOk, ScansOk, VerdictsOk, OwedOk, DemandsOk;
    ScansFiled(c, s);
    InputsFiled(s);
  }

  lemma ScansFiled(c: Client, s: State)
    requires ScansOk(c, s)
    ensures ScansAreFiled(s)
  {
    hide Placed, ScanOk;
    forall r | ScanOk(c, s, r) ensures Placed(s, r) { OkPlaced(c, s, r); }
  }

  lemma InputsFiled(s: State)
    requires RequestsOk(s)
    ensures InputsAreFiled(s)
  {
    hide Live, Answerable;
  }

  lemma OkPlaced(c: Client, s: State, r: ScanRequest)
    requires ScanOk(c, s, r)
    ensures Placed(s, r)
  {
    hide Scanned, IsScanned;
  }

  /** A rule that has been scanned stays so, a complete rule stays so, and the dependencies of a rule
      being scanned do not change. */
  ghost predicate RuleOnward(s: State, s': State, k: KeyID) {
    && (IsScanned(s, k) ==> IsScanned(s', k) && !Scanning(s', k))
    && (CompleteNow(s, k) ==> CompleteNow(s', k))
    && (Scanning(s, k) && Scanning(s', k) ==> Info(s', k).result.dependencies == Info(s, k).result.dependencies)
  }

  ghost predicate Onward(s: State, s': State) {
    forall k :: RuleOnward(s, s', k)
  }

  /** Nothing about `x` has changed. */
  ghost predicate SameAt(s: State, s': State, x: KeyID) {
    && Info(s', x) == Info(s, x) && TaskOf(s', x) == TaskOf(s, x)
    && (x in s'.finishedTaskInfos <==> x in s.finishedTaskInfos) && (x in s'.created <==> x in s.created)
    && SameParked(s, s', x)
  }

  ghost predicate SameParked(s: State, s': State, x: KeyID) {
    && At(s'.paused, x) == At(s.paused, x) && At(s'.requestedBy, x) == At(s.requestedBy, x)
    && At(s'.deferred, x) == At(s.deferred, x) && At(s'.taskDeferred, x) == At(s.taskDeferred, x)
  }

  /** Nothing has changed except about `k`. */
  ghost predicate OnlyAt(s: State, s': State, k: KeyID) {
    s'.epoch == s.epoch && forall x :: x != k ==> SameAt(s, s', x)
  }

  ghost predicate Nowhere(s: State, s': State) {
    s'.epoch == s.epoch && forall x :: SameAt(s, s', x)
  }

  lemma SameRule(s: State, s': State, x: KeyID)
    requires s'.epoch == s.epoch && SameAt(s, s', x)
    ensures RuleOnward(s, s', x) && RuleWork(s', x) == RuleWork(s, x) && Made(s', x) == Made(s, x)
  {
  }

  lemma OnwardAt(s: State, s': State, k: KeyID)
    requires OnlyAt(s, s', k) && RuleOnward(s, s', k)
    ensures Onward(s, s')
  {
    hide RuleOnward, SameAt;
    forall x ensures RuleOnward(s, s', x) { if x != k { SameRule(s, s', x); } }
  }

  lemma OnwardNowhere(s: State, s': State)
    requires Nowhere(s, s')
    ensures Onward(s, s')
  {
    hide RuleOnward, SameAt;
    forall x ensures RuleOnward(s, s', x) { SameRule(s, s', x); }
  }

  lemma ToGoLess(s: State, s': State, r: ScanRequest)
    requires Onward(s, s') && Placed(s, r)
    ensures ToGo(s', r) <= ToGo(s, r)
  {
    assert RuleOnward(s, s', r.rule);
  }

  /** The work parked on a rule. */
  lemma ParkedLess(s: State, s': State, x: KeyID)
    requires Filed(s) && Onward(s, s') && SameParked(s, s', x)
    ensures Parked(s', x) <= Parked(s, x)
  {
    hide Onward, Placed, ToGo;
    forall r | r in At(s.deferred, x) ensures OnScanWork(s')(r) <= OnScanWork(s)(r) { ToGoLess(s, s', r); }
    forall r | r in At(s.taskDeferred, x) ensures OnTaskWork(s')(r) <= OnTaskWork(s)(r) { ToGoLess(s, s', r); }
    SumLeq(At(s.deferred, x), OnScanWork(s'), OnScanWork(s));
    SumLeq(At(s.taskDeferred, x), OnTaskWork(s'), OnTaskWork(s));
  }

  lemma ScanLess(s: State, s': State, r: ScanRequest)
    requires Onward(s, s') && Placed(s, r)
    ensures ScanWork(s')(r) <= ScanWork(s)(r)
  {
    hide ToGo;
    ToGoLess(s, s', r);
    if r.input.Some? { assert RuleOnward(s, s', r.input.value); }
  }

  lemma InputLess(s: State, s': State, r: InputRequest)
    requires Onward(s, s')
    ensures InputWork(s')(r) <= InputWork(s)(r)
  {
    assert RuleOnward(s, s', r.input);
  }

  lemma QueuesLess(s: State, s': State)
    requires Filed(s) && Onward(s, s')
    ensures QueueWork(s', s) <= QueueWork(s, s)
  {
    hide Onward, Placed, ScanWork, InputWork;
    forall r | r in s.ruleInfosToScan || r in s.curScan ensures ScanWork(s')(r) <= ScanWork(s)(r) { ScanLess(s, s', r); }
    forall r ensures InputWork(s')(r) <= InputWork(s)(r) { InputLess(s, s', r); }
    SumLeq(s.ruleInfosToScan, ScanWork(s'), ScanWork(s));
    SumLeq(s.curScan, ScanWork(s'), ScanWork(s));
    SumLeq(s.inputRequests, InputWork(s'), InputWork(s));
    SumLeq(s.curInput, InputWork(s'), InputWork(s));
  }

  /** Something is done about `k` and in the queues, and nowhere else. */
  lemma Spend(ks: seq<KeyID>, s: State, s': State, k: KeyID, m: int, n: int)
    requires NoDuplicates(ks) && k in ks && Filed(s) && OnlyAt(s, s', k) && RuleOnward(s, s', k)
    requires Work(s')(k) <= Work(s)(k) + m && QueueWork(s', s') <= QueueWork(s', s) + n
    ensures Total(ks, s') <= Total(ks, s) + m + n
  {
    OnwardAt(s, s', k);
    QueuesLess(s, s');
    hide Onward, Filed, RuleOnward, SameAt, RuleWork, Parked, QueueWork, NoDuplicates;
    forall x | x != k ensures Work(s')(x) <= Work(s)(x) { SameRule(s, s', x); ParkedLess(s, s', x); }
    SumAt(ks, Work(s), Work(s'), k, m);
  }

  /** Nothing is parked or woken. */
  lemma Pay(ks: seq<KeyID>, s: State, s': State, k: KeyID, m: int, n: int)
    requires NoDuplicates(ks) && k in ks && Filed(s) && OnlyAt(s, s', k) && RuleOnward(s, s', k) && SameParked(s, s', k)
    requires RuleWork(s', k) <= RuleWork(s, k) + m && QueueWork(s', s') <= QueueWork(s', s) + n
    ensures Total(ks, s') <= Total(ks, s) + m + n
  {
    hide Total, Filed, OnlyAt, RuleOnward, SameParked, RuleWork, Parked, QueueWork, NoDuplicates, Onward;
    OnwardAt(s, s', k);
    ParkedLess(s, s', k);
    Spend(ks, s, s', k, m, n);
  }

  lemma SpendNowhere(ks: seq<KeyID>, s: State, s': State, n: int)
    requires Filed(s) && Nowhere(s, s') && QueueWork(s', s') <= QueueWork(s', s) + n
    ensures Total(ks, s') <= Total(ks, s) + n
  {
    OnwardNowhere(s, s');
    QueuesLess(s, s');
    hide Onward, Filed, RuleOnward, SameAt, RuleWork, Parked, QueueWork;
    forall x ensures Work(s')(x) <= Work(s)(x) { SameRule(s, s', x); ParkedLess(s, s', x); }
    SumLeq(ks, Work(s'), Work(s));
  }

  // ---- Scanning and demanding a rule --------------------------------------------------------------------

  lemma ScanRuleWork(ks: seq<KeyID>, c: Client, s: State, k: KeyID)
    requires Inv(c, s) && Known(ks, ScanRule(c, s, k))
    ensures Total(ks, ScanRule(c, s, k)) <= Total(ks, s)
  {
    IsFiled(c, s);
    assert k in s.paused <==> Scanning(s, k) by { Unpack(c, s); }
    assert k in s.deferred <==> Scanning(s, k) by { Unpack(c, s); }
    hide Inv, Filed, Total, IsScanned, Scanning, WithoutSingleUse, StartScan;
    if !IsScanned(s, k) && !Scanning(s, k) {
      StartScanWork(ks, s, k, Cleaned(Info(s, k).result), FirstLook(c, s.epoch, k, Cleaned(Info(s, k).result)));
    }
  }

  lemma StartScanWork(ks: seq<KeyID>, s: State, k: KeyID, res: Result, look: Look)
    requires Filed(s) && !IsScanned(s, k) && !Scanning(s, k) && k !in s.paused && k !in s.deferred
    requires |res.dependencies| <= |Info(s, k).result.dependencies| && res.builtAt == Info(s, k).result.builtAt
    requires (look.MustScan? ==> res.dependencies != []) && Known(ks, StartScan(s, k, res, look))
    ensures Total(ks, StartScan(s, k, res, look)) <= Total(ks, s)
  {
    hide Filed, Total;
    match look
    case MustRun => SetVerdictWork(ks, s, k, RuleInfo(NeedsToRun, res, false));
    case MayStay => SetVerdictWork(ks, s, k, RuleInfo(DoesNotNeedToRun, res, false));
    case MustScan(n) => BeginScanWork(ks, s, k, res, n);
  }

  lemma SetVerdictWork(ks: seq<KeyID>, s: State, k: KeyID, ri: RuleInfo)
    requires Filed(s) && !IsScanned(s, k) && !Scanning(s, k) && Known(ks, SetInfo(s, k, ri))
    requires ri.phase.NeedsToRun? || ri.phase.DoesNotNeedToRun?
    ensures Total(ks, SetInfo(s, k, ri)) <= Total(ks, s)
  {
    var s' := SetInfo(s, k, ri);
    hide Filed, Total, Parked, QueueWork;
    SameQueues(s, s');
    Pay(ks, s, s', k, 0, 0);
  }

  lemma SameQueues(s: State, s': State)
    requires s'.ruleInfosToScan == s.ruleInfosToScan && s'.curScan == s.curScan && s'.inputRequests == s.inputRequests
    requires s'.curInput == s.curInput && s'.finishedInputRequests == s.finishedInputRequests
    ensures QueueWork(s', s') == QueueWork(s', s)
  {
    hide ScanWork, InputWork;
  }

  lemma BeginScanWork(ks: seq<KeyID>, s: State, k: KeyID, res: Result, n: bool)
    requires Filed(s) && !IsScanned(s, k) && !Scanning(s, k) && k !in s.paused && k !in s.deferred
    requires 0 < |res.dependencies| <= |Info(s, k).result.dependencies|
    requires Known(ks, BeginScan(s, k, RuleInfo(IsScanning, res, false), n))
    ensures Total(ks, BeginScan(s, k, RuleInfo(IsScanning, res, false), n)) <= Total(ks, s)
  {
    var s' := BeginScan(s, k, RuleInfo(IsScanning, res, false), n);
    hide Filed, Total, Parked, QueueWork;
    PushScanWork(s, s', ScanRequest(k, 0, None, false, n));
    Pay(ks, s, s', k, -3 * |Info(s, k).result.dependencies|, 3 * |res.dependencies|);
  }

  lemma PushScanWork(s: State, s': State, r: ScanRequest)
    requires s'.ruleInfosToScan == s.ruleInfosToScan + [r] && s'.curScan == s.curScan && s'.inputRequests == s.inputRequests
    requires s'.curInput == s.curInput && s'.finishedInputRequests == s.finishedInputRequests
    ensures QueueWork(s', s') == QueueWork(s', s) + ScanWork(s')(r)
  {
    hide ScanWork, InputWork;
    SumConcat(s.ruleInfosToScan, [r], ScanWork(s'));
    SumSingle(r, ScanWork(s'));
  }

  lemma DemandRuleWork(ks: seq<KeyID>, c: Client, s: State, k: KeyID)
    requires Inv(c, s) && Known(ks, DemandRule(c, s, k))
    ensures Total(ks, DemandRule(c, s, k)) <= Total(ks, s)
  {
    IsFiled(c, s);
    assert k in s.tasks <==> InProgress(s, k) by { Unpack(c, s); }
    assert k in s.requestedBy ==> k in s.tasks by { Unpack(c, s); }
    assert k in s.taskDeferred ==> k in s.tasks by { Unpack(c, s); }
    hide Inv, Filed, Total, LaunchTask, SetComplete;
    match Info(s, k).phase
    case DoesNotNeedToRun => SetCompleteWork(ks, s, k);
    case NeedsToRun => LaunchWork(ks, s, k, c.onStart(s.epoch, k));
    case _ =>
  }

  lemma SetCompleteWork(ks: seq<KeyID>, s: State, k: KeyID)
    requires Filed(s) && Info(s, k).phase.DoesNotNeedToRun? && Known(ks, SetComplete(s, k))
    ensures Total(ks, SetComplete(s, k)) <= Total(ks, s)
  {
    var s' := SetComplete(s, k);
    hide Filed, Total, Parked, QueueWork;
    SameQueues(s, s');
    Pay(ks, s, s', k, 0, 0);
  }

  lemma LaunchWork(ks: seq<KeyID>, s: State, k: KeyID, asks: seq<Dependency>)
    requires Filed(s) && Info(s, k).phase.NeedsToRun? && k !in s.requestedBy && k !in s.taskDeferred
    requires Known(ks, LaunchTask(s, k, asks))
    ensures Total(ks, LaunchTask(s, k, asks)) <= Total(ks, s)
  {
    var s' := LaunchTask(s, k, asks);
    hide Filed, Total, Parked, QueueWork, Requests;
    LaunchOnly(s, k, asks);
    PushInputsWork(s, s', Requests(k, 0, asks));
    Pay(ks, s, s', k, -4 * |asks|, 4 * |asks|);
  }

  lemma LaunchOnly(s: State, k: KeyID, asks: seq<Dependency>)
    ensures OnlyAt(s, LaunchTask(s, k, asks), k)
  {
    hide Requests, Asking;
  }

  lemma PushInputsWork(s: State, s': State, rs: seq<InputRequest>)
    requires s'.ruleInfosToScan == s.ruleInfosToScan && s'.curScan == s.curScan && s'.inputRequests == s.inputRequests + rs
    requires s'.curInput == s.curInput && |s'.finishedInputRequests| <= |s.finishedInputRequests|
    ensures QueueWork(s', s') <= QueueWork(s', s) + 4 * |rs| + |s'.finishedInputRequests| - |s.finishedInputRequests|
  {
    hide ScanWork, InputWork;
    MoreInputs(s', s.inputRequests, rs);
  }

  // ---- One scan request ---------------------------------------------------------------------------------

  lemma DropScanWork(ks: seq<KeyID>, s: State, r: ScanRequest)
    requires Filed(s) && s.curScan == [r]
    ensures Filed(s.(curScan := [])) && Total(ks, s.(curScan := [])) <= Total(ks, s) - ScanWork(s)(r)
  {
    var s' := s.(curScan := []);
    FiledSame(s, s');
    hide Filed, Total;
    SumSingle(r, ScanWork(s'));
    SumNone(ScanWork(s'));
    SameScanWork(s, s', r);
    hide ScanWork, InputWork;
    SpendNowhere(ks, s, s', -ScanWork(s)(r));
  }

  lemma FiledSame(s: State, s': State)
    requires Filed(s) && s'.epoch == s.epoch && s'.rules == s.rules && s'.db == s.db && s'.paused == s.paused
    requires s'.deferred == s.deferred && s'.taskDeferred == s.taskDeferred && s'.ruleInfosToScan == s.ruleInfosToScan
    requires s'.curScan == s.curScan || s'.curScan == []
    ensures Filed(s')
  {
    forall r ensures Placed(s', r) == Placed(s, r) { SamePlaced(s, s', r); }
    hide Placed;
  }

  lemma SamePlaced(s: State, s': State, r: ScanRequest)
    requires s'.epoch == s.epoch && s'.rules == s.rules && s'.db == s.db
    ensures Placed(s', r) == Placed(s, r)
  {
  }

  lemma SameScanWork(s: State, s': State, r: ScanRequest)
    requires s'.epoch == s.epoch && s'.rules == s.rules && s'.db == s.db
    ensures ScanWork(s')(r) == ScanWork(s)(r)
  {
  }

  lemma SameToGo(s: State, s': State, r: ScanRequest)
    requires s'.rules == s.rules && s'.db == s.db
    ensures ToGo(s', r) == ToGo(s, r)
  {
  }

  lemma QueuesOnly(s: State, s': State)
    requires s' == s.(ruleInfosToScan := s'.ruleInfosToScan, curScan := s'.curScan, inputRequests := s'.inputRequests,
                      curInput := s'.curInput, finishedInputRequests := s'.finishedInputRequests)
    ensures Nowhere(s, s')
  {
  }

  lemma ListsOnly(s: State, s': State, d: KeyID)
    requires s'.epoch == s.epoch && s'.rules == s.rules && s'.db == s.db && s'.tasks == s.tasks && s'.created == s.created
    requires s'.finishedTaskInfos == s.finishedTaskInfos && forall x :: x != d ==> SameParked(s, s', x)
    ensures OnlyAt(s, s', d) && RuleOnward(s, s', d) && RuleWork(s', d) == RuleWork(s, d)
  {
    hide SameParked;
  }

  lemma PutBackWork(ks: seq<KeyID>, s: State, r: ScanRequest, q: ScanRequest)
    requires Filed(s) && s.curScan == [r]
    ensures Total(ks, PutBack(s, q)) <= Total(ks, s) - ScanWork(s)(r) + ScanWork(s)(q)
  {
    hide Filed, Total, ScanWork, QueueWork, Nowhere;
    var s1, s' := s.(curScan := []), PutBack(s, q);
    DropScanWork(ks, s, r);
    SameScanWork(s, s', q);
    PushScanWork(s1, s', q);
    QueuesOnly(s1, s');
    SpendNowhere(ks, s1, s', ScanWork(s)(q));
  }

  lemma FinishScanWork(ks: seq<KeyID>, s: State, k: KeyID, phase: Phase)
    requires Filed(s) && Scanning(s, k) && Known(ks, s) && (phase.NeedsToRun? || phase.DoesNotNeedToRun?)
    ensures Total(ks, FinishScan(s, k, phase)) <= Total(ks, s) - 1
  {
    hide Filed, Total, NoDuplicates;
    FinishScanOnly(s, k, phase);
    WakeWork(ks, s, FinishScan(s, k, phase), k);
  }

  lemma FinishScanOnly(s: State, k: KeyID, phase: Phase)
    ensures OnlyAt(s, FinishScan(s, k, phase), k)
  {
  }

  /** The scan of `k` ends with a verdict. */
  lemma WakeWork(ks: seq<KeyID>, s: State, s': State, k: KeyID)
    requires Filed(s) && Scanning(s, k) && Known(ks, s) && OnlyAt(s, s', k) && Verdict(s', k)
    requires s'.ruleInfosToScan == s.ruleInfosToScan + At(s.deferred, k) && s'.curScan == s.curScan
    requires s'.inputRequests == s.inputRequests + At(s.paused, k)
    requires s'.curInput == s.curInput && s'.finishedInputRequests == s.finishedInputRequests
    requires k !in s'.paused && k !in s'.deferred && s'.requestedBy == s.requestedBy && s'.taskDeferred == s.taskDeferred
    ensures Total(ks, s') <= Total(ks, s) - 1
  {
    assert RuleOnward(s, s', k) && IsScanned(s', k) && RuleWork(s', k) == RuleWork(s, k) - 1;
    IsKnown(ks, s, k);
    hide Filed, Total, Parked, QueueWork, RuleWork, RuleOnward, OnlyAt, NoDuplicates, Onward, IsScanned, Verdict;
    OnwardAt(s, s', k);
    WokenWork(s, s', k);
    FinishedScanParked(s, s', k);
    var parked := 3 * |At(s.paused, k)| + Sum(At(s.deferred, k), OnScanWork(s));
    Spend(ks, s, s', k, -1 - parked, parked);
  }

  lemma FinishedScanParked(s: State, s': State, k: KeyID)
    requires Filed(s) && Onward(s, s') && k !in s'.paused && k !in s'.deferred
    requires s'.requestedBy == s.requestedBy && s'.taskDeferred == s.taskDeferred
    ensures Parked(s', k) <= Parked(s, k) - 3 * |At(s.paused, k)| - Sum(At(s.deferred, k), OnScanWork(s))
  {
    hide Onward, Placed, ToGo;
    SumNone(OnScanWork(s'));
    forall r | r in At(s.taskDeferred, k) ensures OnTaskWork(s')(r) <= OnTaskWork(s)(r) { ToGoLess(s, s', r); }
    SumLeq(At(s.taskDeferred, k), OnTaskWork(s'), OnTaskWork(s));
  }

  /** What was parked on the scan of `k` goes on. */
  lemma WokenWork(s: State, s': State, k: KeyID)
    requires Filed(s) && Onward(s, s') && IsScanned(s', k)
    requires s'.ruleInfosToScan == s.ruleInfosToScan + At(s.deferred, k) && s'.curScan == s.curScan
    requires s'.inputRequests == s.inputRequests + At(s.paused, k)
    requires s'.curInput == s.curInput && s'.finishedInputRequests == s.finishedInputRequests
    ensures QueueWork(s', s') <= QueueWork(s', s) + 3 * |At(s.paused, k)| + Sum(At(s.deferred, k), OnScanWork(s))
  {
    hide Onward, Placed, ToGo;
    SumConcat(s.ruleInfosToScan, At(s.deferred, k), ScanWork(s'));
    SumConcat(s.inputRequests, At(s.paused, k), InputWork(s'));
    SumAtMost(At(s.paused, k), InputWork(s'), 3);
    forall r | r in At(s.deferred, k) ensures ScanWork(s')(r) <= OnScanWork(s)(r) { ToGoLess(s, s', r); }
    SumLeq(At(s.deferred, k), ScanWork(s'), OnScanWork(s));
  }

  lemma AdvanceWork(ks: seq<KeyID>, s: State, h: ScanRequest, r: ScanRequest)
    requires Filed(s) && Known(ks, s) && s.curScan == [h] && h.rule == r.rule && h.index == r.index
    requires Scanning(s, r.rule) && r.index < |Info(s, r.rule).result.dependencies|
    ensures Total(ks, Advance(s, r)) <= Total(ks, s) - 1
  {
    hide Filed, Total, PutBack, FinishScan;
    if r.index + 1 != |Info(s, r.rule).result.dependencies| {
      PutBackWork(ks, s, h, Next(r));
    } else {
      DropScanWork(ks, s, h);
      FinishScanWork(ks, s.(curScan := []), r.rule, if r.needsToRun then NeedsToRun else DoesNotNeedToRun);
    }
  }

  lemma DeferOnScanWork(ks: seq<KeyID>, s: State, r: ScanRequest, d: KeyID)
    requires Filed(s) && Known(ks, s) && s.curScan == [r] && r.input == Some(d) && Scanning(s, d)
    ensures Total(ks, DeferOnScan(s, r, d)) <= Total(ks, s)
  {
    hide Filed, Total, QueueWork, Parked, RuleWork, RuleOnward, OnlyAt, NoDuplicates;
    var s1, s' := s.(curScan := []), DeferOnScan(s, r, d);
    DropScanWork(ks, s, r);
    SameQueues(s1, s');
    ListsOnly(s1, s', d);
    ParkedOnScan(s1, s', r, d);
    SameToGo(s, s1, r);
    Spend(ks, s1, s', d, OnScanWork(s)(r), 0);
  }

  lemma ParkedOnScan(s: State, s': State, r: ScanRequest, d: KeyID)
    requires s'.rules == s.rules && s'.db == s.db && s'.epoch == s.epoch
    requires At(s'.deferred, d) == At(s.deferred, d) + [r]
    requires s'.paused == s.paused && s'.requestedBy == s.requestedBy && s'.taskDeferred == s.taskDeferred
    ensures Parked(s', d) <= Parked(s, d) + OnScanWork(s)(r)
  {
    SumConcat(At(s.deferred, d), [r], OnScanWork(s'));
    SumSingle(r, OnScanWork(s'));
    SumLeq(At(s.deferred, d), OnScanWork(s'), OnScanWork(s));
    SumLeq(At(s.taskDeferred, d), OnTaskWork(s'), OnTaskWork(s));
  }

  lemma DeferOnTaskWork(ks: seq<KeyID>, s: State, r: ScanRequest, d: KeyID)
    requires Filed(s) && d in ks && Known(ks, s) && s.curScan == [r] && r.input == Some(d) && !CompleteNow(s, d)
    ensures Total(ks, DeferOnTask(s, r, d)) <= Total(ks, s) - 1
  {
    hide Filed, Total, QueueWork, Parked, RuleWork, RuleOnward, OnlyAt, NoDuplicates;
    var s1, s' := s.(curScan := []), DeferOnTask(s, r, d);
    DropScanWork(ks, s, r);
    SameQueues(s1, s');
    ListsOnly(s1, s', d);
    ParkedOnTask(s1, s', r, d);
    SameToGo(s, s1, r);
    Spend(ks, s1, s', d, OnTaskWork(s)(r), 0);
  }

  lemma ParkedOnTask(s: State, s': State, r: ScanRequest, d: KeyID)
    requires s'.rules == s.rules && s'.db == s.db && s'.epoch == s.epoch
    requires At(s'.taskDeferred, d) == At(s.taskDeferred, d) + [r]
    requires s'.paused == s.paused && s'.requestedBy == s.requestedBy && s'.deferred == s.deferred
    ensures Parked(s', d) <= Parked(s, d) + OnTaskWork(s)(r)
  {
    SumConcat(At(s.taskDeferred, d), [r], OnTaskWork(s'));
    SumSingle(r, OnTaskWork(s'));
    SumLeq(At(s.deferred, d), OnScanWork(s'), OnScanWork(s));
    SumLeq(At(s.taskDeferred, d), OnTaskWork(s'), OnTaskWork(s));
  }

  lemma LookUpWork(ks: seq<KeyID>, s: State, r: ScanRequest)
    requires Filed(s) && s.curScan == [r]
    ensures Total(ks, s.(curScan := [LookUp(s, r)])) <= Total(ks, s) - (if r.input.None? then 1 else 0)
  {
    var r1 := LookUp(s, r);
    var s1 := s.(curScan := [r1]);
    assert ScanWork(s)(r1) <= ScanWork(s)(r) - (if r.input.None? then 1 else 0);
    SameScanWork(s, s1, r);
    SameScanWork(s, s1, r1);
    SumSingle(r, ScanWork(s1));
    SumSingle(r1, ScanWork(s1));
    hide Filed, Total, ScanWork, InputWork, LookUp;
    SpendNowhere(ks, s, s1, if r.input.None? then -1 else 0);
  }

  /** No rule is forgotten. */
  ghost predicate Grows(s: State, s': State) {
    forall k :: k in s.rules ==> k in s'.rules
  }

  lemma KnownBefore(ks: seq<KeyID>, s: State, s': State)
    requires Grows(s, s') && Known(ks, s')
    ensures Known(ks, s)
  {
    hide NoDuplicates;
  }

  lemma GrowsTrans(s: State, s': State, s'': State)
    requires Grows(s, s') && Grows(s', s'')
    ensures Grows(s, s'')
  {
  }

  lemma ScanRuleGrows(c: Client, s: State, k: KeyID)
    ensures Grows(s, ScanRule(c, s, k))
  {
    hide IsScanned, Scanning, WithoutSingleUse, FirstLook, StartScan, Grows;
    StartScanGrows(s, k, Cleaned(Info(s, k).result), FirstLook(c, s.epoch, k, Cleaned(Info(s, k).result)));
    SelfGrows(s);
  }

  lemma SelfGrows(s: State)
    ensures Grows(s, s)
  {
  }

  lemma StartScanGrows(s: State, k: KeyID, res: Result, look: Look)
    ensures Grows(s, StartScan(s, k, res, look))
  {
    match look case MustRun => case MayStay => case MustScan(_) =>
  }

  lemma DemandRuleGrows(c: Client, s: State, k: KeyID)
    ensures Grows(s, DemandRule(c, s, k))
  {
    hide LaunchTask, SetComplete, Grows;
    SelfGrows(s);
    LaunchGrows(s, k, c.onStart(s.epoch, k));
    CompleteGrows(s, k);
    match Info(s, k).phase case DoesNotNeedToRun => case NeedsToRun => case _ =>
  }

  lemma LaunchGrows(s: State, k: KeyID, asks: seq<Dependency>)
    ensures Grows(s, LaunchTask(s, k, asks))
  {
    hide Requests, Asking, PushIf, Info;
  }

  lemma CompleteGrows(s: State, k: KeyID)
    ensures Grows(s, SetComplete(s, k))
  {
    hide Info;
  }

  lemma ConcludeGrows(c: Client, s: State, r: ScanRequest, d: KeyID)
    ensures Grows(s, Conclude(c, s, r, d))
  {
    hide InputRebuilt, Advance, FinishScan;
    AdvanceGrows(s, r);
    AdvanceGrows(s, r.(needsToRun := true));
    FinishScanGrows(s.(curScan := []), r.rule, NeedsToRun);
  }

  lemma AdvanceGrows(s: State, r: ScanRequest)
    ensures Grows(s, Advance(s, r))
  {
    hide FinishScan;
    FinishScanGrows(s.(curScan := []), r.rule, if r.needsToRun then NeedsToRun else DoesNotNeedToRun);
  }

  lemma FinishScanGrows(s: State, k: KeyID, phase: Phase)
    ensures Grows(s, FinishScan(s, k, phase))
  {
    hide At, Info;
  }

  lemma ConcludeWork(ks: seq<KeyID>, c: Client, s: State, r: ScanRequest, d: KeyID)
    requires Inv(c, s) && s.building && Known(ks, s) && InHand(s, r) && Scanning(s, r.rule)
    ensures Total(ks, Conclude(c, s, r, d)) <= Total(ks, s) - 1
  {
    IsFiled(c, s);
    assert r.index < |Info(s, r.rule).result.dependencies| by { ScanningFacts(c, s, r); }
    hide Inv, Filed, Total, Advance, FinishScan, InputRebuilt, Known;
    if !InputRebuilt(s, r, d) {
      AdvanceWork(ks, s, r, r);
    } else if c.checksBefore(s.epoch, r.rule) {
      AdvanceWork(ks, s, r, r.(needsToRun := true));
    } else {
      FinishHandWork(ks, s, r, NeedsToRun);
    }
  }

  lemma FinishHandWork(ks: seq<KeyID>, s: State, r: ScanRequest, phase: Phase)
    requires Filed(s) && Known(ks, s) && s.curScan == [r] && Scanning(s, r.rule) && (phase.NeedsToRun? || phase.DoesNotNeedToRun?)
    ensures Total(ks, FinishHand(s, r.rule, phase)) <= Total(ks, s) - 1
  {
    hide Filed, Total, FinishScan;
    DropScanWork(ks, s, r);
    FinishScanWork(ks, s.(curScan := []), r.rule, phase);
  }

  lemma AfterLookUpWork(ks: seq<KeyID>, c: Client, s: State, r: ScanRequest, d: KeyID)
    requires Inv(c, s) && s.building && InHand(s, r) && Scanning(s, r.rule) && r.input == Some(d)
    requires Known(ks, AfterLookUp(c, s, r, d))
    ensures Total(ks, AfterLookUp(c, s, r, d)) <= Total(ks, s) - (if IsScanned(s, d) then 1 else 0)
  {
    hide Inv, ScanRule, DemandRule, DeferOnScan, DeferOnTask, Conclude, Hand, InHand, Scanning, IsScanned, CompleteNow, InProgress, Total, Known, Keeps, Grows;
    HandOn(s, r, d);
    ScanRuleKeeps(c, s, d);
    ScanRuleMarks(c, s, d);
    StillScanning(c, s, r.rule, d);
    var s2 := ScanRule(c, s, d);
    StillInHand(s, s2, r);
    if Scanning(s2, d) {
      DeferGrows(s2, r, d);
      KnownBefore(ks, s2, DeferOnScan(s2, r, d));
      ScanRuleWork(ks, c, s, d);
      IsFiled(c, s2);
      OnScanOnly(c, s, s2, r, d);
      DeferOnScanWork(ks, s2, r, d);
    } else {
      DemandedWork(ks, c, s2, r, d);
      ScanRuleGrows(c, s, d);
      DemandRuleGrows(c, s2, d);
      DemandedGrows(c, s2, r, d);
      KnownBefore(ks, s2, Demanded(c, s2, r, d));
      ScanRuleWork(ks, c, s, d);
    }
  }

  lemma StillInHand(s: State, s': State, r: ScanRequest)
    requires InHand(s, r) && SameBuild(s, s')
    ensures InHand(s', r) && s'.building == s.building
  {
  }

  lemma OnScanOnly(c: Client, s: State, s2: State, r: ScanRequest, d: KeyID)
    requires s2 == ScanRule(c, s, d) && Scanning(s2, d) && InHand(s2, r)
    ensures !IsScanned(s, d) && s2.curScan == [r]
  {
    hide WithoutSingleUse, FirstLook, StartScan;
  }

  lemma DeferGrows(s: State, r: ScanRequest, d: KeyID)
    ensures Grows(s, DeferOnScan(s, r, d)) && Grows(s, DeferOnTask(s, r, d))
  {
  }

  /** The rest of a look at a dependency that has been scanned. */
  ghost function Demanded(c: Client, s: State, r: ScanRequest, d: KeyID): State {
    var s' := DemandRule(c, s, d);
    if CompleteNow(s', d) then Conclude(c, s', r, d) else DeferOnTask(s', r, d)
  }

  lemma DemandedGrows(c: Client, s: State, r: ScanRequest, d: KeyID)
    ensures Grows(DemandRule(c, s, d), Demanded(c, s, r, d)) && Grows(s, Demanded(c, s, r, d))
  {
    hide DemandRule, Conclude, DeferOnTask, CompleteNow, Grows;
    var s' := DemandRule(c, s, d);
    DemandRuleGrows(c, s, d);
    DeferGrows(s', r, d);
    ConcludeGrows(c, s', r, d);
    GrowsTrans(s, s', Demanded(c, s, r, d));
  }

  lemma DemandedWork(ks: seq<KeyID>, c: Client, s: State, r: ScanRequest, d: KeyID)
    requires Inv(c, s) && s.building && InHand(s, r) && Scanning(s, r.rule) && r.input == Some(d) && IsScanned(s, d)
    requires Known(ks, Demanded(c, s, r, d))
    ensures Total(ks, Demanded(c, s, r, d)) <= Total(ks, s) - 1
  {
    hide Inv, DemandRule, DeferOnTask, Conclude, InHand, Scanning, IsScanned, CompleteNow, InProgress, Total, Known, Keeps, Grows;
    var s' := DemandRule(c, s, d);
    DemandedGrows(c, s, r, d);
    KnownBefore(ks, s', Demanded(c, s, r, d));
    DemandRuleWork(ks, c, s, d);
    DemandRuleKeeps(c, s, d);
    DemandRuleMarks(c, s, d);
    StillScanning(c, s, r.rule, d);
    StillInHand(s, s', r);
    if CompleteNow(s', d) {
      ConcludeWork(ks, c, s', r, d);
    } else {
      IsFiled(c, s');
      IsKnown(ks, s', d);
      HandIs(s', r);
      DeferOnTaskWork(ks, s', r, d);
    }
  }

  lemma HandIs(s: State, r: ScanRequest)
    requires InHand(s, r)
    ensures s.curScan == [r]
  {
  }

  lemma IsKnown(ks: seq<KeyID>, s: State, k: KeyID)
    requires Known(ks, s) && (Scanning(s, k) || InProgress(s, k) || CompleteNow(s, k))
    ensures k in ks
  {
  }

  lemma ProcessScanWork(ks: seq<KeyID>, c: Client, s: State, r: ScanRequest)
    requires Inv(c, s) && s.building && InHand(s, r) && (r.input.Some? ==> IsScanned(s, r.input.value))
    requires Known(ks, ProcessScan(c, s, r))
    ensures Total(ks, ProcessScan(c, s, r)) <= Total(ks, s) - 1
  {
    IsFiled(c, s);
    hide Inv, Filed, Total, AfterLookUp, Advance, IsScanned, Known, Grows, ToGo, AtThis, LookUp;
    if !Scanning(s, r.rule) {
      DropScanWork(ks, s, r);
    } else if SkipsDependency(c, s, r) {
      assert r.index < |Info(s, r.rule).result.dependencies| by { ScanningFacts(c, s, r); }
      AdvanceGrows(s, r);
      KnownBefore(ks, s, Advance(s, r));
      AdvanceWork(ks, s, r, r);
    } else {
      LookedUpWork(ks, c, s, r);
    }
  }

  lemma LookedUpWork(ks: seq<KeyID>, c: Client, s: State, r: ScanRequest)
    requires Inv(c, s) && s.building && InHand(s, r) && Scanning(s, r.rule) && (r.input.Some? ==> IsScanned(s, r.input.value))
    requires var r1 := LookUp(s, r); Known(ks, AfterLookUp(c, s.(curScan := [r1]), r1, r1.input.value))
    ensures var r1 := LookUp(s, r); Total(ks, AfterLookUp(c, s.(curScan := [r1]), r1, r1.input.value)) <= Total(ks, s) - 1
  {
    IsFiled(c, s);
    hide Inv, Filed, Total, AfterLookUp, IsScanned, Known, DependencyAt;
    var r1 := LookUp(s, r);
    var s1 := s.(curScan := [r1]);
    LookUpWork(ks, s, r);
    LookUpKeeps(c, s, r);
    AfterLookUpWork(ks, c, s1, r1, r1.input.value);
    SameScanned(s, s1);
  }

  lemma SameScanned(s: State, s': State)
    requires s'.epoch == s.epoch && s'.rules == s.rules && s'.db == s.db
    ensures forall k :: IsScanned(s', k) == IsScanned(s, k)
  {
  }

  lemma ScanOneWork(ks: seq<KeyID>, c: Client, s: State)
    requires Between(c, s) && s.building && s.ruleInfosToScan != [] && Known(ks, ScanOne(c, s))
    ensures Total(ks, ScanOne(c, s)) <= Total(ks, s) - 1
  {
    hide Inv, ProcessScan, IsScanned, TakeScan, InHand, Total, Known, Quiet;
    var r := Last(s.ruleInfosToScan);
    if r.input.Some? { InputScanned(c, s, r); }
    TakeScanKeeps(c, s);
    TakeScanSame(s);
    TakeScanWork(ks, c, s);
    ProcessScanWork(ks, c, TakeScan(s), r);
  }

  lemma TakeScanWork(ks: seq<KeyID>, c: Client, s: State)
    requires Inv(c, s) && s.ruleInfosToScan != [] && s.curScan == []
    ensures Total(ks, TakeScan(s)) <= Total(ks, s)
  {
    IsFiled(c, s);
    var s' := TakeScan(s);
    QueuesOnly(s, s');
    hide Inv, Filed, Total, Nowhere, ScanWork, InputWork;
    SumSingle(Last(s.ruleInfosToScan), ScanWork(s'));
    SumNone(ScanWork(s'));
    SpendNowhere(ks, s, s', 0);
  }

  // ---- One input request --------------------------------------------------------------------------------

  lemma DropInputWork(ks: seq<KeyID>, s: State, r: InputRequest)
    requires Filed(s) && s.curInput == [r]
    ensures Filed(s.(curInput := [])) && Total(ks, s.(curInput := [])) <= Total(ks, s) - InputWork(s)(r)
  {
    var s' := s.(curInput := []);
    QueuesOnly(s, s');
    FiledSame(s, s');
    SumSingle(r, InputWork(s'));
    SumNone(InputWork(s'));
    assert InputWork(s')(r) == InputWork(s)(r) by { SameScanned(s, s'); }
    hide Filed, Total, ScanWork, InputWork, Nowhere;
    SpendNowhere(ks, s, s', -InputWork(s)(r));
  }

  lemma PauseWork(ks: seq<KeyID>, s: State, r: InputRequest)
    requires Filed(s) && Known(ks, s) && s.curInput == [r] && Scanning(s, r.input)
    ensures Total(ks, Pause(s, r)) <= Total(ks, s) - 1
  {
    hide Filed, Total, QueueWork, Parked, RuleWork, RuleOnward, OnlyAt, NoDuplicates;
    var s1, s' := s.(curInput := []), Pause(s, r);
    DropInputWork(ks, s, r);
    SameQueues(s1, s');
    ListsOnly(s1, s', r.input);
    PausedMore(s1, s', r.input);
    Spend(ks, s1, s', r.input, 3, 0);
  }

  lemma PausedMore(s: State, s': State, d: KeyID)
    requires s'.rules == s.rules && s'.db == s.db && s'.epoch == s.epoch && s'.requestedBy == s.requestedBy
    requires s'.deferred == s.deferred && s'.taskDeferred == s.taskDeferred && |At(s'.paused, d)| == |At(s.paused, d)| + 1
    ensures Parked(s', d) <= Parked(s, d) + 3
  {
    SumLeq(At(s.deferred, d), OnScanWork(s'), OnScanWork(s));
    SumLeq(At(s.taskDeferred, d), OnTaskWork(s'), OnTaskWork(s));
  }

  lemma AwaitedMore(s: State, s': State, d: KeyID, n: int)
    requires s'.rules == s.rules && s'.db == s.db && s'.epoch == s.epoch && s'.paused == s.paused
    requires s'.deferred == s.deferred && s'.taskDeferred == s.taskDeferred && |At(s'.requestedBy, d)| == |At(s.requestedBy, d)| + n
    ensures Parked(s', d) <= Parked(s, d) + 2 * n
  {
    SumLeq(At(s.deferred, d), OnScanWork(s'), OnScanWork(s));
    SumLeq(At(s.taskDeferred, d), OnTaskWork(s'), OnTaskWork(s));
  }

  lemma AwaitWork(ks: seq<KeyID>, s: State, r: InputRequest)
    requires Filed(s) && r.input in ks && NoDuplicates(ks)
    ensures var s' := s.(requestedBy := s.requestedBy[r.input := At(s.requestedBy, r.input) + [r]]);
      Filed(s') && Total(ks, s') <= Total(ks, s) + 2
  {
    hide Filed, Total, QueueWork, Parked, RuleWork, RuleOnward, OnlyAt, NoDuplicates;
    var s' := s.(requestedBy := s.requestedBy[r.input := At(s.requestedBy, r.input) + [r]]);
    FiledSame(s, s');
    SameQueues(s, s');
    ListsOnly(s, s', r.input);
    AwaitedMore(s, s', r.input, 1);
    Spend(ks, s, s', r.input, 2, 0);
  }

  lemma AnswerWork(ks: seq<KeyID>, s: State, r: InputRequest)
    requires Filed(s)
    ensures var s' := s.(finishedInputRequests := s.finishedInputRequests + [r]);
      Filed(s') && Total(ks, s') <= Total(ks, s) + 1
  {
    hide Filed, Total, ScanWork, InputWork, Nowhere;
    var s' := s.(finishedInputRequests := s.finishedInputRequests + [r]);
    FiledSame(s, s');
    QueuesOnly(s, s');
    SpendNowhere(ks, s, s', 1);
  }

  /** Recording a dependency changes nothing that counts. */
  lemma RecordedWork(ks: seq<KeyID>, s: State, s': State, t: KeyID)
    requires Filed(s) && NoDuplicates(ks) && t in ks && Waiting(s, t)
    requires s' == s.(rules := s'.rules, tasks := s'.tasks) && OnlyAt(s, s', t)
    requires Waiting(s', t) && TaskOf(s', t).asked == TaskOf(s, t).asked
    ensures Total(ks, s') <= Total(ks, s)
  {
    assert RuleOnward(s, s', t) && RuleWork(s', t) == RuleWork(s, t);
    hide Filed, Total, QueueWork, Parked, RuleWork, RuleOnward, OnlyAt, NoDuplicates;
    SameQueues(s, s');
    Pay(ks, s, s', t, 0, 0);
  }

  lemma RecordedOnly(s: State, s0: State, r: InputRequest, t: KeyID)
    requires s0.rules == s.rules && s0.tasks == s.tasks && s0.db == s.db && Waiting(s, t)
    ensures var s' := s0.(rules := Recorded(s, r, t).rules, tasks := Recorded(s, r, t).tasks);
      OnlyAt(s0, s', t) && Waiting(s0, t) && Waiting(s', t) && TaskOf(s', t).asked == TaskOf(s0, t).asked
  {
  }

  lemma RecordWork(ks: seq<KeyID>, s: State, r: InputRequest, t: KeyID)
    requires Filed(s) && Known(ks, s) && s.curInput == [r] && IsScanned(s, r.input) && r.input in ks && Waiting(s, t)
    ensures Total(ks, Record(s, r, t)) <= Total(ks, s) - 1
  {
    IsKnown(ks, s, t);
    hide Filed, Total, Waiting, IsScanned, OnlyAt, NoDuplicates, Recorded, Record, TaskOf, Sent;
    var s1 := Sent(s, s.(curInput := []), r);
    SentWork(ks, s, r);
    SentSame(s, s.(curInput := []), r);
    RecordIs(s, r, t);
    RecordedOnly(s, s1, r, t);
    RecordedWork(ks, s1, Record(s, r, t), t);
  }

  lemma SentWork(ks: seq<KeyID>, s: State, r: InputRequest)
    requires Filed(s) && NoDuplicates(ks) && r.input in ks && s.curInput == [r] && IsScanned(s, r.input)
    ensures Filed(Sent(s, s.(curInput := []), r)) && Total(ks, Sent(s, s.(curInput := []), r)) <= Total(ks, s) - 1
  {
    hide Filed, Total, IsScanned, CompleteNow, NoDuplicates;
    DropInputWork(ks, s, r);
    AnswerWork(ks, s.(curInput := []), r);
    AwaitWork(ks, s.(curInput := []), r);
  }

  lemma SentSame(s: State, s0: State, r: InputRequest)
    ensures Sent(s, s0, r).rules == s0.rules && Sent(s, s0, r).tasks == s0.tasks && Sent(s, s0, r).db == s0.db
  {
    hide CompleteNow, At;
    if CompleteNow(s, r.input) {} else {}
  }

  /** The request is on its way to its task, or waits for its input. */
  ghost function Sent(s: State, s0: State, r: InputRequest): State {
    if CompleteNow(s, r.input) then s0.(finishedInputRequests := s0.finishedInputRequests + [r])
    else s0.(requestedBy := s0.requestedBy[r.input := At(s0.requestedBy, r.input) + [r]])
  }

  lemma RecordIs(s: State, r: InputRequest, t: KeyID)
    ensures Record(s, r, t) ==
      Sent(s, s.(curInput := []), r).(rules := Recorded(s, r, t).rules, tasks := Recorded(s, r, t).tasks)
  {
    hide CompleteNow, Info, TaskOf;
    if CompleteNow(s, r.input) {} else {}
  }

  lemma ProcessInputWork(ks: seq<KeyID>, c: Client, s: State, r: InputRequest)
    requires Inv(c, s) && s.building && InputInHand(s, r) && Known(ks, ProcessInput(c, s, r))
    ensures Total(ks, ProcessInput(c, s, r)) <= Total(ks, s) - 1
  {
    hide Inv, ScanRule, DemandRule, Pause, Record, Keeps, Hand, Scanning, IsScanned, InProgress, CompleteNow, CanRecord, Total, Known, Grows, InputInHand;
    InputHandOn(s, r);
    ScanRuleKeeps(c, s, r.input);
    ScanRuleMarks(c, s, r.input);
    var s1 := ScanRule(c, s, r.input);
    StillInputInHand(s, s1, r);
    if Scanning(s1, r.input) {
      PauseGrows(s1, r);
      KnownBefore(ks, s1, Pause(s1, r));
      ScanRuleWork(ks, c, s, r.input);
      IsFiled(c, s1);
      PauseWork(ks, s1, r);
    } else {
      AnsweredGrows(c, s1, r);
      KnownBefore(ks, s1, Answered(c, s1, r));
      ScanRuleWork(ks, c, s, r.input);
      AnsweredWork(ks, c, s1, r);
    }
  }

  lemma StillInputInHand(s: State, s': State, r: InputRequest)
    requires InputInHand(s, r) && SameBuild(s, s')
    ensures InputInHand(s', r) && s'.curInput == [r] && s'.building == s.building
  {
  }

  lemma PauseGrows(s: State, r: InputRequest)
    ensures Grows(s, Pause(s, r))
  {
  }

  /** The rest of the work on a request whose input has been scanned. */
  ghost function Answered(c: Client, s: State, r: InputRequest): State {
    var s' := DemandRule(c, s, r.input);
    if r.task.None? then s'.(curInput := []) else Record(s', r, r.task.value)
  }

  lemma AnsweredGrows(c: Client, s: State, r: InputRequest)
    ensures Grows(s, Answered(c, s, r)) && Grows(DemandRule(c, s, r.input), Answered(c, s, r))
  {
    hide DemandRule, Grows;
    var s' := DemandRule(c, s, r.input);
    DemandRuleGrows(c, s, r.input);
    if r.task.Some? { RecordGrows(s', r, r.task.value); } else { DropGrows(s'); }
    GrowsTrans(s, s', Answered(c, s, r));
  }

  lemma DropGrows(s: State)
    ensures Grows(s, s.(curInput := []))
  {
  }

  lemma RecordGrows(s: State, r: InputRequest, t: KeyID)
    ensures Grows(s, Record(s, r, t))
  {
    hide CompleteNow, Info, At, TaskOf, Recorded;
    RecordedGrows(s, r, t);
  }

  lemma RecordedGrows(s: State, r: InputRequest, t: KeyID)
    ensures Grows(s, Recorded(s, r, t))
  {
    hide Info, TaskOf;
  }

  lemma AnsweredWork(ks: seq<KeyID>, c: Client, s: State, r: InputRequest)
    requires Inv(c, s) && s.building && InputInHand(s, r) && IsScanned(s, r.input) && Known(ks, Answered(c, s, r))
    ensures Total(ks, Answered(c, s, r)) <= Total(ks, s) - 1
  {
    hide Inv, DemandRule, Record, Keeps, Scanning, IsScanned, InProgress, CompleteNow, CanRecord, Total, Known, Grows, InputInHand, Waiting;
    AnsweredGrows(c, s, r);
    var s' := DemandRule(c, s, r.input);
    KnownBefore(ks, s', Answered(c, s, r));
    DemandRuleWork(ks, c, s, r.input);
    DemandRuleKeeps(c, s, r.input);
    DemandRuleMarks(c, s, r.input);
    StillInputInHand(s, s', r);
    IsFiled(c, s');
    if r.task.None? {
      DropInputWork(ks, s', r);
    } else {
      CanRecordNow(c, s', r);
      IsKnown(ks, s', r.input);
      Recordable(s', r, r.task.value);
      RecordWork(ks, s', r, r.task.value);
    }
  }

  lemma Recordable(s: State, r: InputRequest, t: KeyID)
    requires CanRecord(s, r, t)
    ensures Waiting(s, t) && IsScanned(s, r.input)
  {
  }

  lemma InputOneWork(ks: seq<KeyID>, c: Client, s: State)
    requires Between(c, s) && s.building && s.inputRequests != [] && Known(ks, InputOne(c, s))
    ensures Total(ks, InputOne(c, s)) <= Total(ks, s) - 1
  {
    hide Inv, ProcessInput, TakeInput, InputInHand, Total, Known, Quiet;
    TakeInputKeeps(c, s);
    TakeInputSame(s);
    TakeInputWork(ks, c, s);
    ProcessInputWork(ks, c, TakeInput(s), s.inputRequests[0]);
  }

  lemma TakeInputWork(ks: seq<KeyID>, c: Client, s: State)
    requires Inv(c, s) && s.inputRequests != [] && s.curInput == []
    ensures Total(ks, TakeInput(s)) <= Total(ks, s)
  {
    IsFiled(c, s);
    hide Inv, Filed, Total, Nowhere, ScanWork, InputWork;
    var s' := TakeInput(s);
    QueuesOnly(s, s');
    FirstOut(s.inputRequests, InputWork(s'));
    SumNone(InputWork(s'));
    SpendNowhere(ks, s, s', 0);
  }

  lemma FirstOut<X>(xs: seq<X>, f: X -> int)
    requires xs != []
    ensures Sum(xs, f) == Sum([xs[0]], f) + Sum(xs[1..], f)
  {
    assert [xs[0]] + xs[1..] == xs;
    SumConcat([xs[0]], xs[1..], f);
  }

  // ---- Deliveries, ready tasks, reports, completion ---------------------------------------------------------

  lemma DeliverOneWork(ks: seq<KeyID>, c: Client, s: State)
    requires Inv(c, s) && s.finishedInputRequests != [] && Known(ks, s)
    ensures Total(ks, DeliverOne(c, s)) <= Total(ks, s) - 1
  {
    IsFiled(c, s);
    var r := Last(s.finishedInputRequests);
    assert Live(s, r) by { assert RequestsOk(s) by { Unpack(c, s); } }
    hide Inv, Filed, Total, Deliver, GotAfter, AsksAfter, QueueWork, NoDuplicates;
    if r.task.None? {
      var s' := s.(finishedInputRequests := Front(s.finishedInputRequests));
      QueuesOnly(s, s');
      FinishedWork(s, s');
      hide Nowhere;
      SpendNowhere(ks, s, s', -1);
    } else {
      DeliverWork(ks, s, r, r.task.value, GotAfter(s, r, r.task.value), AsksAfter(c, s, r, r.task.value));
    }
  }

  lemma FinishedWork(s: State, s': State)
    requires s'.ruleInfosToScan == s.ruleInfosToScan && s'.curScan == s.curScan && s'.inputRequests == s.inputRequests
    requires s'.curInput == s.curInput
    ensures QueueWork(s', s') == QueueWork(s', s) + |s'.finishedInputRequests| - |s.finishedInputRequests|
  {
    hide ScanWork, InputWork;
  }

  lemma DeliverWork(ks: seq<KeyID>, s: State, r: InputRequest, t: KeyID, got: seq<Delivery>, asks: seq<Dependency>)
    requires Filed(s) && Known(ks, s) && s.finishedInputRequests != [] && Waiting(s, t)
    ensures Total(ks, Deliver(s, r, t, got, asks)) <= Total(ks, s) - 1
  {
    var s' := Deliver(s, r, t, got, asks);
    hide Filed, Total, Parked, QueueWork, Requests, NoDuplicates;
    DeliverOnly(s, r, t, got, asks);
    PushInputsWork(s, s', Requests(t, |TaskOf(s, t).asked|, asks));
    Pay(ks, s, s', t, -4 * |asks|, 4 * |asks| - 1);
  }

  lemma DeliverOnly(s: State, r: InputRequest, t: KeyID, got: seq<Delivery>, asks: seq<Dependency>)
    requires s.finishedInputRequests != []
    ensures OnlyAt(s, Deliver(s, r, t, got, asks), t)
  {
    hide Requests, Asking, PushIf;
  }

  lemma ReadyOneWork(ks: seq<KeyID>, c: Client, s: State)
    requires Inv(c, s) && s.readyTaskInfos != [] && Known(ks, s)
    ensures Total(ks, ReadyOne(s)) <= Total(ks, s) - 1
  {
    IsFiled(c, s);
    var t := s.readyTaskInfos[0];
    assert Waiting(s, t) by { assert QueuesOk(s) by { Unpack(c, s); } hide NoDuplicates, ComputingSet; }
    hide Inv, Filed, Total, QueueWork, RuleWork, RuleOnward, OnlyAt, SameParked, NoDuplicates;
    ReadyAt(s);
    SameQueues(s, ReadyOne(s));
    IsKnown(ks, s, t);
    Pay(ks, s, ReadyOne(s), t, -1, 0);
  }

  lemma ReadyAt(s: State)
    requires s.readyTaskInfos != [] && Waiting(s, s.readyTaskInfos[0])
    ensures var t := s.readyTaskInfos[0];
      && OnlyAt(s, ReadyOne(s), t) && RuleOnward(s, ReadyOne(s), t) && SameParked(s, ReadyOne(s), t)
      && RuleWork(ReadyOne(s), t) <= RuleWork(s, t) - 1
  {
  }

  lemma ReportWork(ks: seq<KeyID>, c: Client, s: State, t: KeyID, value: Value, force: bool, found: seq<Delivery>)
    requires Inv(c, s) && Computing(s, t) && t !in s.finishedTaskInfos && Known(ks, s)
    ensures Total(ks, TaskIsComplete(c, s, t, value, force, found)) <= Total(ks, s) - 1
  {
    IsFiled(c, s);
    hide Inv, Filed, Total, QueueWork, RuleWork, RuleOnward, OnlyAt, SameParked, NoDuplicates, Discovered;
    var s' := TaskIsComplete(c, s, t, value, force, found);
    ReportOnly(c, s, t, value, force, found);
    ReportAt(c, s, t, value, force, found);
    SameQueues(s, s');
    IsKnown(ks, s, t);
    Pay(ks, s, s', t, -1, 0);
  }

  lemma ReportOnly(c: Client, s: State, t: KeyID, value: Value, force: bool, found: seq<Delivery>)
    ensures OnlyAt(s, TaskIsComplete(c, s, t, value, force, found), t)
  {
    hide Discovered;
  }

  lemma ReportAt(c: Client, s: State, t: KeyID, value: Value, force: bool, found: seq<Delivery>)
    requires Computing(s, t) && t !in s.finishedTaskInfos
    ensures var s' := TaskIsComplete(c, s, t, value, force, found);
      RuleOnward(s, s', t) && SameParked(s, s', t) && RuleWork(s', t) <= RuleWork(s, t) - 1
  {
    hide Discovered;
  }

  /** A task that is done has recorded everything it asked for. */
  lemma AllRecorded(c: Client, s: State, t: KeyID)
    requires Inv(c, s) && t in s.tasks && s.tasks[t].waitCount == 0
    ensures |Info(s, t).result.dependencies| == |s.tasks[t].asked|
  {
    assert Counted(s, t) && RecordsAsked(s.tasks[t], Info(s, t).result.dependencies) by { Unpack(c, s); hide Causal, CompleteNow; }
    hide Inv, Queued, Awaited;
    var task := s.tasks[t];
    EmptyCount(Queued(s, t));
    EmptyCount(Awaited(s, t));
    BelowSize(|task.asked|);
    assert |multiset(task.recorded)| == |task.recorded| && |multiset(task.delivered)| == |task.delivered|;
  }

  lemma BelowSize(n: nat)
    ensures |Below(n)| == n
  {
    BelowFrom(0, n);
    assert Below(0) == multiset{};
    hide From, Below;
  }

  lemma EmptyCount(m: multiset<nat>)
    ensures |m| == 0 ==> m == multiset{}
  {
  }

  lemma FinishOneWork(ks: seq<KeyID>, c: Client, s: State)
    requires Inv(c, s) && s.finishedTaskInfos != [] && Known(ks, s)
    ensures Total(ks, FinishOne(s)) <= Total(ks, s) - 1
  {
    var t := Last(s.finishedTaskInfos);
    CanFinish(c, s, t);
    AllRecorded(c, s, t);
    IsFiled(c, s);
    IsKnown(ks, s, t);
    hide Inv, Filed, NoDuplicates, Onward, OnlyAt, RuleOnward, Parked, QueueWork, RuleWork, Total, FinishOne;
    var s' := FinishOne(s);
    FinishOnly(s);
    FinishAt(s);
    OnwardAt(s, s', t);
    FinishParked(s);
    FinishQueues(s);
    var found, rb, td := |TaskOf(s, t).discovered|, |At(s.requestedBy, t)|, Sum(At(s.taskDeferred, t), OnTaskWork(s));
    Spend(ks, s, s', t, -1 - 4 * found - 2 * rb - td, 4 * found + rb + td);
  }

  lemma CanFinish(c: Client, s: State, t: KeyID)
    requires Inv(c, s) && t in s.finishedTaskInfos
    ensures Computing(s, t) && t in s.tasks && s.tasks[t].waitCount == 0 && t in s.created
  {
    assert Shape(s) && QueuesOk(s) by { Unpack(c, s); }
    hide Inv, NoDuplicates, ComputingSet;
    var _ := Info(s, t);
  }

  lemma FinishOnly(s: State)
    requires s.finishedTaskInfos != []
    ensures OnlyAt(s, FinishOne(s), Last(s.finishedTaskInfos))
  {
    hide Dummies, KeysOf;
  }

  lemma FinishAt(s: State)
    requires s.finishedTaskInfos != []
    requires var t := Last(s.finishedTaskInfos);
      Computing(s, t) && t in s.tasks && t in s.created && |Info(s, t).result.dependencies| == |s.tasks[t].asked|
    ensures var t := Last(s.finishedTaskInfos);
      && RuleOnward(s, FinishOne(s), t) && CompleteNow(FinishOne(s), t)
      && RuleWork(FinishOne(s), t) <= RuleWork(s, t) - 1 - 4 * |TaskOf(s, t).discovered|
  {
    hide Dummies, KeysOf;
  }

  lemma FinishParked(s: State)
    requires s.finishedTaskInfos != [] && Filed(s) && Onward(s, FinishOne(s))
    ensures var t := Last(s.finishedTaskInfos);
      Parked(FinishOne(s), t) <= Parked(s, t) - 2 * |At(s.requestedBy, t)| - Sum(At(s.taskDeferred, t), OnTaskWork(s))
  {
    hide Onward, Placed, ToGo, Dummies, KeysOf;
    var t, s' := Last(s.finishedTaskInfos), FinishOne(s);
    SumNone(OnTaskWork(s'));
    forall r | r in At(s.deferred, t) ensures OnScanWork(s')(r) <= OnScanWork(s)(r) { ToGoLess(s, s', r); }
    SumLeq(At(s.deferred, t), OnScanWork(s'), OnScanWork(s));
  }

  /** Discovered dependencies are asked for, and what waited for the task goes on. */
  lemma FinishQueues(s: State)
    requires s.finishedTaskInfos != [] && Filed(s) && Onward(s, FinishOne(s)) && CompleteNow(FinishOne(s), Last(s.finishedTaskInfos))
    ensures var t := Last(s.finishedTaskInfos);
      QueueWork(FinishOne(s), FinishOne(s)) <=
        QueueWork(FinishOne(s), s) + 4 * |TaskOf(s, t).discovered| + |At(s.requestedBy, t)| + Sum(At(s.taskDeferred, t), OnTaskWork(s))
  {
    hide Onward, Filed, Dummies, KeysOf, CompleteNow, ScanWork, InputWork, OnTaskWork;
    var t, s' := Last(s.finishedTaskInfos), FinishOne(s);
    MoreInputs(s', s.inputRequests, Dummies(TaskOf(s, t).discovered));
    MoreScans(s, s', t);
  }

  lemma MoreInputs(s: State, rs: seq<InputRequest>, more: seq<InputRequest>)
    ensures Sum(rs + more, InputWork(s)) <= Sum(rs, InputWork(s)) + 4 * |more|
  {
    SumConcat(rs, more, InputWork(s));
    SumAtMost(more, InputWork(s), 4);
  }

  lemma MoreScans(s: State, s': State, t: KeyID)
    requires Filed(s) && Onward(s, s') && CompleteNow(s', t)
    ensures Sum(s.ruleInfosToScan + At(s.taskDeferred, t), ScanWork(s')) <=
      Sum(s.ruleInfosToScan, ScanWork(s')) + Sum(At(s.taskDeferred, t), OnTaskWork(s))
  {
    hide Onward, Placed, ToGo, CompleteNow;
    SumConcat(s.ruleInfosToScan, At(s.taskDeferred, t), ScanWork(s'));
    forall r | r in At(s.taskDeferred, t) ensures ScanWork(s')(r) <= OnTaskWork(s)(r) { ToGoLess(s, s', r); }
    SumLeq(At(s.taskDeferred, t), ScanWork(s'), OnTaskWork(s));
  }

  // ---- Breaking cycles --------------------------------------------------------------------------------------

  lemma ForceBuildWork(ks: seq<KeyID>, c: Client, s: State, k: KeyID)
    requires Inv(c, s) && s.ruleInfosToScan == [] && Scanning(s, k) && Known(ks, s)
    ensures Total(ks, ForceBuild(s, k)) <= Total(ks, s) - 1
  {
    IsFiled(c, s);
    hide Inv, Filed, Total, NoDuplicates, OnlyAt;
    ForceOnly(s, k);
    WakeWork(ks, s, ForceBuild(s, k), k);
  }

  lemma ForceOnly(s: State, k: KeyID)
    requires s.ruleInfosToScan == []
    ensures OnlyAt(s, ForceBuild(s, k), k)
  {
  }

  lemma SupplyWork(ks: seq<KeyID>, c: Client, s: State, k: KeyID, i: nat)
    requires Inv(c, s) && Known(ks, s) && Waiting(s, k) && i < |At(s.requestedBy, k)|
    ensures Total(ks, SupplyPriorValue(s, k, i)) <= Total(ks, s) - 1
  {
    IsFiled(c, s);
    IsKnown(ks, s, k);
    hide Inv, Filed, Total, Parked, RuleWork, RuleOnward, OnlyAt, NoDuplicates, QueueWork, SupplyPriorValue;
    SupplyAt(s, k, i);
    SupplyParked(s, k, i);
    Spend(ks, s, SupplyPriorValue(s, k, i), k, -2, 1);
  }

  lemma SupplyAt(s: State, k: KeyID, i: nat)
    requires i < |At(s.requestedBy, k)|
    ensures var s' := SupplyPriorValue(s, k, i);
      && OnlyAt(s, s', k) && RuleOnward(s, s', k) && RuleWork(s', k) == RuleWork(s, k)
      && QueueWork(s', s') == QueueWork(s', s) + 1
  {
    var s' := SupplyPriorValue(s, k, i);
    hide RuleWork, RuleOnward, OnlyAt, QueueWork;
    FinishedWork(s, s');
    ListsOnly(s, s', k);
  }

  lemma SupplyParked(s: State, k: KeyID, i: nat)
    requires i < |At(s.requestedBy, k)|
    ensures Parked(SupplyPriorValue(s, k, i), k) <= Parked(s, k) - 2
  {
    hide Parked;
    AwaitedMore(s, SupplyPriorValue(s, k, i), k, -1);
  }

  // ---- Whole builds -----------------------------------------------------------------------------------------

  lemma StepGrows(c: Client, s: State, step: Step)
    requires Enabled(s, step) && WithinBuild(step)
    ensures Grows(s, Apply(c, s, step))
  {
    hide Grows, ScanOne, InputOne, DeliverOne, ReadyOne, TaskIsComplete, FinishOne, ForceBuild, SupplyPriorValue, Idle;
    match step {
      case DoScan => ScanOneGrows(c, s);
      case DoInput => InputOneGrows(c, s);
      case DoDeliver => DeliverOneGrows(c, s);
      case DoReady => ReadyOneGrows(s);
      case DoTaskIsComplete(t, v, f, found) => ReportGrows(c, s, t, v, f, found);
      case DoFinish => FinishOneGrows(s);
      case DoForceBuild(k) => ForceBuildGrows(s, k);
      case DoSupplyPriorValue(k, i) => SupplyGrows(s, k, i);
    }
  }

  lemma ScanOneGrows(c: Client, s: State)
    requires s.ruleInfosToScan != []
    ensures Grows(s, ScanOne(c, s))
  {
    hide ProcessScan;
    ProcessScanGrows(c, TakeScan(s), Last(s.ruleInfosToScan));
  }

  lemma ProcessScanGrows(c: Client, s: State, r: ScanRequest)
    ensures Grows(s, ProcessScan(c, s, r))
  {
    hide AfterLookUp, Advance, Scanning, SkipsDependency, DependencyAt;
    AdvanceGrows(s, r);
    AfterLookUpGrows(c, s.(curScan := [LookUp(s, r)]), LookUp(s, r), LookUp(s, r).input.value);
  }

  lemma AfterLookUpGrows(c: Client, s: State, r: ScanRequest, d: KeyID)
    ensures Grows(s, AfterLookUp(c, s, r, d))
  {
    hide Grows, ScanRule, DemandRule, DeferOnScan, DeferOnTask, Conclude, Scanning, CompleteNow;
    var s2 := ScanRule(c, s, d);
    ScanRuleGrows(c, s, d);
    DeferGrows(s2, r, d);
    DemandedGrows(c, s2, r, d);
    GrowsTrans(s, s2, DeferOnScan(s2, r, d));
    GrowsTrans(s, s2, Demanded(c, s2, r, d));
  }

  lemma InputOneGrows(c: Client, s: State)
    requires s.inputRequests != []
    ensures Grows(s, InputOne(c, s))
  {
    hide ProcessInput;
    ProcessInputGrows(c, TakeInput(s), s.inputRequests[0]);
  }

  lemma ProcessInputGrows(c: Client, s: State, r: InputRequest)
    ensures Grows(s, ProcessInput(c, s, r))
  {
    hide Grows, ScanRule, DemandRule, Pause, Record, Scanning;
    var s1 := ScanRule(c, s, r.input);
    ScanRuleGrows(c, s, r.input);
    PauseGrows(s1, r);
    AnsweredGrows(c, s1, r);
    GrowsTrans(s, s1, Pause(s1, r));
    GrowsTrans(s, s1, Answered(c, s1, r));
  }

  lemma DeliverOneGrows(c: Client, s: State)
    requires s.finishedInputRequests != []
    ensures Grows(s, DeliverOne(c, s))
  {
    hide GotAfter, AsksAfter, Deliver;
    var r := Last(s.finishedInputRequests);
    if r.task.Some? { DeliverGrows(s, r, r.task.value, GotAfter(s, r, r.task.value), AsksAfter(c, s, r, r.task.value)); }
  }

  lemma DeliverGrows(s: State, r: InputRequest, t: KeyID, got: seq<Delivery>, asks: seq<Dependency>)
    requires s.finishedInputRequests != []
    ensures Grows(s, Deliver(s, r, t, got, asks))
  {
    hide Requests, Asking, PushIf, TaskOf;
  }

  lemma ReadyOneGrows(s: State)
    requires s.readyTaskInfos != []
    ensures Grows(s, ReadyOne(s))
  {
    hide Info;
  }

  lemma ReportGrows(c: Client, s: State, t: KeyID, value: Value, force: bool, found: seq<Delivery>)
    ensures Grows(s, TaskIsComplete(c, s, t, value, force, found))
  {
    hide Info, TaskOf, Discovered;
  }

  lemma FinishOneGrows(s: State)
    requires s.finishedTaskInfos != []
    ensures Grows(s, FinishOne(s))
  {
    hide Info, TaskOf, At, Dummies, KeysOf;
  }

  lemma ForceBuildGrows(s: State, k: KeyID)
    ensures Grows(s, ForceBuild(s, k))
  {
    hide Info, At, WithoutScansOf;
  }

  lemma SupplyGrows(s: State, k: KeyID, i: nat)
    requires i < |At(s.requestedBy, k)|
    ensures Grows(s, SupplyPriorValue(s, k, i))
  {
    hide At;
  }

  /** Every step of a build leaves less to do. */
  lemma StepWork(ks: seq<KeyID>, c: Client, s: State, step: Step)
    requires Between(c, s) && Enabled(s, step) && WithinBuild(step) && Known(ks, Apply(c, s, step))
    ensures Total(ks, Apply(c, s, step)) <= Total(ks, s) - 1
  {
    Building(c, s, step);
    StepGrows(c, s, step);
    KnownBefore(ks, s, Apply(c, s, step));
    hide Inv, Grows, Known, Total, Quiet, ScanOne, InputOne, DeliverOne, ReadyOne, TaskIsComplete, FinishOne, ForceBuild, SupplyPriorValue;
    match step {
      case DoScan => ScanOneWork(ks, c, s);
      case DoInput => InputOneWork(ks, c, s);
      case DoDeliver => DeliverOneWork(ks, c, s);
      case DoReady => ReadyOneWork(ks, c, s);
      case DoTaskIsComplete(t, v, f, found) => ReportWork(ks, c, s, t, v, f, found);
      case DoFinish => FinishOneWork(ks, c, s);
      case DoForceBuild(k) => ForceBuildWork(ks, c, s, k);
      case DoSupplyPriorValue(k, i) => SupplyWork(ks, c, s, k, i);
    }
  }

  /** What a rule may cost, going by what it depended on before. */
  ghost function Before(s: State): KeyID -> int {
    k => 4 + 3 * |Info(s, k).result.dependencies|
  }

  /** What its task has added to that. */
  ghost function Added(s: State): KeyID -> int {
    k => 4 * Made(s, k)
  }

  lemma StartWork(ks: seq<KeyID>, s: State, root: KeyID)
    requires Quiet(s)
    ensures Total(ks, StartBuild(s, root)) <= 4 + Sum(ks, Before(s))
  {
    var s' := StartBuild(s, root);
    StartQueues(s, root);
    forall k ensures Work(s')(k) <= Before(s)(k) { StartAt(s, root, k); }
    hide QueueWork, Work, Before, StartBuild;
    SumLeq(ks, Work(s'), Before(s));
  }

  lemma StartQueues(s: State, root: KeyID)
    requires Quiet(s)
    ensures QueueWork(StartBuild(s, root), StartBuild(s, root)) <= 4
  {
    var s' := StartBuild(s, root);
    var r := Dummy(Dependency(root, false, false));
    assert s'.inputRequests == [r];
    SumSingle(r, InputWork(s'));
    SumNone(InputWork(s'));
    SumNone(ScanWork(s'));
  }

  lemma StartAt(s: State, root: KeyID, k: KeyID)
    requires Quiet(s)
    ensures Work(StartBuild(s, root))(k) <= Before(s)(k)
  {
    var s' := StartBuild(s, root);
    SumNone(OnScanWork(s'));
    SumNone(OnTaskWork(s'));
    assert Parked(s', k) == 0;
    hide Parked;
    RuleAtMost(s', k);
    hide RuleWork;
  }

  lemma RuleAtMost(s: State, k: KeyID)
    ensures -4 * Made(s, k) <= RuleWork(s, k) <= 4 + 3 * |Info(s, k).result.dependencies|
  {
  }

  /** There is never less than nothing left to do, apart from what the tasks have added. */
  lemma TotalAtLeast(ks: seq<KeyID>, s: State)
    ensures Total(ks, s) >= -Sum(ks, Added(s))
  {
    forall k ensures Work(s)(k) + Added(s)(k) >= 0 { RuleAtMost(s, k); ParkedAtLeast(s, k); }
    QueuesAtLeast(s);
    hide QueueWork, Work, Added;
    SumBoth(ks, Work(s), Added(s));
  }

  lemma ParkedAtLeast(s: State, k: KeyID)
    ensures Parked(s, k) >= 0
  {
    hide ToGo;
    SumPositive(At(s.deferred, k), OnScanWork(s));
    SumPositive(At(s.taskDeferred, k), OnTaskWork(s));
  }

  lemma QueuesAtLeast(s: State)
    ensures QueueWork(s, s) >= 0
  {
    hide ToGo, CompleteNow, IsScanned;
    SumPositive(s.ruleInfosToScan, ScanWork(s));
    SumPositive(s.curScan, ScanWork(s));
    SumPositive(s.inputRequests, InputWork(s));
    SumPositive(s.curInput, InputWork(s));
  }

  lemma {:induction false} SumPositive<X>(xs: seq<X>, f: X -> int)
    requires forall x :: x in xs ==> f(x) >= 0
    ensures Sum(xs, f) >= 0
    decreases |xs|
  {
    if xs != [] { SumPositive(Front(xs), f); }
  }

  lemma {:induction false} SumBoth<X>(xs: seq<X>, f: X -> int, g: X -> int)
    requires forall x :: x in xs ==> f(x) + g(x) >= 0
    ensures Sum(xs, f) + Sum(xs, g) >= 0
    decreases |xs|
  {
    if xs != [] { SumBoth(Front(xs), f, g); }
  }

  lemma {:induction false} BuildWork(ks: seq<KeyID>, c: Client, steps: seq<Step>, n: nat)
    requires Legal(c, steps) && LastBuild(steps, n) && Known(ks, Exec(c, steps))
    ensures Legal(c, steps[..n]) && Total(ks, Exec(c, steps)) + |steps| - n - 1 <= 4 + Sum(ks, Before(Exec(c, steps[..n])))
    decreases |steps|
  {
    hide Known, Total, Between, Apply, Enabled, WithinBuild, LastBuild, Grows;
    assert n < |steps| && steps[n].DoStartBuild? by { Started(steps, n); }
    PrefixLegal(c, steps, n);
    var front, last := Front(steps), Last(steps);
    RunInvariant(c, front);
    if n == |front| {
      assert front == steps[..n];
      StartsWork(ks, c, Exec(c, front), last);
    } else {
      LastBuildFront(steps, n);
      StepGrows(c, Exec(c, front), last);
      KnownBefore(ks, Exec(c, front), Exec(c, steps));
      BuildWork(ks, c, front, n);
      StepWork(ks, c, Exec(c, front), last);
    }
  }

  lemma StartsWork(ks: seq<KeyID>, c: Client, s: State, step: Step)
    requires Enabled(s, step) && step.DoStartBuild?
    ensures Total(ks, Apply(c, s, step)) <= 4 + Sum(ks, Before(s))
  {
    hide Total, Before, StartBuild, Quiet;
    StartWork(ks, s, step.root);
  }

  /** A build takes no more steps than four for each rule it knows, three for each dependency the rule had
      before, four for each input its task has asked for or discovered, and four. Whatever the order of the
      work, and however cycles are broken, only a task that asks for more and more can keep the engine busy. */
  lemma BuildIsBounded(ks: seq<KeyID>, c: Client, steps: seq<Step>, n: nat)
    requires Legal(c, steps) && LastBuild(steps, n) && Known(ks, Exec(c, steps))
    ensures Legal(c, steps[..n])
    ensures |steps| - n - 1 <= 4 + Sum(ks, Before(Exec(c, steps[..n]))) + Sum(ks, Added(Exec(c, steps)))
  {
    hide *;
    BuildWork(ks, c, steps, n);
    TotalAtLeast(ks, Exec(c, steps));
  }

  /** So a build among finitely many rules whose tasks ask for limited numbers of inputs comes to an end. */
  lemma LimitedBuildEnds(ks: seq<KeyID>, c: Client, steps: seq<Step>, n: nat, had: nat, asks: nat)
    requires Legal(c, steps) && LastBuild(steps, n) && Known(ks, Exec(c, steps)) && Legal(c, steps[..n])
    requires forall k :: k in ks ==> |Info(Exec(c, steps[..n]), k).result.dependencies| <= had && Made(Exec(c, steps), k) <= asks
    ensures |steps| - n - 1 <= 4 + (4 + 3 * had) * |ks| + 4 * asks * |ks|
  {
    hide Legal, Exec, Known, Made, Info;
    BuildIsBounded(ks, c, steps, n);
    SumAtMost(ks, Before(Exec(c, steps[..n])), 4 + 3 * had);
    SumAtMost(ks, Added(Exec(c, steps)), 4 * asks);
  }
}
