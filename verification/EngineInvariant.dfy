/** What holds in every state the engine can reach, whatever its client does, including when
    cycles are broken and builds are cancelled. */
module EngineInvariant {
  import opened Options
  import opened EngineState
  import opened EngineSteps
  import opened EngineCounts

  // ---- Rules, tasks and records ---------------------------------------------------------

  /** During a build, only rules complete in an epoch carry that epoch as `builtAt`. */
  ghost predicate Fresh(s: State) {
    forall k :: !Info(s, k).phase.Complete? ==> Info(s, k).result.builtAt < s.epoch
  }

  ghost predicate TimesOk(s: State) {
    && (forall k :: Info(s, k).result.builtAt <= s.epoch)
    && (forall k :: k in s.db ==> s.db[k].builtAt <= s.epoch)
    && (s.building ==> Fresh(s))
  }

  /** In-progress rules have a task and scanning rules a scan record, and no others do. */
  ghost predicate Shape(s: State) {
    && |s.curScan| <= 1 && |s.curInput| <= 1
    && (forall k :: k in s.tasks <==> Info(s, k).phase.InProgressWaiting? || Info(s, k).phase.InProgressComputing?)
    && (forall k :: k in s.requestedBy <==> k in s.tasks)
    && (forall k :: k in s.taskDeferred <==> k in s.tasks)
    && (forall k :: k in s.paused <==> Info(s, k).phase.IsScanning?)
    && (forall k :: k in s.deferred <==> k in s.paused)
  }

  // ---- Input requests -------------------------------------------------------------------

  function DependencyOf(r: InputRequest): Dependency {
    Dependency(r.input, r.orderOnly, r.singleUse)
  }

  /** A request belongs to a task that is still waiting, and is one the task made. */
  ghost predicate Live(s: State, r: InputRequest) {
    r.task.Some? ==>
      var t := r.task.value;
      t in s.tasks && Waiting(s, t) && r.id < |s.tasks[t].asked| && s.tasks[t].asked[r.id] == DependencyOf(r)
  }

  ghost predicate Answerable(s: State, r: InputRequest) {
    r.task.Some? && (CompleteNow(s, r.input) || (r.forcePriorValue && s.broken))
  }

  ghost predicate RequestsOk(s: State) {
    && (forall r :: r in s.inputRequests ==> Live(s, r))
    && (forall r :: r in s.curInput ==> Live(s, r))
    && (forall d, r :: d in s.paused && r in s.paused[d] ==> Live(s, r) && r.input == d)
    && (forall d, r :: d in s.requestedBy && r in s.requestedBy[d] ==> Live(s, r) && r.input == d && r.task.Some?)
    && (forall r :: r in s.finishedInputRequests ==> Live(s, r) && Answerable(s, r))
  }

  /** The requests of `t` that are not yet recorded as dependencies. */
  ghost function Queued(s: State, t: KeyID): multiset<nat> {
    Ids(s.inputRequests, t) + Ids(s.curInput, t) + FlatIds(s.paused, t)
  }

  /** The requests of `t` that are recorded but not yet answered. */
  ghost function Awaited(s: State, t: KeyID): multiset<nat> {
    FlatIds(s.requestedBy, t) + Ids(s.finishedInputRequests, t)
  }

  /** Every request of a task is queued, awaited or delivered, exactly once, and `waitCount`
      counts the open ones. */
  ghost predicate Tally(task: TaskInfo, queued: multiset<nat>, awaited: multiset<nat>) {
    && Below(|task.asked|) == queued + awaited + multiset(task.delivered)
    && multiset(task.recorded) == awaited + multiset(task.delivered)
    && task.waitCount == |queued| + |awaited|
  }

  ghost predicate Counted(s: State, t: KeyID)
    requires t in s.tasks
  {
    Tally(s.tasks[t], Queued(s, t), Awaited(s, t))
  }

  ghost predicate CountsOk(s: State) {
    forall t :: t in s.tasks ==> Counted(s, t)
  }

  /** What is recorded so far is what was asked, in the order it was recorded. */
  ghost predicate RecordsAsked(task: TaskInfo, ds: seq<Dependency>) {
    && |ds| == |task.recorded| && |task.seen| == |task.asked|
    && forall i :: 0 <= i < |ds| ==> task.recorded[i] < |task.asked| && ds[i] == task.asked[task.recorded[i]]
  }

  /** Whatever had been delivered when a request was made is recorded before that request. */
  ghost predicate Causal(task: TaskInfo) {
    && (forall id :: 0 <= id < |task.seen| ==> task.seen[id] <= |task.delivered|)
    && (forall i, j :: 0 <= i < |task.recorded| && task.recorded[i] < |task.seen| && 0 <= j < task.seen[task.recorded[i]] ==>
          task.delivered[j] in task.recorded[..i])
  }

  /** The values a task has received are those of its delivered inputs, except must-follow ones. */
  ghost predicate TasksOk(s: State) {
    forall t :: t in s.tasks ==>
      && RecordsAsked(s.tasks[t], Info(s, t).result.dependencies)
      && Causal(s.tasks[t])
      && (!s.broken ==> forall id :: id in s.tasks[t].delivered && id < |s.tasks[t].asked| ==> CompleteNow(s, s.tasks[t].asked[id].key))
  }

  // ---- Queues ----------------------------------------------------------------------------

  ghost predicate NoDuplicates(xs: seq<KeyID>) {
    forall i, j :: 0 <= i < j < |xs| ==> xs[i] != xs[j]
  }

  ghost function ComputingSet(s: State): set<KeyID> {
    set t | t in s.tasks && Computing(s, t)
  }

  ghost predicate QueuesOk(s: State) {
    && NoDuplicates(s.readyTaskInfos) && NoDuplicates(s.finishedTaskInfos)
    && (forall t :: t in s.readyTaskInfos <==> t in s.tasks && Waiting(s, t) && s.tasks[t].waitCount == 0)
    && (forall t :: t in s.finishedTaskInfos ==> Computing(s, t))
    && (forall t :: t in s.tasks && Computing(s, t) ==> s.tasks[t].waitCount == 0)
    && s.numOutstanding == |ComputingSet(s)|
    && NoDuplicates(s.created) && NoDuplicates(s.readied)
    && (forall t :: t in s.created ==> InProgress(s, t) || CompleteNow(s, t))
    && (forall t :: t in s.tasks ==> t in s.created)
    && (forall t :: t in s.readied ==> t in s.created)
    && (forall t :: t in s.tasks && t in s.readied ==> s.tasks[t].waitCount == 0)
  }

  // ---- Scans -----------------------------------------------------------------------------

  /** A result still stands on its own: it exists, its signature is current and it is valid. */
  ghost predicate Stands(c: Client, epoch: nat, k: KeyID, res: Result) {
    res.builtAt != 0 && c.signature(epoch, k) == res.signature && c.isResultValid(epoch, k, res.value)
  }

  ghost predicate Matches(c: Client, s: State, k: KeyID) {
    Stands(c, s.epoch, k, Info(s, k).result)
  }

  ghost predicate Newer(s: State, k: KeyID, d: Dependency) {
    !d.orderOnly && CompleteNow(s, d.key) && Info(s, k).result.builtAt < Info(s, d.key).result.computedAt
  }

  /** Why a rule has to run. */
  ghost predicate OutOfDate(c: Client, s: State, k: KeyID) {
    !Matches(c, s, k) || exists d :: d in Info(s, k).result.dependencies && Newer(s, k, d)
  }

  ghost predicate Unchanged(s: State, k: KeyID, d: Dependency) {
    CompleteNow(s, d.key) && (d.orderOnly || Info(s, d.key).result.computedAt <= Info(s, k).result.builtAt)
  }

  /** Why a rule does not have to run. */
  ghost predicate UpToDate(c: Client, s: State, k: KeyID) {
    Matches(c, s, k) && forall d :: d in Info(s, k).result.dependencies ==> Unchanged(s, k, d)
  }

  /** How far a scan has got. */
  ghost predicate Scanned(c: Client, s: State, r: ScanRequest) {
    var ds := Info(s, r.rule).result.dependencies;
    && r.index < |ds| && Info(s, r.rule).result.builtAt != 0
    && (r.input.Some? ==> r.input.value == ds[r.index].key && r.orderOnly == ds[r.index].orderOnly)
    && (r.needsToRun ==>
          && OutOfDate(c, s, r.rule) && c.checksBefore(s.epoch, r.rule)
          && forall j :: 0 <= j < r.index && c.mustCheck(s.epoch, r.rule, ds[j].key) ==> CompleteNow(s, ds[j].key))
    && (!r.needsToRun ==> Matches(c, s, r.rule) && forall j :: 0 <= j < r.index ==> Unchanged(s, r.rule, ds[j]))
  }

  /** A scan request is for a scanning rule, unless that rule was forced to break a cycle. */
  ghost predicate ScanOk(c: Client, s: State, r: ScanRequest) {
    if Scanning(s, r.rule) then Scanned(c, s, r)
    else s.broken && Info(s, r.rule).wasForced && IsScanned(s, r.rule)
  }

  ghost function AllOwners(s: State): multiset<KeyID> {
    Owners(s.ruleInfosToScan) + Owners(s.curScan) + FlatOwners(s.deferred) + FlatOwners(s.taskDeferred)
  }

  ghost predicate OwnersOk(s: State) {
    forall k :: AllOwners(s)[k] <= 1 && (Info(s, k).phase.IsScanning? ==> AllOwners(s)[k] == 1)
  }

  ghost predicate ScansOk(c: Client, s: State) {
    && (forall r :: r in s.ruleInfosToScan ==> ScanOk(c, s, r))
    && (forall r :: r in s.curScan ==> ScanOk(c, s, r))
    && (forall d, r :: d in s.deferred && r in s.deferred[d] ==> ScanOk(c, s, r) && r.input == Some(d))
    && (forall d, r :: d in s.taskDeferred && r in s.taskDeferred[d] ==> ScanOk(c, s, r) && r.input == Some(d))
  }

  // ---- Verdicts --------------------------------------------------------------------------

  /** A scanned rule was scanned for a reason, and one that asked for checks has had them. */
  ghost predicate VerdictOk(c: Client, s: State, k: KeyID) {
    && (Info(s, k).phase.DoesNotNeedToRun? ==> UpToDate(c, s, k))
    && (Info(s, k).phase.NeedsToRun? && !Info(s, k).wasForced ==>
          && OutOfDate(c, s, k)
          && (c.checksBefore(s.epoch, k) && Info(s, k).result.builtAt != 0 ==>
                forall d :: d in Info(s, k).result.dependencies && c.mustCheck(s.epoch, k, d.key) ==> CompleteNow(s, d.key)))
  }

  ghost predicate VerdictsOk(c: Client, s: State) {
    s.tidy ==> forall k :: VerdictOk(c, s, k)
  }

  // ---- Progress --------------------------------------------------------------------------

  /** A request of the engine's own for `d` is on its way. */
  ghost predicate PendingDummy(s: State, d: KeyID) {
    exists r: InputRequest :: r.task.None? && r.input == d && (r in s.inputRequests || r in s.curInput || r in At(s.paused, d))
  }

  ghost predicate OwedOk(s: State) {
    forall d :: d in s.owed ==> CompleteNow(s, d) || InProgress(s, d) || PendingDummy(s, d)
  }

  /** Someone is going to demand `k` once it has been scanned. */
  ghost predicate Demander(s: State, k: KeyID) {
    || (exists r :: (r in s.inputRequests || r in s.curInput) && r.input == k)
    || (exists r :: (r in s.ruleInfosToScan || r in s.curScan) && r.input == Some(k))
  }

  ghost predicate DemandsOk(s: State) {
    && (forall r :: r in s.ruleInfosToScan && r.input.Some? ==> IsScanned(s, r.input.value))
    && (forall k :: Info(s, k).phase.IsScanning? ==>
          At(s.paused, k) != [] || At(s.deferred, k) != [] || (exists r :: r in s.curInput && r.input == k)
          || (exists r :: r in s.curScan && r.input == Some(k)))
    && (s.tidy && !s.broken ==> forall k :: Info(s, k).phase.NeedsToRun? || Info(s, k).phase.DoesNotNeedToRun? ==> Demander(s, k))
  }

  ghost predicate Inv(c: Client, s: State) {
    && Shape(s) && TimesOk(s) && RequestsOk(s) && CountsOk(s) && TasksOk(s) && QueuesOk(s)
    && OwnersOk(s) && ScansOk(c, s) && VerdictsOk(c, s) && OwedOk(s) && DemandsOk(s)
  }

  lemma Unpack(c: Client, s: State)
    requires Inv(c, s)
    ensures Shape(s) && TimesOk(s) && RequestsOk(s) && CountsOk(s) && TasksOk(s) && QueuesOk(s)
    ensures OwnersOk(s) && ScansOk(c, s) && VerdictsOk(c, s) && OwedOk(s) && DemandsOk(s)
  {
    hide Shape, TimesOk, RequestsOk, CountsOk, TasksOk, QueuesOk, OwnersOk, ScansOk, VerdictsOk, OwedOk, DemandsOk;
  }

  lemma Pack(c: Client, s: State)
    requires Shape(s) && TimesOk(s) && RequestsOk(s) && CountsOk(s) && TasksOk(s) && QueuesOk(s)
    requires OwnersOk(s) && ScansOk(c, s) && VerdictsOk(c, s) && OwedOk(s) && DemandsOk(s)
    ensures Inv(c, s)
  {
    hide Shape, TimesOk, RequestsOk, CountsOk, TasksOk, QueuesOk, OwnersOk, ScansOk, VerdictsOk, OwedOk, DemandsOk;
  }

  /** What is complete in this epoch stays as it is. */
  ghost predicate Keeps(s: State, s': State) {
    s'.epoch == s.epoch && forall k :: CompleteNow(s, k) ==> Info(s', k) == Info(s, k)
  }
}
