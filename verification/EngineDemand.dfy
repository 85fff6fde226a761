/** `demandRule` keeps the invariant. */
module EngineDemand {
  import opened Options
  import opened EngineState
  import opened EngineSteps
  import opened EngineCounts
  import opened EngineInvariant
  import opened EngineFrames
  import opened EngineRules

  lemma RequestsFront(t: KeyID, base: nat, asks: seq<Dependency>)
    requires asks != []
    ensures var n := |asks| - 1;
      && Requests(t, base, asks)[..n] == Requests(t, base, asks[..n])
      && Requests(t, base, asks)[n].task == Some(t) && Requests(t, base, asks)[n].id == base + n
  {
  }

  lemma {:induction false} RequestsIds(t: KeyID, base: nat, asks: seq<Dependency>, x: KeyID)
    ensures Ids(Requests(t, base, asks), x) == if x == t then From(base, |asks|) else multiset{}
  {
    hide Requests, From, Ids;
    var n := |asks| - 1;
    if n < 0 {
      NoAsks(t, base, x);
    } else {
      RequestsFront(t, base, asks);
      RequestsIds(t, base, asks[..n], x);
      FromOne(base, |asks|);
      IdsLast(Requests(t, base, asks), x);
    }
  }

  lemma NoAsks(t: KeyID, base: nat, x: KeyID)
    ensures Ids(Requests(t, base, []), x) == multiset{} && From(base, 0) == multiset{}
  {
  }

  lemma IdsLast(rs: seq<InputRequest>, x: KeyID)
    requires rs != []
    ensures Ids(rs, x) == Ids(rs[..|rs| - 1], x) + IdOf(rs[|rs| - 1], x)
  {
    hide IdOf;
  }

  ghost predicate CanLaunch(s: State, k: KeyID) {
    && Info(s, k).phase.NeedsToRun? && Info(s, k).result.builtAt < s.epoch
    && k !in s.tasks && k !in s.requestedBy && k !in s.taskDeferred && k !in s.created
  }

  lemma LaunchOnly(s: State, k: KeyID, asks: seq<Dependency>)
    requires CanLaunch(s, k)
    ensures Only(s, LaunchTask(s, k, asks), k)
    ensures var s' := LaunchTask(s, k, asks); Waiting(s', k) && Info(s', k).result.builtAt == Info(s, k).result.builtAt && Info(s', k).result.dependencies == []
    ensures ScanStable(s, LaunchTask(s, k, asks), k)
  {
  }

  lemma LaunchShape(s: State, k: KeyID, asks: seq<Dependency>)
    requires Shape(s) && CanLaunch(s, k)
    ensures Shape(LaunchTask(s, k, asks))
  {
    LaunchOnly(s, k, asks);
  }

  lemma LaunchTimes(s: State, k: KeyID, asks: seq<Dependency>)
    requires TimesOk(s) && CanLaunch(s, k)
    ensures TimesOk(LaunchTask(s, k, asks))
  {
    LaunchOnly(s, k, asks);
  }

  lemma LaunchRequests(s: State, k: KeyID, asks: seq<Dependency>)
    requires RequestsOk(s) && CanLaunch(s, k)
    ensures RequestsOk(LaunchTask(s, k, asks))
  {
    hide Live;
    var s' := LaunchTask(s, k, asks);
    LaunchOnly(s, k, asks);
    forall r: InputRequest | Live(s, r) ensures Live(s', r) { LiveFrame(s, s', k, r); }
    forall r: InputRequest | Live(s, r) && Answerable(s, r) ensures Answerable(s', r) {}
    forall r | r in Requests(k, 0, asks) ensures Live(s', r) { LaunchLive(s, k, asks, r); }
  }

  lemma LaunchLive(s: State, k: KeyID, asks: seq<Dependency>, r: InputRequest)
    requires CanLaunch(s, k) && r in Requests(k, 0, asks)
    ensures Live(LaunchTask(s, k, asks), r)
  {
  }

  lemma LaunchTally(asks: seq<Dependency>)
    ensures Tally(Asking(NEW_TASK, asks), From(0, |asks|), multiset{})
  {
    hide From, Below;
    FromNothing(|asks|);
    var task := Asking(NEW_TASK, asks);
    assert task.asked == asks by { assert [] + asks == asks; }
    var none: multiset<nat> := multiset{};
    assert task.recorded == [] && task.delivered == [] && multiset(task.delivered) == none;
    assert From(0, |asks|) + none + none == From(0, |asks|);
  }

  lemma FromNothing(n: nat)
    ensures From(0, n) == Below(n) && |From(0, n)| == n
  {
    BelowFrom(0, n);
    assert Below(0) == multiset{};
  }

  lemma LaunchPlaces(s: State, k: KeyID, asks: seq<Dependency>, t: KeyID)
    requires k !in s.requestedBy
    ensures var s' := LaunchTask(s, k, asks);
      && (t != k ==> Queued(s', t) == Queued(s, t))
      && (t == k && Queued(s, k) == multiset{} ==> Queued(s', k) == From(0, |asks|))
      && Awaited(s', t) == Awaited(s, t)
  {
    hide Ids, FlatIds, From, Requests, Asking;
    IdsConcat(s.inputRequests, Requests(k, 0, asks), t);
    RequestsIds(k, 0, asks, t);
    FlatIdsNew(s.requestedBy, t, k);
    assert Queued(LaunchTask(s, k, asks), t) == Queued(s, t) + Ids(Requests(k, 0, asks), t);
  }

  lemma LaunchCounts(s: State, k: KeyID, asks: seq<Dependency>)
    requires CountsOk(s) && RequestsOk(s) && CanLaunch(s, k)
    ensures CountsOk(LaunchTask(s, k, asks))
  {
    hide RequestsOk, Queued, Awaited, From, Tally, Asking, Requests, PushIf;
    var s' := LaunchTask(s, k, asks);
    NoRequests(s, k);
    LaunchTally(asks);
    forall t | t in s'.tasks ensures Counted(s', t) {
      LaunchPlaces(s, k, asks, t);
      if t != k { assert Counted(s, t); }
    }
  }

  /** No request of a rule without a task is anywhere. */
  lemma NoRequests(s: State, t: KeyID)
    requires RequestsOk(s) && t !in s.tasks
    ensures Queued(s, t) == multiset{} && Awaited(s, t) == multiset{}
  {
    hide Ids, FlatIds;
    IdsNone(s.inputRequests, t);
    IdsNone(s.curInput, t);
    IdsNone(s.finishedInputRequests, t);
    FlatIdsNone(s.paused, t);
    FlatIdsNone(s.requestedBy, t);
  }

  lemma LaunchTasks(s: State, k: KeyID, asks: seq<Dependency>)
    requires TasksOk(s) && CanLaunch(s, k)
    ensures TasksOk(LaunchTask(s, k, asks))
  {
    var s' := LaunchTask(s, k, asks);
    LaunchOnly(s, k, asks);
    assert s'.tasks[k].recorded == [] && s'.tasks[k].delivered == [];
    hide RecordsAsked, Causal;
    forall t | t in s.tasks ensures s'.tasks[t] == s.tasks[t] && Info(s', t) == Info(s, t) {}
    LaunchRecords(s, k, asks);
  }

  lemma LaunchRecords(s: State, k: KeyID, asks: seq<Dependency>)
    requires CanLaunch(s, k)
    ensures var s' := LaunchTask(s, k, asks); RecordsAsked(s'.tasks[k], Info(s', k).result.dependencies) && Causal(s'.tasks[k])
  {
  }

  lemma NoDuplicatesPush(xs: seq<KeyID>, t: KeyID, push: bool)
    requires NoDuplicates(xs) && (push ==> t !in xs)
    ensures NoDuplicates(PushIf(xs, t, push))
    ensures forall x :: x in PushIf(xs, t, push) <==> x in xs || (push && x == t)
  {
  }

  lemma LaunchQueues(s: State, k: KeyID, asks: seq<Dependency>)
    requires QueuesOk(s) && CanLaunch(s, k)
    ensures QueuesOk(LaunchTask(s, k, asks))
  {
    hide PushIf, NoDuplicates, Requests;
    var s' := LaunchTask(s, k, asks);
    LaunchOnly(s, k, asks);
    NoDuplicatesPush(s.readyTaskInfos, k, asks == []);
    NoDuplicatesPush(s.readied, k, asks == []);
    NoDuplicatesPush(s.created, k, true);
    assert s.created + [k] == PushIf(s.created, k, true) by { PushIfTrue(s.created, k); }
    assert ComputingSet(s') == ComputingSet(s);
  }

  lemma PushIfTrue(xs: seq<KeyID>, t: KeyID)
    ensures PushIf(xs, t, true) == xs + [t]
  {
  }

  lemma LaunchScans(c: Client, s: State, k: KeyID, asks: seq<Dependency>)
    requires ScansOk(c, s) && CanLaunch(s, k)
    ensures ScansOk(c, LaunchTask(s, k, asks))
  {
    hide ScanOk;
    var s' := LaunchTask(s, k, asks);
    LaunchOnly(s, k, asks);
    forall r: ScanRequest | ScanOk(c, s, r) ensures ScanOk(c, s', r) { ScanFrame(c, s, s', k, r); }
  }

  lemma LaunchOwners(s: State, k: KeyID, asks: seq<Dependency>)
    requires OwnersOk(s) && CanLaunch(s, k)
    ensures OwnersOk(LaunchTask(s, k, asks))
  {
    hide Owners, FlatOwners;
    var s' := LaunchTask(s, k, asks);
    LaunchOnly(s, k, asks);
    FlatOwnersNew(s.taskDeferred, k);
    assert AllOwners(s') == AllOwners(s);
  }

  lemma LaunchOwed(s: State, k: KeyID, asks: seq<Dependency>)
    requires OwedOk(s) && CanLaunch(s, k)
    ensures OwedOk(LaunchTask(s, k, asks))
  {
    var s' := LaunchTask(s, k, asks);
    LaunchOnly(s, k, asks);
    forall d | PendingDummy(s, d) ensures PendingDummy(s', d) {}
  }

  lemma LaunchDemands(s: State, k: KeyID, asks: seq<Dependency>)
    requires DemandsOk(s) && CanLaunch(s, k)
    ensures DemandsOk(LaunchTask(s, k, asks))
  {
    var s' := LaunchTask(s, k, asks);
    LaunchOnly(s, k, asks);
    forall x | Demander(s, x) ensures Demander(s', x) {}
  }

  lemma LaunchVerdict(c: Client, s: State, k: KeyID, asks: seq<Dependency>)
    requires CanLaunch(s, k)
    ensures VerdictOk(c, LaunchTask(s, k, asks), k)
  {
    LaunchOnly(s, k, asks);
  }

  lemma LaunchKeeps(c: Client, s: State, k: KeyID, asks: seq<Dependency>)
    requires Inv(c, s) && CanLaunch(s, k)
    ensures Inv(c, LaunchTask(s, k, asks)) && Keeps(s, LaunchTask(s, k, asks))
  {
    hide *;
    var s' := LaunchTask(s, k, asks);
    Unpack(c, s);
    LaunchOnly(s, k, asks);
    KeepsFrame(s, s', k);
    LaunchShape(s, k, asks);
    LaunchTimes(s, k, asks);
    LaunchRequests(s, k, asks);
    LaunchCounts(s, k, asks);
    LaunchTasks(s, k, asks);
    LaunchQueues(s, k, asks);
    LaunchScans(c, s, k, asks);
    LaunchOwners(s, k, asks);
    LaunchVerdict(c, s, k, asks);
    VerdictsFrame(c, s, s', k);
    LaunchOwed(s, k, asks);
    LaunchDemands(s, k, asks);
    Pack(c, s');
  }

  lemma LaunchMarks(s: State, k: KeyID, asks: seq<Dependency>)
    ensures InProgress(LaunchTask(s, k, asks), k) && SameBuild(s, LaunchTask(s, k, asks))
  {
    hide Requests, Asking, PushIf;
  }

  lemma CompleteMarks(s: State, k: KeyID)
    ensures CompleteNow(SetComplete(s, k), k) && SameBuild(s, SetComplete(s, k))
  {
  }

  /** `demandRule` leaves a scanned rule complete or in progress. */
  lemma DemandRuleMarks(c: Client, s: State, k: KeyID)
    requires IsScanned(s, k)
    ensures CompleteNow(DemandRule(c, s, k), k) || InProgress(DemandRule(c, s, k), k)
    ensures SameBuild(s, DemandRule(c, s, k))
  {
    hide LaunchTask, SetComplete;
    match Info(s, k).phase
    case DoesNotNeedToRun => CompleteMarks(s, k);
    case NeedsToRun => LaunchMarks(s, k, c.onStart(s.epoch, k));
    case _ =>
  }

  /** `demandRule` keeps the invariant. */
  lemma DemandRuleKeeps(c: Client, s: State, k: KeyID)
    requires Inv(c, s) && s.building
    ensures Inv(c, DemandRule(c, s, k)) && Keeps(s, DemandRule(c, s, k))
  {
    hide Inv, LaunchTask, SetComplete, Keeps;
    match Info(s, k).phase
    case DoesNotNeedToRun => SetCompleteKeeps(c, s, k);
    case NeedsToRun => NoTask(c, s, k); LaunchKeeps(c, s, k, c.onStart(s.epoch, k));
    case _ => KeepsItself(s);
  }
}
