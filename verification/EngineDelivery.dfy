/** Answering input requests keeps the invariant. */
module EngineDelivery {
  import opened Options
  import opened EngineState
  import opened EngineSteps
  import opened EngineCounts
  import opened EngineInvariant
  import opened EngineFrames
  import opened EngineRules
  import opened EngineDemand
  import opened EngineScanning
  import opened EngineInputs

  /** The task after its request `id` was answered and it asked for more. */
  function Answered(task: TaskInfo, id: nat, got: seq<Delivery>, asks: seq<Dependency>): TaskInfo {
    Asking(task.(waitCount := task.waitCount - 1, delivered := task.delivered + [id], got := got), asks)
  }

  ghost predicate CanDeliver(s: State, r: InputRequest, t: KeyID) {
    && s.finishedInputRequests != [] && r == Last(s.finishedInputRequests) && r.task == Some(t)
    && t in s.tasks && Waiting(s, t) && r.id < |s.tasks[t].asked| && s.tasks[t].asked[r.id] == DependencyOf(r)
    && Answerable(s, r)
  }

  lemma CanDeliverMeans(s: State, r: InputRequest, t: KeyID)
    requires CanDeliver(s, r, t)
    ensures s.finishedInputRequests != [] && t in s.tasks
  {
  }

  lemma DeliverSame(s: State, r: InputRequest, t: KeyID, got: seq<Delivery>, asks: seq<Dependency>)
    requires CanDeliver(s, r, t)
    ensures var s' := Deliver(s, r, t, got, asks);
      && Only(s, s', t) && Info(s', t) == Info(s, t) && SameScans(s, s') && s'.db == s.db && ScanStable(s, s', t)
      && s'.tasks == s.tasks[t := Answered(s.tasks[t], r.id, got, asks)]
      && s'.inputRequests == s.inputRequests + Requests(t, |s.tasks[t].asked|, asks)
      && s.finishedInputRequests == s'.finishedInputRequests + [r]
      && s'.curInput == s.curInput && s'.paused == s.paused && s'.requestedBy == s.requestedBy
      && s'.created == s.created && s'.finishedTaskInfos == s.finishedTaskInfos && s'.numOutstanding == s.numOutstanding
      && (forall k :: Info(s', k) == Info(s, k))
  {
    hide PushIf, Asking, Requests, Answerable;
  }

  lemma DeliverQueuesAre(s: State, r: InputRequest, t: KeyID, got: seq<Delivery>, asks: seq<Dependency>)
    requires CanDeliver(s, r, t)
    ensures var s' := Deliver(s, r, t, got, asks);
      && s'.readyTaskInfos == PushIf(s.readyTaskInfos, t, s.tasks[t].waitCount - 1 + |asks| == 0)
      && s'.readied == PushIf(s.readied, t, s.tasks[t].waitCount - 1 + |asks| == 0)
  {
    hide PushIf, Requests, Answerable;
  }

  lemma DeliverShape(s: State, r: InputRequest, t: KeyID, got: seq<Delivery>, asks: seq<Dependency>)
    requires Shape(s) && CanDeliver(s, r, t)
    ensures Shape(Deliver(s, r, t, got, asks))
  {
    hide Deliver, Answerable, Answered, Requests;
    DeliverSame(s, r, t, got, asks);
  }

  lemma DeliverGrows(s: State, r: InputRequest, t: KeyID, got: seq<Delivery>, asks: seq<Dependency>)
    requires CanDeliver(s, r, t)
    ensures Grows(s, Deliver(s, r, t, got, asks))
  {
    hide Deliver, Answerable, Requests;
    DeliverSame(s, r, t, got, asks);
  }

  lemma DeliverNewLive(s: State, r: InputRequest, t: KeyID, got: seq<Delivery>, asks: seq<Dependency>, q: InputRequest)
    requires CanDeliver(s, r, t) && q in Requests(t, |s.tasks[t].asked|, asks)
    ensures Live(Deliver(s, r, t, got, asks), q)
  {
    hide Deliver, Answerable;
    DeliverSame(s, r, t, got, asks);
  }

  lemma DeliverRequests(s: State, r: InputRequest, t: KeyID, got: seq<Delivery>, asks: seq<Dependency>)
    requires RequestsOk(s) && CanDeliver(s, r, t)
    ensures RequestsOk(Deliver(s, r, t, got, asks))
  {
    hide Live, Answerable, Only, Grows, Deliver, Answered, Requests, CanDeliver;
    CanDeliverMeans(s, r, t);
    var s' := Deliver(s, r, t, got, asks);
    DeliverSame(s, r, t, got, asks);
    DeliverGrows(s, r, t, got, asks);
    forall q: InputRequest | Live(s, q) ensures Live(s', q) { LiveGrows(s, s', q); }
    forall q: InputRequest | Answerable(s, q) ensures Answerable(s', q) { AnswerableFrame(s, s', t, q); }
    forall q | q in Requests(t, |s.tasks[t].asked|, asks) ensures Live(s', q) { DeliverNewLive(s, r, t, got, asks, q); }
  }

  lemma DeliverPlaces(s: State, r: InputRequest, t: KeyID, got: seq<Delivery>, asks: seq<Dependency>, x: KeyID)
    requires CanDeliver(s, r, t)
    ensures var s' := Deliver(s, r, t, got, asks);
      && Queued(s', x) == Queued(s, x) + Ids(Requests(t, |s.tasks[t].asked|, asks), x)
      && Awaited(s, x) == Awaited(s', x) + IdOf(r, x)
  {
    hide Deliver, Answered, Requests, Ids, FlatIds, IdOf, Only, ScanStable, Answerable;
    var s' := Deliver(s, r, t, got, asks);
    DeliverSame(s, r, t, got, asks);
    IdsConcat(s.inputRequests, Requests(t, |s.tasks[t].asked|, asks), x);
    IdsAppend(s'.finishedInputRequests, r, x);
  }

  lemma AnsweredFields(task: TaskInfo, id: nat, got: seq<Delivery>, asks: seq<Dependency>)
    ensures var task' := Answered(task, id, got, asks);
      && |task'.asked| == |task.asked| + |asks| && task'.recorded == task.recorded
      && multiset(task'.delivered) == multiset(task.delivered) + multiset{id}
      && task'.waitCount == task.waitCount - 1 + |asks|
  {
  }

  lemma TallyDeliver(task: TaskInfo, q: multiset<nat>, a: multiset<nat>, a': multiset<nat>, id: nat, got: seq<Delivery>, asks: seq<Dependency>)
    requires Tally(task, q, a) && a == a' + multiset{id}
    ensures Tally(Answered(task, id, got, asks), q + From(|task.asked|, |asks|), a')
    ensures task.waitCount > 0
  {
    hide Below, From, Answered;
    BelowFrom(|task.asked|, |asks|);
    AnsweredFields(task, id, got, asks);
    assert |a| == |a'| + 1;
  }

  lemma DeliverCounts(s: State, r: InputRequest, t: KeyID, got: seq<Delivery>, asks: seq<Dependency>)
    requires CountsOk(s) && CanDeliver(s, r, t)
    ensures CountsOk(Deliver(s, r, t, got, asks))
  {
    hide Deliver, Answered, Requests, Queued, Awaited, Tally, Ids, From, Only, ScanStable, Answerable;
    var s' := Deliver(s, r, t, got, asks);
    DeliverSame(s, r, t, got, asks);
    forall x | x in s'.tasks ensures Counted(s', x) {
      assert Counted(s, x);
      DeliverPlaces(s, r, t, got, asks, x);
      RequestsIds(t, |s.tasks[t].asked|, asks, x);
      if x == t {
        TallyDeliver(s.tasks[t], Queued(s, t), Awaited(s, t), Awaited(s', t), r.id, got, asks);
      } else {
        assert Queued(s', x) == Queued(s, x) && Awaited(s', x) == Awaited(s, x);
      }
    }
  }

  lemma AnsweredRecords(task: TaskInfo, id: nat, got: seq<Delivery>, asks: seq<Dependency>, ds: seq<Dependency>)
    requires RecordsAsked(task, ds)
    ensures RecordsAsked(Answered(task, id, got, asks), ds)
  {
  }

  lemma AnsweredCausal(task: TaskInfo, id: nat, got: seq<Delivery>, asks: seq<Dependency>, ds: seq<Dependency>)
    requires RecordsAsked(task, ds) && Causal(task)
    ensures Causal(Answered(task, id, got, asks))
  {
    var task' := Answered(task, id, got, asks);
    forall i, j | 0 <= i < |task'.recorded| && task'.recorded[i] < |task'.seen| && 0 <= j < task'.seen[task'.recorded[i]]
      ensures task'.delivered[j] in task'.recorded[..i]
    {
      assert task'.seen[task'.recorded[i]] == task.seen[task.recorded[i]];
    }
  }

  lemma DeliveredAsked(s: State, t: KeyID)
    requires CountsOk(s) && t in s.tasks
    ensures forall x :: x in s.tasks[t].delivered ==> x in s.tasks[t].recorded
  {
    hide Tally, Queued, Awaited;
    assert Counted(s, t);
    DeliveredRecorded(s.tasks[t], Queued(s, t), Awaited(s, t));
  }

  lemma DeliverTasks(s: State, r: InputRequest, t: KeyID, got: seq<Delivery>, asks: seq<Dependency>)
    requires TasksOk(s) && CountsOk(s) && CanDeliver(s, r, t)
    ensures TasksOk(Deliver(s, r, t, got, asks))
  {
    hide Deliver, RecordsAsked, Causal, Requests, ScanStable, CountsOk;
    DeliveredAsked(s, t);
    var s' := Deliver(s, r, t, got, asks);
    DeliverSame(s, r, t, got, asks);
    AnsweredRecords(s.tasks[t], r.id, got, asks, Info(s, t).result.dependencies);
    AnsweredCausal(s.tasks[t], r.id, got, asks, Info(s, t).result.dependencies);
    forall id | !s.broken && id in s'.tasks[t].delivered && id < |s'.tasks[t].asked| ensures CompleteNow(s', s'.tasks[t].asked[id].key) {
      AnsweredDone(s, r, t, got, asks, id);
    }
  }

  lemma AnsweredDone(s: State, r: InputRequest, t: KeyID, got: seq<Delivery>, asks: seq<Dependency>, id: nat)
    requires TasksOk(s) && CanDeliver(s, r, t) && !s.broken && (forall x :: x in s.tasks[t].delivered ==> x in s.tasks[t].recorded)
    requires var task := Answered(s.tasks[t], r.id, got, asks); id in task.delivered && id < |task.asked|
    ensures CompleteNow(s, Answered(s.tasks[t], r.id, got, asks).asked[id].key)
  {
    hide Causal;
    assert id == r.id || id in s.tasks[t].delivered;
    assert id < |s.tasks[t].asked|;
  }

  lemma DeliverWaits(s: State, r: InputRequest, t: KeyID)
    requires CountsOk(s) && CanDeliver(s, r, t)
    ensures s.tasks[t].waitCount > 0
  {
    hide Queued, Ids, FlatIds, Below, Answerable;
    assert Counted(s, t);
    IdsAppend(Front(s.finishedInputRequests), r, t);
    assert s.finishedInputRequests == Front(s.finishedInputRequests) + [r];
    assert r.id in Awaited(s, t);
  }

  lemma DeliverQueues(s: State, r: InputRequest, t: KeyID, got: seq<Delivery>, asks: seq<Dependency>)
    requires QueuesOk(s) && CanDeliver(s, r, t) && s.tasks[t].waitCount > 0
    ensures QueuesOk(Deliver(s, r, t, got, asks))
  {
    hide Deliver, PushIf, NoDuplicates, Requests, Answerable, ScanStable, Answered;
    var s' := Deliver(s, r, t, got, asks);
    DeliverSame(s, r, t, got, asks);
    DeliverQueuesAre(s, r, t, got, asks);
    var push := s.tasks[t].waitCount - 1 + |asks| == 0;
    NoDuplicatesPush(s.readyTaskInfos, t, push);
    NoDuplicatesPush(s.readied, t, push);
    AnsweredFields(s.tasks[t], r.id, got, asks);
    assert s'.tasks[t].waitCount == s.tasks[t].waitCount - 1 + |asks|;
    assert ComputingSet(s') == ComputingSet(s);
  }

  lemma DeliverOwed(s: State, r: InputRequest, t: KeyID, got: seq<Delivery>, asks: seq<Dependency>)
    requires OwedOk(s) && CanDeliver(s, r, t)
    ensures OwedOk(Deliver(s, r, t, got, asks))
  {
    hide Deliver, Requests, Answerable, ScanStable;
    var s' := Deliver(s, r, t, got, asks);
    DeliverSame(s, r, t, got, asks);
    forall d | PendingDummy(s, d) ensures PendingDummy(s', d) {}
  }

  lemma DeliverDemands(s: State, r: InputRequest, t: KeyID, got: seq<Delivery>, asks: seq<Dependency>)
    requires DemandsOk(s) && CanDeliver(s, r, t)
    ensures DemandsOk(Deliver(s, r, t, got, asks))
  {
    hide Deliver, Requests, Answerable, ScanStable;
    var s' := Deliver(s, r, t, got, asks);
    DeliverSame(s, r, t, got, asks);
    forall x | Demander(s, x) ensures Demander(s', x) {}
  }

  lemma DeliverVerdicts(c: Client, s: State, r: InputRequest, t: KeyID, got: seq<Delivery>, asks: seq<Dependency>)
    requires VerdictsOk(c, s) && CanDeliver(s, r, t)
    ensures VerdictsOk(c, Deliver(s, r, t, got, asks))
  {
    hide Deliver, Requests, Answerable, ScanStable, VerdictOk, Only;
    DeliverSame(s, r, t, got, asks);
    if s.tidy { VerdictFrame(c, s, Deliver(s, r, t, got, asks), t); }
    VerdictsFrame(c, s, Deliver(s, r, t, got, asks), t);
  }

  lemma DeliverKeeps(c: Client, s: State, r: InputRequest, t: KeyID, got: seq<Delivery>, asks: seq<Dependency>)
    requires Inv(c, s) && CanDeliver(s, r, t)
    ensures Inv(c, Deliver(s, r, t, got, asks)) && Keeps(s, Deliver(s, r, t, got, asks))
  {
    hide *;
    CanDeliverMeans(s, r, t);
    var s' := Deliver(s, r, t, got, asks);
    Unpack(c, s);
    DeliverSame(s, r, t, got, asks);
    KeepsFrame(s, s', t);
    DeliverShape(s, r, t, got, asks);
    TimesFrame(s, s', t);
    DeliverRequests(s, r, t, got, asks);
    DeliverCounts(s, r, t, got, asks);
    DeliverTasks(s, r, t, got, asks);
    DeliverWaits(s, r, t);
    DeliverQueues(s, r, t, got, asks);
    ScansFrame(c, s, s', t);
    OwnersFrame(s, s', t);
    DeliverVerdicts(c, s, r, t, got, asks);
    DeliverOwed(s, r, t, got, asks);
    DeliverDemands(s, r, t, got, asks);
    Pack(c, s');
  }

  lemma CanDeliverNow(c: Client, s: State)
    requires Inv(c, s) && s.finishedInputRequests != []
    ensures var r := Last(s.finishedInputRequests); r.task.Some? && CanDeliver(s, r, r.task.value)
  {
    hide Shape, TimesOk, CountsOk, TasksOk, QueuesOk, OwnersOk, ScansOk, VerdictsOk, OwedOk, DemandsOk;
    var r := Last(s.finishedInputRequests);
    assert Live(s, r) && Answerable(s, r);
  }

  /** Answering one input request keeps the invariant. */
  lemma DeliverOneKeeps(c: Client, s: State)
    requires Inv(c, s) && s.finishedInputRequests != []
    ensures Inv(c, DeliverOne(c, s)) && Keeps(s, DeliverOne(c, s))
  {
    hide Inv, Deliver, Keeps, CanDeliver, GotAfter, AsksAfter;
    CanDeliverNow(c, s);
    var r := Last(s.finishedInputRequests);
    var t := r.task.value;
    DeliverKeeps(c, s, r, t, GotAfter(s, r, t), AsksAfter(c, s, r, t));
  }
}
