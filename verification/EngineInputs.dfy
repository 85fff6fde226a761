/** Processing input requests keeps the invariant. */
module EngineInputs {
  import opened Options
  import opened EngineState
  import opened EngineSteps
  import opened EngineCounts
  import opened EngineInvariant
  import opened EngineFrames
  import opened EngineRules
  import opened EngineDemand
  import opened EngineScanning

  /** Only the places where unrecorded input requests are kept change. */
  ghost predicate InputsMove(s: State, s': State) {
    s' == s.(curInput := s'.curInput, inputRequests := s'.inputRequests, paused := s'.paused)
  }

  lemma InputsMoveOnly(s: State, s': State, k: KeyID)
    requires InputsMove(s, s')
    ensures Only(s, s', k) && SameScans(s, s') && SameQueues(s, s') && s'.db == s.db && s'.tasks == s.tasks
    ensures Info(s', k) == Info(s, k) && ScanStable(s, s', k)
  {
  }

  lemma InputsMoveKeeps(c: Client, s: State, s': State)
    requires Inv(c, s) && InputsMove(s, s')
    requires Shape(s') && RequestsOk(s') && CountsOk(s') && OwedOk(s') && DemandsOk(s')
    ensures Inv(c, s') && Keeps(s, s')
  {
    hide *;
    Unpack(c, s);
    InputsMoveOnly(s, s', 0);
    KeepsFrame(s, s', 0);
    TimesFrame(s, s', 0);
    TasksFrame(s, s', 0);
    QueuesFrame(s, s', 0);
    ScansFrame(c, s, s', 0);
    OwnersFrame(s, s', 0);
    VerdictsMove(c, s, s');
    Pack(c, s');
  }

  lemma InputsInfo(s: State, s': State)
    requires InputsMove(s, s')
    ensures forall k :: Info(s', k) == Info(s, k)
  {
  }

  lemma LiveMove(s: State, s': State)
    requires InputsMove(s, s')
    ensures forall r :: Live(s, r) ==> Live(s', r)
    ensures forall r :: Answerable(s, r) ==> Answerable(s', r)
  {
    InputsInfo(s, s');
  }

  lemma CountsMove(s: State, s': State)
    requires CountsOk(s) && InputsMove(s, s') && forall t :: Queued(s', t) == Queued(s, t)
    ensures CountsOk(s')
  {
    hide Queued, Tally;
    forall t | t in s'.tasks ensures Counted(s', t) { assert Counted(s, t); }
  }

  /** The input request in hand. */
  ghost predicate InputInHand(s: State, r: InputRequest) {
    s.curInput == [r] && s.curScan == []
  }

  lemma IdsEmpty(t: KeyID)
    ensures Ids([], t) == multiset{}
  {
  }

  // ---- Popping ------------------------------------------------------------------------------

  lemma TakeInputShape(s: State)
    requires Shape(s) && s.inputRequests != []
    ensures Shape(TakeInput(s)) && InputsMove(s, TakeInput(s))
  {
    InputsInfo(s, TakeInput(s));
  }

  lemma TakeInputRequests(s: State)
    requires RequestsOk(s) && s.inputRequests != []
    ensures RequestsOk(TakeInput(s))
  {
    hide Live, Answerable;
    LiveMove(s, TakeInput(s));
  }

  lemma TakeInputCounts(s: State)
    requires CountsOk(s) && s.inputRequests != [] && s.curInput == []
    ensures CountsOk(TakeInput(s))
  {
    hide Ids, FlatIds, CountsOk;
    forall t ensures Queued(TakeInput(s), t) == Queued(s, t) {
      IdsFirst(s.inputRequests, t);
      IdsOne(s.inputRequests[0], t);
      IdsEmpty(t);
    }
    CountsMove(s, TakeInput(s));
  }

  lemma TakeInputOwed(s: State)
    requires OwedOk(s) && s.inputRequests != [] && s.curInput == []
    ensures OwedOk(TakeInput(s))
  {
    var s' := TakeInput(s);
    InputsInfo(s, s');
    assert s.inputRequests == s'.curInput + s'.inputRequests;
    forall d | PendingDummy(s, d) ensures PendingDummy(s', d) {}
  }

  lemma TakeInputDemands(s: State)
    requires DemandsOk(s) && s.inputRequests != [] && s.curInput == []
    ensures DemandsOk(TakeInput(s))
  {
    var s' := TakeInput(s);
    InputsInfo(s, s');
    assert s.inputRequests == s'.curInput + s'.inputRequests;
    forall x | Demander(s, x) ensures Demander(s', x) {}
  }

  lemma TakeInputKeeps(c: Client, s: State)
    requires Inv(c, s) && s.inputRequests != [] && s.curInput == []
    ensures Inv(c, TakeInput(s)) && Keeps(s, TakeInput(s))
  {
    hide *;
    Unpack(c, s);
    TakeInputShape(s);
    TakeInputRequests(s);
    TakeInputCounts(s);
    TakeInputOwed(s);
    TakeInputDemands(s);
    InputsMoveKeeps(c, s, TakeInput(s));
  }

  // ---- Pausing ------------------------------------------------------------------------------

  lemma PauseShape(s: State, r: InputRequest)
    requires Shape(s) && InputInHand(s, r) && Scanning(s, r.input)
    ensures Shape(Pause(s, r)) && InputsMove(s, Pause(s, r))
  {
    InputsInfo(s, Pause(s, r));
  }

  lemma PauseRequests(s: State, r: InputRequest)
    requires Shape(s) && RequestsOk(s) && InputInHand(s, r) && Scanning(s, r.input)
    ensures RequestsOk(Pause(s, r))
  {
    hide Live, Answerable;
    PauseShape(s, r);
    LiveMove(s, Pause(s, r));
  }

  lemma PauseCounts(s: State, r: InputRequest)
    requires CountsOk(s) && InputInHand(s, r)
    ensures CountsOk(Pause(s, r))
  {
    hide Ids, FlatIds, CountsOk;
    forall t ensures Queued(Pause(s, r), t) == Queued(s, t) {
      IdsOne(r, t);
      IdsEmpty(t);
      FlatIdsAdd(s.paused, t, r.input, r);
    }
    CountsMove(s, Pause(s, r));
  }

  lemma PauseOwed(s: State, r: InputRequest)
    requires OwedOk(s) && InputInHand(s, r)
    ensures OwedOk(Pause(s, r))
  {
    var s' := Pause(s, r);
    InputsInfo(s, s');
    forall d | PendingDummy(s, d) ensures PendingDummy(s', d) {
      var q: InputRequest :| q.task.None? && q.input == d && (q in s.inputRequests || q in s.curInput || q in At(s.paused, d));
      assert q in s'.inputRequests || q in At(s'.paused, d);
    }
  }

  lemma PauseDemands(s: State, r: InputRequest)
    requires DemandsOk(s) && InputInHand(s, r) && Scanning(s, r.input)
    ensures DemandsOk(Pause(s, r))
  {
    var s' := Pause(s, r);
    InputsInfo(s, s');
    forall x | Demander(s, x) && Verdict(s, x) ensures Demander(s', x) {}
  }

  lemma PauseKeeps(c: Client, s: State, r: InputRequest)
    requires Inv(c, s) && InputInHand(s, r) && Scanning(s, r.input)
    ensures Inv(c, Pause(s, r)) && Keeps(s, Pause(s, r))
  {
    hide *;
    Unpack(c, s);
    PauseShape(s, r);
    PauseRequests(s, r);
    PauseCounts(s, r);
    PauseOwed(s, r);
    PauseDemands(s, r);
    InputsMoveKeeps(c, s, Pause(s, r));
  }

  // ---- The engine's own requests ---------------------------------------------------------------

  ghost predicate Dropped(s: State, r: InputRequest) {
    InputInHand(s, r) && r.task.None? && (CompleteNow(s, r.input) || InProgress(s, r.input))
  }

  lemma DropInputShape(s: State, r: InputRequest)
    requires Shape(s) && Dropped(s, r)
    ensures Shape(s.(curInput := [])) && InputsMove(s, s.(curInput := []))
  {
    InputsInfo(s, s.(curInput := []));
  }

  lemma DropInputRequests(s: State, r: InputRequest)
    requires RequestsOk(s) && Dropped(s, r)
    ensures RequestsOk(s.(curInput := []))
  {
    hide Live, Answerable;
    LiveMove(s, s.(curInput := []));
  }

  lemma DropInputCounts(s: State, r: InputRequest)
    requires CountsOk(s) && Dropped(s, r)
    ensures CountsOk(s.(curInput := []))
  {
    hide Ids, FlatIds, CountsOk;
    forall t ensures Queued(s.(curInput := []), t) == Queued(s, t) {
      IdsOne(r, t);
      IdsEmpty(t);
    }
    CountsMove(s, s.(curInput := []));
  }

  lemma DropInputOwed(s: State, r: InputRequest)
    requires OwedOk(s) && Dropped(s, r)
    ensures OwedOk(s.(curInput := []))
  {
    var s' := s.(curInput := []);
    InputsInfo(s, s');
    forall d | PendingDummy(s, d) && d != r.input ensures PendingDummy(s', d) {}
  }

  lemma DropInputDemands(s: State, r: InputRequest)
    requires DemandsOk(s) && Dropped(s, r)
    ensures DemandsOk(s.(curInput := []))
  {
    var s' := s.(curInput := []);
    InputsInfo(s, s');
    forall x | Demander(s, x) && Verdict(s, x) ensures Demander(s', x) {}
  }

  lemma DropInputKeeps(c: Client, s: State, r: InputRequest)
    requires Inv(c, s) && Dropped(s, r)
    ensures Inv(c, s.(curInput := [])) && Keeps(s, s.(curInput := []))
  {
    hide *;
    Unpack(c, s);
    DropInputShape(s, r);
    DropInputRequests(s, r);
    DropInputCounts(s, r);
    DropInputOwed(s, r);
    DropInputDemands(s, r);
    InputsMoveKeeps(c, s, s.(curInput := []));
  }

  // ---- Recording a dependency ----------------------------------------------------------------

  ghost predicate CanRecord(s: State, r: InputRequest, t: KeyID) {
    && InputInHand(s, r) && r.task == Some(t) && (CompleteNow(s, r.input) || InProgress(s, r.input))
    && t in s.tasks && Waiting(s, t) && Info(s, t).result.builtAt < s.epoch
    && r.id < |s.tasks[t].asked| && s.tasks[t].asked[r.id] == DependencyOf(r)
  }

  /** The state after recording, wherever the request then goes. */
  ghost predicate RecordStep(s: State, s': State, r: InputRequest, t: KeyID) {
    s' == Recorded(s, r, t).(finishedInputRequests := s'.finishedInputRequests, requestedBy := s'.requestedBy)
  }

  lemma RecordOnly(s: State, s': State, r: InputRequest, t: KeyID)
    requires CanRecord(s, r, t) && RecordStep(s, s', r, t)
    ensures Only(s, s', t) && SameScans(s, s') && SameQueues(s, s') && s'.db == s.db && ScanStable(s, s', t)
    ensures Info(s', t).phase == Info(s, t).phase && Info(s', t).result.builtAt == Info(s, t).result.builtAt < s.epoch
    ensures Info(s', t).result.dependencies == Info(s, t).result.dependencies + [DependencyOf(r)]
    ensures s'.tasks == s.tasks[t := s.tasks[t].(recorded := s.tasks[t].recorded + [r.id])]
    ensures s'.inputRequests == s.inputRequests && s'.curInput == [] && s'.paused == s.paused
  {
  }

  lemma RecordedSame(s: State, r: InputRequest, t: KeyID)
    ensures Recorded(s, r, t).requestedBy == s.requestedBy && Recorded(s, r, t).finishedInputRequests == s.finishedInputRequests
  {
  }

  lemma RecordShape(s: State, r: InputRequest, t: KeyID)
    requires Shape(s) && CanRecord(s, r, t)
    ensures Shape(Record(s, r, t)) && RecordStep(s, Record(s, r, t), r, t)
  {
    hide Recorded;
    var s' := Record(s, r, t);
    RecordedSame(s, r, t);
    if CompleteNow(s, r.input) {
      assert RecordStep(s, s', r, t);
      RecordOnly(s, s', r, t);
    } else {
      assert RecordStep(s, s', r, t);
      RecordOnly(s, s', r, t);
    }
  }

  /** Tasks only grow: what was asked stays asked, and waiting tasks keep waiting. */
  ghost predicate Grows(s: State, s': State) {
    forall x :: x in s.tasks && Waiting(s, x) ==> x in s'.tasks && Waiting(s', x) && s.tasks[x].asked <= s'.tasks[x].asked
  }

  lemma LiveGrows(s: State, s': State, r: InputRequest)
    requires Live(s, r) && Grows(s, s')
    ensures Live(s', r)
  {
  }

  lemma RecordGrows(s: State, s': State, r: InputRequest, t: KeyID)
    requires CanRecord(s, r, t) && RecordStep(s, s', r, t)
    ensures Grows(s, s')
  {
    RecordOnly(s, s', r, t);
  }

  lemma RecordLists(s: State, r: InputRequest, t: KeyID)
    ensures var s' := Record(s, r, t);
      if CompleteNow(s, r.input) then s'.finishedInputRequests == s.finishedInputRequests + [r] && s'.requestedBy == s.requestedBy
      else s'.finishedInputRequests == s.finishedInputRequests && s'.requestedBy == s.requestedBy[r.input := At(s.requestedBy, r.input) + [r]]
  {
    hide Recorded;
    RecordedSame(s, r, t);
  }

  lemma RecordRequests(s: State, r: InputRequest, t: KeyID)
    requires RequestsOk(s) && Shape(s) && CanRecord(s, r, t)
    ensures RequestsOk(Record(s, r, t))
  {
    hide Live, Answerable, Only, Record, Grows, RecordStep, Shape, CompleteNow, InProgress, Waiting;
    var s' := Record(s, r, t);
    RecordShape(s, r, t);
    RecordLists(s, r, t);
    RecordGrows(s, s', r, t);
    RecordOnly(s, s', r, t);
    forall q: InputRequest | Live(s, q) ensures Live(s', q) { LiveGrows(s, s', q); }
    forall q: InputRequest | Answerable(s, q) ensures Answerable(s', q) { AnswerableFrame(s, s', t, q); }
    if CompleteNow(s, r.input) {
      RecordAnswerable(s, r, t);
      assert RequestsOk(s');
    } else {
      assert RequestsOk(s');
    }
  }

  lemma RecordAnswerable(s: State, r: InputRequest, t: KeyID)
    requires CanRecord(s, r, t) && CompleteNow(s, r.input) && Only(s, Record(s, r, t), t)
    ensures Answerable(Record(s, r, t), r)
  {
    hide Recorded;
    assert Answerable(s, r);
    AnswerableFrame(s, Record(s, r, t), t, r);
  }

  lemma RecordPlaces(s: State, r: InputRequest, t: KeyID, x: KeyID)
    requires CanRecord(s, r, t)
    ensures var s' := Record(s, r, t);
      && Queued(s, x) == Queued(s', x) + IdOf(r, x) && Awaited(s', x) == Awaited(s, x) + IdOf(r, x)
  {
    hide Ids, FlatIds, IdOf;
    IdsOne(r, x);
    IdsEmpty(x);
    if CompleteNow(s, r.input) {
      IdsAppend(s.finishedInputRequests, r, x);
    } else {
      FlatIdsAdd(s.requestedBy, x, r.input, r);
    }
  }

  lemma TallyRecord(task: TaskInfo, q: multiset<nat>, q': multiset<nat>, a: multiset<nat>, id: nat)
    requires Tally(task, q, a) && q == q' + multiset{id}
    ensures Tally(task.(recorded := task.recorded + [id]), q', a + multiset{id})
  {
    assert multiset(task.recorded + [id]) == multiset(task.recorded) + multiset{id};
  }

  lemma RecordCounts(s: State, r: InputRequest, t: KeyID)
    requires CountsOk(s) && CanRecord(s, r, t) && RecordStep(s, Record(s, r, t), r, t)
    ensures CountsOk(Record(s, r, t))
  {
    hide Queued, Awaited, Tally, Recorded, Record;
    var s' := Record(s, r, t);
    RecordOnly(s, s', r, t);
    forall x | x in s'.tasks ensures Counted(s', x) {
      assert Counted(s, x);
      RecordPlaces(s, r, t, x);
      if x == t {
        TallyRecord(s.tasks[t], Queued(s, t), Queued(s', t), Awaited(s, t), r.id);
      } else {
        assert Queued(s', x) == Queued(s, x) && Awaited(s', x) == Awaited(s, x);
      }
    }
  }

  /** Everything delivered has been recorded. */
  lemma DeliveredRecorded(task: TaskInfo, q: multiset<nat>, a: multiset<nat>)
    requires Tally(task, q, a)
    ensures forall id :: id in task.delivered ==> id in task.recorded
  {
    forall id | id in task.delivered ensures id in task.recorded {
      assert id in multiset(task.delivered);
      assert id in multiset(task.recorded);
    }
  }

  lemma RecordCausal(task: TaskInfo, id: nat)
    requires Causal(task) && forall x :: x in task.delivered ==> x in task.recorded
    ensures Causal(task.(recorded := task.recorded + [id]))
  {
    var task' := task.(recorded := task.recorded + [id]);
    forall i, j | 0 <= i < |task'.recorded| && task'.recorded[i] < |task'.seen| && 0 <= j < task'.seen[task'.recorded[i]]
      ensures task'.delivered[j] in task'.recorded[..i]
    {
      if i < |task.recorded| {
        assert task'.recorded[..i] == task.recorded[..i];
      } else {
        assert task'.recorded[..i] == task.recorded;
      }
    }
  }

  lemma RecordTasks(s: State, s': State, r: InputRequest, t: KeyID)
    requires TasksOk(s) && CountsOk(s) && CanRecord(s, r, t) && RecordStep(s, s', r, t)
    ensures TasksOk(s')
  {
    hide Recorded, Queued, Awaited, Tally, Causal;
    RecordOnly(s, s', r, t);
    assert Counted(s, t);
    DeliveredRecorded(s.tasks[t], Queued(s, t), Awaited(s, t));
    RecordCausal(s.tasks[t], r.id);
  }

  lemma RecordQueues(s: State, s': State, r: InputRequest, t: KeyID)
    requires QueuesOk(s) && CanRecord(s, r, t) && RecordStep(s, s', r, t)
    ensures QueuesOk(s')
  {
    hide Recorded, NoDuplicates;
    RecordOnly(s, s', r, t);
    assert ComputingSet(s') == ComputingSet(s);
  }

  lemma RecordOwed(s: State, s': State, r: InputRequest, t: KeyID)
    requires OwedOk(s) && CanRecord(s, r, t) && RecordStep(s, s', r, t)
    ensures OwedOk(s')
  {
    hide Recorded;
    RecordOnly(s, s', r, t);
    forall d | PendingDummy(s, d) ensures PendingDummy(s', d) {}
  }

  lemma RecordDemands(s: State, s': State, r: InputRequest, t: KeyID)
    requires DemandsOk(s) && CanRecord(s, r, t) && RecordStep(s, s', r, t)
    ensures DemandsOk(s')
  {
    hide Recorded;
    RecordOnly(s, s', r, t);
    forall x | Demander(s, x) && Verdict(s, x) ensures Demander(s', x) {}
  }

  lemma RecordVerdict(c: Client, s: State, s': State, r: InputRequest, t: KeyID)
    requires CanRecord(s, r, t) && RecordStep(s, s', r, t)
    ensures VerdictOk(c, s', t)
  {
    hide Recorded;
    RecordOnly(s, s', r, t);
  }

  lemma RecordKeeps(c: Client, s: State, r: InputRequest, t: KeyID)
    requires Inv(c, s) && CanRecord(s, r, t)
    ensures Inv(c, Record(s, r, t)) && Keeps(s, Record(s, r, t))
  {
    hide *;
    var s' := Record(s, r, t);
    Unpack(c, s);
    RecordShape(s, r, t);
    RecordOnly(s, s', r, t);
    KeepsFrame(s, s', t);
    TimesFrame(s, s', t);
    RecordRequests(s, r, t);
    RecordCounts(s, r, t);
    RecordTasks(s, s', r, t);
    RecordQueues(s, s', r, t);
    ScansFrame(c, s, s', t);
    OwnersFrame(s, s', t);
    RecordVerdict(c, s, s', r, t);
    VerdictsFrame(c, s, s', t);
    RecordOwed(s, s', r, t);
    RecordDemands(s, s', r, t);
    Pack(c, s');
  }

  lemma CanRecordNow(c: Client, s: State, r: InputRequest)
    requires Inv(c, s) && s.building && InputInHand(s, r) && r.task.Some? && (CompleteNow(s, r.input) || InProgress(s, r.input))
    ensures CanRecord(s, r, r.task.value)
  {
    hide Shape, CountsOk, TasksOk, QueuesOk, OwnersOk, ScansOk, VerdictsOk, OwedOk, DemandsOk;
    assert Live(s, r);
  }

  lemma InputHandOn(s: State, r: InputRequest)
    requires InputInHand(s, r)
    ensures Hand(s, r.input)
  {
    assert r in s.curInput;
  }

  lemma ProcessInputKeeps(c: Client, s: State, r: InputRequest)
    requires Inv(c, s) && s.building && InputInHand(s, r)
    ensures Inv(c, ProcessInput(c, s, r)) && Keeps(s, ProcessInput(c, s, r))
  {
    hide Inv, ScanRule, DemandRule, Pause, Record, Keeps, Hand, Scanning, InProgress, CompleteNow, Verdict, CanRecord;
    InputHandOn(s, r);
    ScanRuleKeeps(c, s, r.input);
    ScanRuleMarks(c, s, r.input);
    var s1 := ScanRule(c, s, r.input);
    if Scanning(s1, r.input) {
      PauseKeeps(c, s1, r);
      KeepsTrans(s, s1, Pause(s1, r));
    } else {
      DemandRuleKeeps(c, s1, r.input);
      DemandRuleMarks(c, s1, r.input);
      var s2 := DemandRule(c, s1, r.input);
      KeepsTrans(s, s1, s2);
      if r.task.None? {
        DropInputKeeps(c, s2, r);
        KeepsTrans(s, s2, s2.(curInput := []));
      } else {
        CanRecordNow(c, s2, r);
        RecordKeeps(c, s2, r, r.task.value);
        KeepsTrans(s, s2, Record(s2, r, r.task.value));
      }
    }
  }

  lemma TakeInputSame(s: State)
    requires s.inputRequests != [] && s.curScan == []
    ensures InputInHand(TakeInput(s), s.inputRequests[0]) && TakeInput(s).building == s.building
  {
  }

  /** Processing one input request keeps the invariant. */
  lemma InputOneKeeps(c: Client, s: State)
    requires Inv(c, s) && s.building && s.inputRequests != [] && s.curScan == [] && s.curInput == []
    ensures Inv(c, InputOne(c, s)) && Keeps(s, InputOne(c, s))
  {
    hide Inv, ProcessInput, Keeps, TakeInput, InputInHand;
    var r := s.inputRequests[0];
    TakeInputKeeps(c, s);
    TakeInputSame(s);
    ProcessInputKeeps(c, TakeInput(s), r);
    KeepsTrans(s, TakeInput(s), ProcessInput(c, TakeInput(s), r));
  }
}
