/** Steps that change at most one rule: what they leave alone. */
module EngineFrames {
  import opened Options
  import opened EngineState
  import opened EngineSteps
  import opened EngineCounts
  import opened EngineInvariant

  /** At most the rule `k` changes, and it was not complete. */
  ghost predicate Only(s: State, s': State, k: KeyID) {
    && s'.epoch == s.epoch && s'.broken == s.broken && s'.tidy == s.tidy && s'.owed == s.owed && s'.building == s.building
    && (Info(s', k) != Info(s, k) ==> !CompleteNow(s, k))
    && forall x :: x != k ==> Info(s', x) == Info(s, x)
  }

  ghost predicate SameRequests(s: State, s': State) {
    && s'.tasks == s.tasks && s'.requestedBy == s.requestedBy && s'.paused == s.paused
    && s'.inputRequests == s.inputRequests && s'.curInput == s.curInput
    && s'.finishedInputRequests == s.finishedInputRequests
  }

  ghost predicate SameScans(s: State, s': State) {
    && s'.ruleInfosToScan == s.ruleInfosToScan && s'.curScan == s.curScan
    && s'.deferred == s.deferred && s'.taskDeferred == s.taskDeferred
  }

  ghost predicate SameQueues(s: State, s': State) {
    && s'.readyTaskInfos == s.readyTaskInfos && s'.finishedTaskInfos == s.finishedTaskInfos
    && s'.numOutstanding == s.numOutstanding && s'.created == s.created && s'.readied == s.readied
  }

  lemma ShapeFrame(s: State, s': State, k: KeyID)
    requires Shape(s) && Only(s, s', k) && SameRequests(s, s') && SameScans(s, s')
    requires InProgress(s', k) == InProgress(s, k) && Scanning(s', k) == Scanning(s, k)
    ensures Shape(s')
  {
  }

  lemma TimesFrame(s: State, s': State, k: KeyID)
    requires TimesOk(s) && Only(s, s', k) && s'.db == s.db
    requires CompleteNow(s', k) || Info(s', k) == Info(s, k) || Info(s', k).result.builtAt == Info(s, k).result.builtAt < s.epoch
    ensures TimesOk(s')
  {
  }

  lemma KeepsFrame(s: State, s': State, k: KeyID)
    requires Only(s, s', k)
    ensures Keeps(s, s')
  {
  }

  lemma LiveFrame(s: State, s': State, k: KeyID, r: InputRequest)
    requires Live(s, r) && Only(s, s', k) && (k in s.tasks ==> Info(s', k) == Info(s, k))
    requires forall t :: t in s.tasks ==> t in s'.tasks && s'.tasks[t] == s.tasks[t]
    ensures Live(s', r)
  {
  }

  lemma AnswerableFrame(s: State, s': State, k: KeyID, r: InputRequest)
    requires Answerable(s, r) && Only(s, s', k)
    ensures Answerable(s', r)
  {
  }

  lemma RequestsFrame(s: State, s': State, k: KeyID)
    requires RequestsOk(s) && Only(s, s', k) && SameRequests(s, s') && (k in s.tasks ==> Info(s', k) == Info(s, k))
    ensures RequestsOk(s')
  {
    hide Live, Answerable, Only;
    forall r: InputRequest | Live(s, r) ensures Live(s', r) { LiveFrame(s, s', k, r); }
    forall r: InputRequest | Answerable(s, r) ensures Answerable(s', r) { AnswerableFrame(s, s', k, r); }
  }

  lemma CountsFrame(s: State, s': State)
    requires CountsOk(s) && SameRequests(s, s')
    ensures CountsOk(s')
  {
    forall t | t in s'.tasks ensures Counted(s', t) { assert Counted(s, t); }
  }

  lemma TasksFrame(s: State, s': State, k: KeyID)
    requires TasksOk(s) && Only(s, s', k) && s'.tasks == s.tasks && (k in s.tasks ==> Info(s', k) == Info(s, k))
    ensures TasksOk(s')
  {
  }

  lemma QueuesFrame(s: State, s': State, k: KeyID)
    requires QueuesOk(s) && Only(s, s', k) && s'.tasks == s.tasks && SameQueues(s, s')
    requires k in s.tasks ==> Info(s', k).phase == Info(s, k).phase
    requires k !in s.tasks ==> Info(s', k) == Info(s, k) || (!InProgress(s, k) && !InProgress(s', k))
    ensures QueuesOk(s')
  {
    assert ComputingSet(s') == ComputingSet(s);
  }

  lemma OutOfDateFrame(c: Client, s: State, s': State, k: KeyID, x: KeyID)
    requires OutOfDate(c, s, x) && Only(s, s', k) && Info(s', x).result == Info(s, x).result
    ensures OutOfDate(c, s', x)
  {
    if Matches(c, s, x) {
      var d :| d in Info(s, x).result.dependencies && Newer(s, x, d);
      assert Newer(s', x, d);
    }
  }

  /** What a change to `k` must respect for the scan requests to stay good. */
  ghost predicate ScanStable(s: State, s': State, k: KeyID) {
    && Scanning(s', k) == Scanning(s, k) && (Scanning(s, k) ==> Info(s', k).result == Info(s, k).result)
    && (IsScanned(s, k) && Info(s, k).wasForced ==> IsScanned(s', k) && Info(s', k).wasForced)
  }

  lemma ScanFrame(c: Client, s: State, s': State, k: KeyID, r: ScanRequest)
    requires ScanOk(c, s, r) && Only(s, s', k) && (r.rule == k ==> ScanStable(s, s', k))
    ensures ScanOk(c, s', r)
  {
    if Scanning(s, r.rule) && r.needsToRun { OutOfDateFrame(c, s, s', k, r.rule); }
  }

  lemma ScansFrame(c: Client, s: State, s': State, k: KeyID)
    requires ScansOk(c, s) && Only(s, s', k) && SameScans(s, s') && ScanStable(s, s', k)
    ensures ScansOk(c, s')
  {
    forall r: ScanRequest | ScanOk(c, s, r) ensures ScanOk(c, s', r) { ScanFrame(c, s, s', k, r); }
  }

  lemma OwnersFrame(s: State, s': State, k: KeyID)
    requires OwnersOk(s) && Only(s, s', k) && SameScans(s, s') && ScanStable(s, s', k)
    ensures OwnersOk(s')
  {
    assert AllOwners(s') == AllOwners(s);
  }

  lemma VerdictsFrame(c: Client, s: State, s': State, k: KeyID)
    requires VerdictsOk(c, s) && Only(s, s', k) && (s.tidy ==> VerdictOk(c, s', k))
    ensures VerdictsOk(c, s')
  {
    if s.tidy {
      forall x ensures VerdictOk(c, s', x) {
        assert VerdictOk(c, s, x);
        if x != k && OutOfDate(c, s, x) { OutOfDateFrame(c, s, s', k, x); }
      }
    }
  }

  lemma OwedFrame(s: State, s': State, k: KeyID)
    requires OwedOk(s) && Only(s, s', k) && SameRequests(s, s')
    requires InProgress(s, k) ==> InProgress(s', k) || CompleteNow(s', k)
    ensures OwedOk(s')
  {
    forall d | PendingDummy(s, d) ensures PendingDummy(s', d) {}
  }

  lemma DemandsFrame(s: State, s': State, k: KeyID)
    requires DemandsOk(s) && Only(s, s', k) && SameScans(s, s') && SameRequests(s, s') && ScanStable(s, s', k)
    requires Verdict(s', k) ==> Verdict(s, k) || Demander(s', k)
    requires IsScanned(s, k) ==> IsScanned(s', k)
    ensures DemandsOk(s')
  {
    forall x | Demander(s, x) ensures Demander(s', x) {}
  }

  /** A rule that is not in progress gets a verdict or becomes complete; nothing else changes. */
  lemma OneRule(c: Client, s: State, s': State, k: KeyID)
    requires Inv(c, s) && Only(s, s', k) && SameRequests(s, s') && SameScans(s, s') && SameQueues(s, s') && s'.db == s.db && s'.tasks == s.tasks
    requires k !in s.tasks && !InProgress(s, k) && !InProgress(s', k) && !Scanning(s, k) && !Scanning(s', k)
    requires CompleteNow(s', k) || Info(s', k) == Info(s, k) || Info(s', k).result.builtAt == Info(s, k).result.builtAt < s.epoch
    requires ScanStable(s, s', k)
    requires s.tidy ==> VerdictOk(c, s', k)
    requires Verdict(s', k) ==> Verdict(s, k) || Demander(s', k)
    requires IsScanned(s, k) ==> IsScanned(s', k)
    ensures Inv(c, s') && Keeps(s, s')
  {
    hide *;
    Unpack(c, s);
    ShapeFrame(s, s', k);
    TimesFrame(s, s', k);
    KeepsFrame(s, s', k);
    RequestsFrame(s, s', k);
    CountsFrame(s, s');
    TasksFrame(s, s', k);
    QueuesFrame(s, s', k);
    ScansFrame(c, s, s', k);
    OwnersFrame(s, s', k);
    VerdictsFrame(c, s, s', k);
    OwedFrame(s, s', k);
    DemandsFrame(s, s', k);
    Pack(c, s');
  }
}
