/** The state of the build engine and the work items it moves between its queues
    (lib/Core/BuildEngine.cpp).

    Three kinds of field are not in the source. They are history: the engine never reads
    them, and they exist so that properties of whole runs can be stated.
      - `Result.used` and `Result.ranAt`: the values a rule's last run consumed, and when;
      - `InputRequest.id` and the `asked`, `seen`, `recorded`, `delivered`, `got` fields of
        `TaskInfo`: which request is which, and what happened to it;
      - `State.created`, `readied`, `owed`, `broken`, `cancelled`, `tidy`, `building`: which tasks this build
        has created and made ready, the keys it was asked for or discovered, whether it has
        broken a cycle, whether this engine ever cancelled a build, whether the build started
        with no scanned rule left over from an earlier one, and whether this engine has
        started a build at all. */
module EngineState {
  import opened Options

  /** The identity the engine gives to a key (`KeyID`). */
  type KeyID = int

  /** A computed value: a byte vector, empty for a rule that has never been built. */
  datatype Value = Value(bytes: seq<bv8>)

  datatype Dependency = Dependency(key: KeyID, orderOnly: bool, singleUse: bool)

  /** A value handed to a task by `provideValue`, or read by it as a discovered dependency. */
  datatype Delivery = Delivery(key: KeyID, value: Value)

  datatype Result = Result(
    value: Value,
    signature: int,
    computedAt: nat,
    builtAt: nat,
    dependencies: seq<Dependency>,
    used: seq<Delivery>,
    ranAt: nat)

  const NO_RESULT: Result := Result(Value([]), 0, 0, 0, [], [], 0)

  datatype Phase =
    | Incomplete
    | IsScanning
    | NeedsToRun
    | DoesNotNeedToRun
    | InProgressWaiting
    | InProgressComputing
    | Complete

  datatype RuleInfo = RuleInfo(phase: Phase, result: Result, wasForced: bool)

  datatype InputRequest = InputRequest(
    task: Option<KeyID>,
    id: nat,
    input: KeyID,
    orderOnly: bool,
    singleUse: bool,
    forcePriorValue: bool)

  datatype ScanRequest = ScanRequest(
    rule: KeyID,
    index: nat,
    input: Option<KeyID>,
    orderOnly: bool,
    needsToRun: bool)

  datatype TaskInfo = TaskInfo(
    waitCount: int,
    discovered: seq<Dependency>,
    asked: seq<Dependency>,
    seen: seq<nat>,
    recorded: seq<nat>,
    delivered: seq<nat>,
    got: seq<Delivery>)

  const NEW_TASK: TaskInfo := TaskInfo(0, [], [], [], [], [], [])

  /** What the engine's client decides. `onStart` and `onValue` list what a task asks for in
      `start` and in `provideValue`; since a task sees each history at most once in a build,
      a function of the epoch, the rule and the values received describes any client. */
  datatype Client = Client(
    signature: (nat, KeyID) -> int,
    isResultValid: (nat, KeyID, Value) -> bool,
    checksBefore: (nat, KeyID) -> bool,
    mustCheck: (nat, KeyID, KeyID) -> bool,
    onStart: (nat, KeyID) -> seq<Dependency>,
    onValue: (nat, KeyID, seq<Delivery>) -> seq<Dependency>)

  /** `paused` and `deferred` are the two lists of each scan record, by the rule being scanned;
      `requestedBy` and `taskDeferred` the two lists of each task, by the rule it computes.
      `curScan` and `curInput` hold the request the engine has popped and is working on. */
  datatype State = State(
    epoch: nat,
    rules: map<KeyID, RuleInfo>,
    db: map<KeyID, Result>,
    tasks: map<KeyID, TaskInfo>,
    requestedBy: map<KeyID, seq<InputRequest>>,
    taskDeferred: map<KeyID, seq<ScanRequest>>,
    paused: map<KeyID, seq<InputRequest>>,
    deferred: map<KeyID, seq<ScanRequest>>,
    ruleInfosToScan: seq<ScanRequest>,
    curScan: seq<ScanRequest>,
    inputRequests: seq<InputRequest>,
    curInput: seq<InputRequest>,
    finishedInputRequests: seq<InputRequest>,
    readyTaskInfos: seq<KeyID>,
    finishedTaskInfos: seq<KeyID>,
    numOutstanding: int,
    created: seq<KeyID>,
    readied: seq<KeyID>,
    owed: set<KeyID>,
    broken: bool,
    cancelled: bool,
    tidy: bool,
    building: bool)

  const INITIAL: State :=
    State(0, map[], map[], map[], map[], map[], map[], map[], [], [], [], [], [], [], [], 0, [], [], {}, false, false, true, false)

  /** `getRuleInfoForKey`: a rule not yet registered is loaded from the database. */
  function Info(s: State, k: KeyID): RuleInfo {
    if k in s.rules then s.rules[k]
    else RuleInfo(Incomplete, if k in s.db then s.db[k] else NO_RESULT, false)
  }

  predicate Scanning(s: State, k: KeyID) { Info(s, k).phase.IsScanning? }

  predicate Waiting(s: State, k: KeyID) { Info(s, k).phase.InProgressWaiting? }

  predicate Computing(s: State, k: KeyID) { Info(s, k).phase.InProgressComputing? }

  predicate InProgress(s: State, k: KeyID) { Waiting(s, k) || Computing(s, k) }

  predicate CompleteNow(s: State, k: KeyID) {
    Info(s, k).phase.Complete? && Info(s, k).result.builtAt == s.epoch
  }

  /** Scanned, but neither demanded nor complete. */
  predicate Verdict(s: State, k: KeyID) {
    Info(s, k).phase.NeedsToRun? || Info(s, k).phase.DoesNotNeedToRun?
  }

  predicate IsScanned(s: State, k: KeyID) {
    Verdict(s, k) || InProgress(s, k) || CompleteNow(s, k)
  }

  function TaskOf(s: State, t: KeyID): TaskInfo {
    if t in s.tasks then s.tasks[t] else NEW_TASK
  }

  function At<X>(m: map<KeyID, seq<X>>, k: KeyID): seq<X> {
    if k in m then m[k] else []
  }

  function SetInfo(s: State, k: KeyID, ri: RuleInfo): State {
    s.(rules := s.rules[k := ri])
  }

  /** The waiting in the engine: `k` cannot proceed before `d` does. */
  ghost predicate WaitsOn(s: State, k: KeyID, d: KeyID) {
    || (exists r :: r in At(s.requestedBy, d) && r.task == Some(k))
    || (exists r :: r in At(s.paused, d) && r.task == Some(k))
    || (exists r :: r in At(s.deferred, d) && r.rule == k)
    || (exists r :: r in At(s.taskDeferred, d) && r.rule == k)
  }

  /** No work in any queue, and nothing popped. */
  predicate Idle(s: State) {
    && s.ruleInfosToScan == [] && s.curScan == []
    && s.inputRequests == [] && s.curInput == [] && s.finishedInputRequests == []
    && s.readyTaskInfos == [] && s.finishedTaskInfos == []
  }

  /** Between builds: no work and nothing in progress. */
  predicate Quiet(s: State) {
    Idle(s) && s.tasks == map[] && s.requestedBy == map[] && s.taskDeferred == map[]
    && s.paused == map[] && s.deferred == map[] && s.numOutstanding == 0
  }
}
