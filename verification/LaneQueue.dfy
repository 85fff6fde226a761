/** The execution queue (lib/Basic/LaneBasedExecutionQueue.cpp) as a protocol: lanes that take jobs,
    threads that add them, and shutdown. Each step is a region the source runs under its lock. */
module LaneQueue {
  import opened Options

  /** A job has the number it was added under, and `high` priority or not. An empty job tells a lane to
      stop. A job is timely if it was added before shutdown, or by a job that a lane was running. */
  datatype Job = Job(id: nat, high: bool, empty: bool, timely: bool)

  /** A lane that waits on the condition variable is asleep until it is notified. */
  datatype Lane = Awake | Asleep | Running(job: Job) | Returned

  /** `added`, `taken` and `finished` are history, and so is `quit`: whether a lane has returned
      because it found the queues empty. */
  datatype Queue = Queue(
    lanes: seq<Lane>,
    readyJobs: seq<Job>,
    readyPriorityJobs: seq<Job>,
    shutdown: bool,
    added: seq<Job>,
    taken: seq<Job>,
    finished: seq<Job>,
    quit: bool)

  function Start(numLanes: nat): Queue {
    Queue(seq(numLanes, _ => Awake), [], [], false, [], [], [], false)
  }

  /** `woken` is the lane that `notify_one` wakes, and WakeUp a lane that wakes of its own accord. */
  datatype Step =
    | AddJob(high: bool, empty: bool, adder: Option<nat>, woken: Option<nat>)
    | TakeJob(lane: nat, index: nat)
    | FinishJob(lane: nat)
    | Sleep(lane: nat)
    | WakeUp(lane: nat)
    | Return(lane: nat)
    | Shutdown

  predicate NoJobs(q: Queue) {
    q.readyJobs == [] && q.readyPriorityJobs == []
  }

  /** `index` stands for the scheduler's choice, first-in-first-out or by name. A lane that has been
      woken looks at the queues again. */
  predicate Enabled(q: Queue, step: Step) {
    match step
    case AddJob(_, _, adder, woken) =>
      (adder.Some? ==> adder.value < |q.lanes| && q.lanes[adder.value].Running?) && CanWake(q.lanes, woken)
    case TakeJob(l, i) => l < |q.lanes| && q.lanes[l].Awake? && !NoJobs(q) && (q.readyPriorityJobs == [] ==> i < |q.readyJobs|)
    case FinishJob(l) => l < |q.lanes| && q.lanes[l].Running?
    case Sleep(l) => l < |q.lanes| && q.lanes[l].Awake? && !q.shutdown && NoJobs(q)
    case WakeUp(l) => l < |q.lanes| && q.lanes[l].Asleep?
    case Return(l) => l < |q.lanes| && q.lanes[l].Awake? && q.shutdown && NoJobs(q)
    case Shutdown => true
  }

  // ---- What each step does ------------------------------------------------------------------------

  /** `notify_one`: any lane that is asleep, if there is one. */
  predicate CanWake(lanes: seq<Lane>, woken: Option<nat>) {
    if woken.Some? then woken.value < |lanes| && lanes[woken.value].Asleep? else Asleep !in lanes
  }

  function Woken(lanes: seq<Lane>, woken: Option<nat>): (r: seq<Lane>)
    ensures |r| == |lanes|
  {
    if woken.Some? && woken.value < |lanes| then lanes[woken.value := Awake] else lanes
  }

  function WakeAll(lanes: seq<Lane>): (r: seq<Lane>)
    ensures |r| == |lanes|
  {
    seq(|lanes|, i requires 0 <= i < |lanes| => if lanes[i].Asleep? then Awake else lanes[i])
  }

  function NewJob(q: Queue, high: bool, empty: bool, adder: Option<nat>): Job {
    Job(|q.added|, high, empty, adder.Some? || !q.shutdown)
  }

  function DoAdd(q: Queue, job: Job, woken: Option<nat>): Queue {
    q.(readyJobs := if job.high then q.readyJobs else q.readyJobs + [job],
       readyPriorityJobs := if job.high then q.readyPriorityJobs + [job] else q.readyPriorityJobs,
       lanes := Woken(q.lanes, woken),
       added := q.added + [job])
  }

  function NextJob(q: Queue, i: nat): Job
    requires !NoJobs(q) && (q.readyPriorityJobs == [] ==> i < |q.readyJobs|)
  {
    if q.readyPriorityJobs != [] then q.readyPriorityJobs[0] else q.readyJobs[i]
  }

  function DoTake(q: Queue, l: nat, i: nat): Queue
    requires l < |q.lanes| && !NoJobs(q) && (q.readyPriorityJobs == [] ==> i < |q.readyJobs|)
  {
    var job := NextJob(q, i);
    q.(readyPriorityJobs := if q.readyPriorityJobs != [] then q.readyPriorityJobs[1..] else [],
       readyJobs := if q.readyPriorityJobs != [] then q.readyJobs else q.readyJobs[..i] + q.readyJobs[i + 1..],
       lanes := q.lanes[l := if job.empty then Returned else Running(job)],
       taken := q.taken + [job])
  }

  function Apply(q: Queue, step: Step): Queue
    requires Enabled(q, step)
  {
    match step
    case AddJob(high, empty, adder, woken) => DoAdd(q, NewJob(q, high, empty, adder), woken)
    case TakeJob(l, i) => DoTake(q, l, i)
    case FinishJob(l) => q.(lanes := q.lanes[l := Awake], finished := q.finished + [q.lanes[l].job])
    case Sleep(l) => q.(lanes := q.lanes[l := Asleep])
    case WakeUp(l) => q.(lanes := q.lanes[l := Awake])
    case Return(l) => q.(lanes := q.lanes[l := Returned], quit := true)
    case Shutdown => q.(shutdown := true, lanes := WakeAll(q.lanes))
  }

  predicate Legal(n: nat, steps: seq<Step>)
    decreases |steps|, 0
  {
    steps == [] || (Legal(n, steps[..|steps| - 1]) && Enabled(Exec(n, steps[..|steps| - 1]), steps[|steps| - 1]))
  }

  function Exec(n: nat, steps: seq<Step>): Queue
    requires Legal(n, steps)
    decreases |steps|, 1
  {
    if steps == [] then Start(n) else Apply(Exec(n, steps[..|steps| - 1]), steps[|steps| - 1])
  }

  // ---- Counting -------------------------------------------------------------------------------------

  function RunningJobs(lanes: seq<Lane>): multiset<Job> {
    if lanes == [] then multiset{}
    else RunningJobs(lanes[..|lanes| - 1]) + (if lanes[|lanes| - 1].Running? then multiset{lanes[|lanes| - 1].job} else multiset{})
  }

  function Now(lane: Lane): multiset<Job> {
    if lane.Running? then multiset{lane.job} else multiset{}
  }

  function Count(lanes: seq<Lane>, lane: Lane): nat {
    multiset(lanes)[lane]
  }

  lemma {:induction false} RunningUpdate(lanes: seq<Lane>, l: nat, lane: Lane)
    requires l < |lanes|
    ensures RunningJobs(lanes[l := lane]) + Now(lanes[l]) == RunningJobs(lanes) + Now(lane)
    decreases |lanes|
  {
    hide RunningJobs, Now;
    var n := |lanes| - 1;
    var front, other := lanes[..n], lanes[l := lane];
    RunningLast(lanes);
    RunningLast(other);
    if l == n {
      assert other[..n] == front;
      Exchange(RunningJobs(front), Now(lane), Now(lanes[l]));
    } else {
      assert other[..n] == front[l := lane];
      RunningUpdate(front, l, lane);
      Exchange(RunningJobs(other[..n]), Now(lanes[n]), Now(lanes[l]));
      Exchange(RunningJobs(front), Now(lanes[n]), Now(lane));
    }
  }

  lemma Exchange(a: multiset<Job>, b: multiset<Job>, c: multiset<Job>)
    ensures a + b + c == a + c + b
  {
  }

  lemma RunningLast(lanes: seq<Lane>)
    requires lanes != []
    ensures RunningJobs(lanes) == RunningJobs(lanes[..|lanes| - 1]) + Now(lanes[|lanes| - 1])
  {
  }

  lemma RunningStarts(lanes: seq<Lane>, l: nat, job: Job)
    requires l < |lanes| && !lanes[l].Running?
    ensures RunningJobs(lanes[l := Running(job)]) == RunningJobs(lanes) + multiset{job}
  {
    hide RunningJobs;
    RunningUpdate(lanes, l, Running(job));
  }

  lemma RunningStops(lanes: seq<Lane>, l: nat, lane: Lane)
    requires l < |lanes| && lanes[l].Running? && !lane.Running?
    ensures RunningJobs(lanes) == RunningJobs(lanes[l := lane]) + multiset{lanes[l].job}
  {
    hide RunningJobs;
    RunningUpdate(lanes, l, lane);
  }

  lemma RunningStays(lanes: seq<Lane>, l: nat, lane: Lane)
    requires l < |lanes| && !lanes[l].Running? && !lane.Running?
    ensures RunningJobs(lanes[l := lane]) == RunningJobs(lanes)
  {
    hide RunningJobs;
    RunningUpdate(lanes, l, lane);
    assert RunningJobs(lanes[l := lane]) + multiset{} == RunningJobs(lanes[l := lane]);
    assert RunningJobs(lanes) + multiset{} == RunningJobs(lanes);
  }

  lemma {:induction false} RunningSame(lanes: seq<Lane>, lanes': seq<Lane>)
    requires |lanes'| == |lanes| && forall i :: 0 <= i < |lanes| ==> Now(lanes'[i]) == Now(lanes[i])
    ensures RunningJobs(lanes') == RunningJobs(lanes)
    decreases |lanes|
  {
    if lanes != [] {
      var n := |lanes| - 1;
      RunningSame(lanes[..n], lanes'[..n]);
      assert Now(lanes'[n]) == Now(lanes[n]);
    }
  }

  lemma {:induction false} RunningNone(lanes: seq<Lane>)
    requires forall i :: 0 <= i < |lanes| ==> !lanes[i].Running?
    ensures RunningJobs(lanes) == multiset{}
    decreases |lanes|
  {
    if lanes != [] { RunningNone(lanes[..|lanes| - 1]); }
  }

  function WithoutEmpty(jobs: seq<Job>): seq<Job> {
    if jobs == [] then []
    else if jobs[|jobs| - 1].empty then WithoutEmpty(jobs[..|jobs| - 1])
    else WithoutEmpty(jobs[..|jobs| - 1]) + [jobs[|jobs| - 1]]
  }

  function Empties(jobs: seq<Job>): nat {
    if jobs == [] then 0 else Empties(jobs[..|jobs| - 1]) + (if jobs[|jobs| - 1].empty then 1 else 0)
  }

  lemma PushJob(jobs: seq<Job>, job: Job)
    ensures WithoutEmpty(jobs + [job]) == if job.empty then WithoutEmpty(jobs) else WithoutEmpty(jobs) + [job]
    ensures Empties(jobs + [job]) == Empties(jobs) + if job.empty then 1 else 0
  {
    assert (jobs + [job])[..|jobs|] == jobs;
  }

  lemma UpdateCount(lanes: seq<Lane>, l: nat, lane: Lane)
    requires l < |lanes|
    ensures multiset(lanes[l := lane]) + multiset{lanes[l]} == multiset(lanes) + multiset{lane}
  {
  }

  lemma WokenCounts(lanes: seq<Lane>, woken: Option<nat>)
    requires CanWake(lanes, woken) && woken.Some?
    ensures Count(Woken(lanes, woken), Asleep) == Count(lanes, Asleep) - 1 && Count(Woken(lanes, woken), Awake) == Count(lanes, Awake) + 1
    ensures Count(Woken(lanes, woken), Returned) == Count(lanes, Returned)
  {
    UpdateCount(lanes, woken.value, Awake);
    var a, b := multiset(Woken(lanes, woken)) + multiset{Asleep}, multiset(lanes) + multiset{Awake};
    assert a[Asleep] == b[Asleep] && a[Awake] == b[Awake] && a[Returned] == b[Returned];
  }

  lemma TakeOut(jobs: seq<Job>, i: nat)
    requires i < |jobs|
    ensures multiset(jobs[..i] + jobs[i + 1..]) + multiset{jobs[i]} == multiset(jobs)
  {
    assert jobs == jobs[..i] + [jobs[i]] + jobs[i + 1..];
  }

  // ---- What every run keeps ----------------------------------------------------------------------------

  ghost predicate Numbered(q: Queue) {
    forall i :: 0 <= i < |q.added| ==> q.added[i].id == i
  }

  /** Every job added is waiting or has been taken. */
  ghost predicate Waiting(q: Queue) {
    multiset(q.readyJobs) + multiset(q.readyPriorityJobs) + multiset(q.taken) == multiset(q.added)
  }

  /** Every job taken, unless empty, is being run or has finished. */
  ghost predicate Taken(q: Queue) {
    multiset(WithoutEmpty(q.taken)) == RunningJobs(q.lanes) + multiset(q.finished)
  }

  /** As long as a lane sleeps, enough lanes are awake to take every waiting job. */
  ghost predicate Attended(q: Queue) {
    Count(q.lanes, Asleep) > 0 ==> !q.shutdown && Count(q.lanes, Awake) >= |q.readyJobs| + |q.readyPriorityJobs|
  }

  ghost predicate Inv(q: Queue) {
    Numbered(q) && Waiting(q) && Taken(q) && Attended(q)
  }

  lemma AddWaiting(q: Queue, job: Job, woken: Option<nat>)
    requires Waiting(q)
    ensures Waiting(DoAdd(q, job, woken))
  {
  }

  lemma AddTaken(q: Queue, job: Job, woken: Option<nat>)
    requires Taken(q) && CanWake(q.lanes, woken)
    ensures Taken(DoAdd(q, job, woken))
  {
    hide RunningJobs, WithoutEmpty;
    if woken.Some? { RunningStays(q.lanes, woken.value, Awake); }
  }

  lemma AddAttended(q: Queue, job: Job, woken: Option<nat>)
    requires Attended(q) && CanWake(q.lanes, woken)
    ensures Attended(DoAdd(q, job, woken))
  {
    if woken.Some? {
      hide Count;
      WokenCounts(q.lanes, woken);
    } else {
      assert Asleep !in multiset(q.lanes);
    }
  }

  lemma AddKeeps(q: Queue, job: Job, woken: Option<nat>)
    requires Inv(q) && job.id == |q.added| && CanWake(q.lanes, woken)
    ensures Inv(DoAdd(q, job, woken))
  {
    hide Waiting, Taken, Attended, Woken;
    AddWaiting(q, job, woken);
    AddTaken(q, job, woken);
    AddAttended(q, job, woken);
  }

  lemma TakeWaiting(q: Queue, l: nat, i: nat)
    requires Waiting(q) && Enabled(q, TakeJob(l, i))
    ensures Waiting(DoTake(q, l, i))
  {
    var job := NextJob(q, i);
    if q.readyPriorityJobs != [] {
      assert q.readyPriorityJobs == [job] + q.readyPriorityJobs[1..];
    } else {
      TakeOut(q.readyJobs, i);
    }
  }

  lemma TakeTaken(q: Queue, l: nat, i: nat)
    requires Taken(q) && Enabled(q, TakeJob(l, i))
    ensures Taken(DoTake(q, l, i))
  {
    hide RunningJobs, WithoutEmpty;
    var job := NextJob(q, i);
    PushJob(q.taken, job);
    if job.empty { RunningStays(q.lanes, l, Returned); } else { RunningStarts(q.lanes, l, job); }
  }

  /** One lane becomes something else; one that was asleep becomes awake. */
  lemma LaneAttended(q: Queue, q': Queue, l: nat, lane: Lane)
    requires Attended(q) && q'.shutdown == q.shutdown && l < |q.lanes| && q'.lanes == q.lanes[l := lane] && (q.lanes[l].Asleep? ==> lane.Awake?)
    requires lane.Asleep? ==> !q.shutdown && NoJobs(q')
    requires |q'.readyJobs| + |q'.readyPriorityJobs| <= |q.readyJobs| + |q.readyPriorityJobs|
    requires q.lanes[l].Awake? && !lane.Awake? ==>
      NoJobs(q') || |q'.readyJobs| + |q'.readyPriorityJobs| < |q.readyJobs| + |q.readyPriorityJobs|
    ensures Attended(q')
  {
    UpdateCount(q.lanes, l, lane);
    var a, b := multiset(q'.lanes) + multiset{q.lanes[l]}, multiset(q.lanes) + multiset{lane};
    assert a[Awake] == b[Awake] && a[Asleep] == b[Asleep];
  }

  lemma TakeKeeps(q: Queue, l: nat, i: nat)
    requires Inv(q) && Enabled(q, TakeJob(l, i))
    ensures Inv(DoTake(q, l, i))
  {
    hide Waiting, Taken, Attended;
    TakeWaiting(q, l, i);
    TakeTaken(q, l, i);
    var q' := DoTake(q, l, i);
    LaneAttended(q, q', l, q'.lanes[l]);
  }

  lemma FinishTaken(q: Queue, l: nat)
    requires Taken(q) && Enabled(q, FinishJob(l))
    ensures Taken(Apply(q, FinishJob(l)))
  {
    hide RunningJobs, WithoutEmpty;
    RunningStops(q.lanes, l, Awake);
  }

  lemma FinishKeeps(q: Queue, l: nat)
    requires Inv(q) && Enabled(q, FinishJob(l))
    ensures Inv(Apply(q, FinishJob(l)))
  {
    hide Taken, Attended;
    FinishTaken(q, l);
    LaneAttended(q, Apply(q, FinishJob(l)), l, Awake);
  }

  lemma RestKeeps(q: Queue, q': Queue, l: nat, lane: Lane)
    requires Inv(q) && l < |q.lanes| && q.lanes[l].Awake? && NoJobs(q) && (lane.Returned? || (lane.Asleep? && !q.shutdown))
    requires q' == q.(lanes := q.lanes[l := lane], quit := q'.quit)
    ensures Inv(q')
  {
    hide Attended, RunningJobs, WithoutEmpty;
    RunningStays(q.lanes, l, lane);
    LaneAttended(q, q', l, lane);
  }

  lemma WakeUpKeeps(q: Queue, l: nat)
    requires Inv(q) && Enabled(q, WakeUp(l))
    ensures Inv(Apply(q, WakeUp(l)))
  {
    hide Attended, RunningJobs, WithoutEmpty;
    RunningStays(q.lanes, l, Awake);
    LaneAttended(q, Apply(q, WakeUp(l)), l, Awake);
  }

  lemma ShutdownKeeps(q: Queue)
    requires Inv(q)
    ensures Inv(Apply(q, Shutdown))
  {
    var q' := Apply(q, Shutdown);
    RunningSame(q.lanes, q'.lanes);
    assert forall i :: 0 <= i < |q'.lanes| ==> q'.lanes[i] != Asleep;
    assert Asleep !in q'.lanes;
    assert Count(q'.lanes, Asleep) == 0;
  }

  lemma StartInv(n: nat)
    ensures Inv(Start(n))
  {
    RunningNone(Start(n).lanes);
  }

  lemma StepKeeps(q: Queue, step: Step)
    requires Inv(q) && Enabled(q, step)
    ensures Inv(Apply(q, step))
  {
    match step {
      case AddJob(high, empty, adder, woken) => AddKeeps(q, NewJob(q, high, empty, adder), woken);
      case TakeJob(l, i) => TakeKeeps(q, l, i);
      case FinishJob(l) => FinishKeeps(q, l);
      case Sleep(l) => RestKeeps(q, Apply(q, step), l, Asleep);
      case WakeUp(l) => WakeUpKeeps(q, l);
      case Return(l) => RestKeeps(q, Apply(q, step), l, Returned);
      case Shutdown => ShutdownKeeps(q);
    }
  }

  lemma {:induction false} RunInv(n: nat, steps: seq<Step>)
    requires Legal(n, steps)
    ensures Inv(Exec(n, steps))
    decreases |steps|
  {
    hide Inv, Apply, Enabled, Start;
    if steps == [] {
      StartInv(n);
    } else {
      RunInv(n, steps[..|steps| - 1]);
      StepKeeps(Exec(n, steps[..|steps| - 1]), steps[|steps| - 1]);
    }
  }

  // ---- Priority, and no lost notification ---------------------------------------------------------------

  function Priority(jobs: seq<Job>): seq<Job> {
    if jobs == [] then []
    else if jobs[|jobs| - 1].high then Priority(jobs[..|jobs| - 1]) + [jobs[|jobs| - 1]]
    else Priority(jobs[..|jobs| - 1])
  }

  lemma PriorityPush(jobs: seq<Job>, job: Job)
    ensures Priority(jobs + [job]) == if job.high then Priority(jobs) + [job] else Priority(jobs)
  {
    assert (jobs + [job])[..|jobs|] == jobs;
  }

  lemma {:induction false} PriorityHas(jobs: seq<Job>, job: Job)
    ensures job in Priority(jobs) <==> job in jobs && job.high
    decreases |jobs|
  {
    if jobs != [] {
      PriorityHas(jobs[..|jobs| - 1], job);
      assert jobs == jobs[..|jobs| - 1] + [jobs[|jobs| - 1]];
    }
  }

  /** The queues hold what they are for, and priority jobs are taken in the order they were added. */
  ghost predicate InTurn(q: Queue) {
    && (forall i :: 0 <= i < |q.readyJobs| ==> !q.readyJobs[i].high)
    && (forall i :: 0 <= i < |q.readyPriorityJobs| ==> q.readyPriorityJobs[i].high)
    && Priority(q.taken) + q.readyPriorityJobs == Priority(q.added)
  }

  lemma StepInTurn(q: Queue, step: Step)
    requires InTurn(q) && Enabled(q, step)
    ensures InTurn(Apply(q, step))
  {
    hide Priority, DoAdd, DoTake;
    match step {
      case AddJob(high, empty, adder, woken) => AddInTurn(q, NewJob(q, high, empty, adder), woken);
      case TakeJob(l, i) => TakeInTurn(q, l, i);
      case _ =>
    }
  }

  lemma AddInTurn(q: Queue, job: Job, woken: Option<nat>)
    requires InTurn(q)
    ensures InTurn(DoAdd(q, job, woken))
  {
    hide Priority, Woken;
    PriorityPush(q.added, job);
    if job.high { assert Priority(q.taken) + (q.readyPriorityJobs + [job]) == Priority(q.added) + [job]; }
  }

  lemma TakeInTurn(q: Queue, l: nat, i: nat)
    requires InTurn(q) && Enabled(q, TakeJob(l, i))
    ensures InTurn(DoTake(q, l, i))
  {
    hide Priority;
    var job := NextJob(q, i);
    PriorityPush(q.taken, job);
    if q.readyPriorityJobs != [] {
      assert Priority(q.taken) + [job] + q.readyPriorityJobs[1..] == Priority(q.taken) + q.readyPriorityJobs;
    } else {
      assert forall x :: x in q.readyJobs[..i] + q.readyJobs[i + 1..] ==> x in q.readyJobs;
    }
  }

  /** In every reachable state, the priority jobs taken and then those still waiting are the priority
      jobs added, in the order they were added. */
  lemma {:induction false} PriorityInOrder(n: nat, steps: seq<Step>)
    requires Legal(n, steps)
    ensures InTurn(Exec(n, steps))
    decreases |steps|
  {
    hide InTurn, Apply, Enabled;
    if steps == [] {
      assert InTurn(Start(n)) by { StartInTurn(n); }
    } else {
      PriorityInOrder(n, steps[..|steps| - 1]);
      StepInTurn(Exec(n, steps[..|steps| - 1]), steps[|steps| - 1]);
    }
  }

  lemma StartInTurn(n: nat)
    ensures InTurn(Start(n))
  {
  }

  /** In the state `q`, reached after `p`: wherever a normal job has been taken since, every priority
      job that had been added by then was taken before it. */
  ghost predicate Overtaken(p: Queue, q: Queue) {
    && p.taken <= q.taken
    && (forall j :: 0 <= j < |p.added| ==> p.added[j] in q.added)
    && (forall i, job :: |p.taken| <= i < |q.taken| && !q.taken[i].high && job in p.added && job.high ==> job in q.taken[..i])
  }

  lemma StepOvertaken(p: Queue, q: Queue, step: Step)
    requires Overtaken(p, q) && InTurn(q) && Enabled(q, step)
    ensures Overtaken(p, Apply(q, step))
  {
    var q' := Apply(q, step);
    if step.TakeJob? {
      var next := NextJob(q, step.index);
      assert q'.taken == q.taken + [next];
      forall i, job | |p.taken| <= i < |q'.taken| && !q'.taken[i].high && job in p.added && job.high ensures job in q'.taken[..i] {
        if i == |q.taken| {
          assert q.readyPriorityJobs == [];
          PriorityHas(q.added, job);
          PriorityHas(q.taken, job);
          assert Priority(q.taken) + [] == Priority(q.taken);
          assert q'.taken[..i] == q.taken;
        } else {
          assert q'.taken[..i] == q.taken[..i];
        }
      }
    }
  }

  /** Over every run: no normal job is taken while a priority job waits. Whichever moment of the run
      is taken, after `m` of its steps, each priority job added by then is taken before every normal
      job that is taken later. */
  lemma {:induction false} PriorityFirst(n: nat, steps: seq<Step>, m: nat)
    requires Legal(n, steps) && m <= |steps|
    ensures Legal(n, steps[..m]) && Overtaken(Exec(n, steps[..m]), Exec(n, steps))
    decreases |steps|
  {
    hide Overtaken, Apply, Enabled;
    if m == |steps| {
      assert steps[..m] == steps;
      assert Overtaken(Exec(n, steps), Exec(n, steps)) by { NotYetOvertaken(Exec(n, steps)); }
    } else {
      var before := steps[..|steps| - 1];
      assert before[..m] == steps[..m];
      PriorityFirst(n, before, m);
      PriorityInOrder(n, before);
      StepOvertaken(Exec(n, steps[..m]), Exec(n, before), steps[|steps| - 1]);
    }
  }

  lemma NotYetOvertaken(q: Queue)
    ensures Overtaken(q, q)
  {
  }

  /** In every reachable state, if a job waits while a lane sleeps then another lane is awake and
      about to look at the queues; after shutdown no lane sleeps. */
  lemma NoLostNotification(n: nat, steps: seq<Step>)
    requires Legal(n, steps) && Asleep in Exec(n, steps).lanes
    ensures var q := Exec(n, steps); !q.shutdown && (!NoJobs(q) ==> Awake in q.lanes)
  {
    RunInv(n, steps);
    var q := Exec(n, steps);
    hide Legal, Exec, Numbered, Waiting, Taken;
    assert Asleep in multiset(q.lanes);
    assert Awake in multiset(q.lanes) ==> Awake in q.lanes;
  }

  // ---- Every job runs exactly once -----------------------------------------------------------------------

  lemma {:induction false} NumberedOnce(jobs: seq<Job>, job: Job)
    requires forall i :: 0 <= i < |jobs| ==> jobs[i].id == i
    ensures multiset(jobs)[job] <= 1
    decreases |jobs|
  {
    if jobs != [] {
      var n := |jobs| - 1;
      var front, last := jobs[..n], jobs[n];
      assert jobs == front + [last];
      NumberedOnce(front, job);
      if job == last {
        assert forall i :: 0 <= i < n ==> front[i].id == i;
        assert job !in front;
        assert multiset(front)[job] == 0;
      }
    }
  }

  lemma {:induction false} NonEmptyIn(jobs: seq<Job>, job: Job)
    ensures multiset(WithoutEmpty(jobs))[job] == if job.empty then 0 else multiset(jobs)[job]
    decreases |jobs|
  {
    if jobs != [] {
      var n := |jobs| - 1;
      assert jobs == jobs[..n] + [jobs[n]];
      NonEmptyIn(jobs[..n], job);
    }
  }

  /** No job is ever run twice: it runs on at most one lane, and not again once it has finished. */
  lemma AtMostOnce(n: nat, steps: seq<Step>, job: Job)
    requires Legal(n, steps)
    ensures var q := Exec(n, steps); RunningJobs(q.lanes)[job] + multiset(q.finished)[job] <= 1
  {
    RunInv(n, steps);
    var q := Exec(n, steps);
    hide Legal, Exec, Attended, RunningJobs, WithoutEmpty;
    NumberedOnce(q.added, job);
    NonEmptyIn(q.taken, job);
    assert multiset(WithoutEmpty(q.taken))[job] == RunningJobs(q.lanes)[job] + multiset(q.finished)[job];
    assert multiset(q.taken)[job] <= multiset(q.added)[job];
  }

  // ---- Every job runs, if the lanes are not stopped by empty jobs ----------------------------------------

  /** Empty jobs are added from outside, and before shutdown. */
  predicate FairStep(q: Queue, step: Step) {
    step.AddJob? && step.empty ==> step.adder.None? && !q.shutdown
  }

  ghost predicate FairRun(n: nat, steps: seq<Step>)
    requires Legal(n, steps)
  {
    steps == [] || (FairRun(n, steps[..|steps| - 1]) && FairStep(Exec(n, steps[..|steps| - 1]), steps[|steps| - 1]))
  }

  lemma {:induction false} EmptiesConcat(a: seq<Job>, b: seq<Job>)
    ensures Empties(a + b) == Empties(a) + Empties(b)
    decreases |b|
  {
    if b == [] {
      assert a + b == a;
    } else {
      var n := |b| - 1;
      assert (a + b)[..|a + b| - 1] == a + b[..n];
      EmptiesConcat(a, b[..n]);
    }
  }

  lemma EmptiesOne(job: Job)
    ensures Empties([job]) == if job.empty then 1 else 0
  {
    assert [job][..0] == [];
  }

  lemma EmptiesOut(jobs: seq<Job>, i: nat)
    requires i < |jobs|
    ensures Empties(jobs) == Empties(jobs[..i] + jobs[i + 1..]) + if jobs[i].empty then 1 else 0
  {
    hide Empties;
    assert jobs == jobs[..i] + ([jobs[i]] + jobs[i + 1..]);
    EmptiesConcat(jobs[..i], [jobs[i]] + jobs[i + 1..]);
    EmptiesConcat([jobs[i]], jobs[i + 1..]);
    EmptiesConcat(jobs[..i], jobs[i + 1..]);
    EmptiesOne(jobs[i]);
  }

  ghost predicate EmptiesKept(q: Queue) {
    Empties(q.taken) + Empties(q.readyJobs) + Empties(q.readyPriorityJobs) == Empties(q.added)
  }

  ghost predicate TimelyWaits(q: Queue) {
    exists job: Job :: job.timely && (job in q.readyJobs || job in q.readyPriorityJobs)
  }

  /** Some lane has not returned. */
  ghost predicate Alive(lanes: seq<Lane>) {
    exists l :: 0 <= l < |lanes| && !lanes[l].Returned?
  }

  ghost predicate NoEmptyWaits(q: Queue) {
    forall job :: job in q.readyJobs || job in q.readyPriorityJobs ==> !job.empty
  }

  /** Until a lane finds the queues empty, lanes return only for empty jobs. After that no empty job
      comes, and while a timely job waits some lane is left to run it. */
  ghost predicate Manned(n: nat, q: Queue) {
    && |q.lanes| == n
    && (!q.quit ==> Count(q.lanes, Returned) == Empties(q.taken))
    && (q.quit ==> q.shutdown && NoEmptyWaits(q) && (TimelyWaits(q) ==> Alive(q.lanes)))
  }

  lemma AddManned(n: nat, q: Queue, high: bool, empty: bool, adder: Option<nat>, woken: Option<nat>)
    requires Manned(n, q) && Enabled(q, AddJob(high, empty, adder, woken)) && FairStep(q, AddJob(high, empty, adder, woken))
    ensures Manned(n, Apply(q, AddJob(high, empty, adder, woken)))
  {
    hide Empties, Count;
    var q' := Apply(q, AddJob(high, empty, adder, woken));
    if woken.Some? {
      WokenCounts(q.lanes, woken);
      assert !q'.lanes[woken.value].Returned?;
    }
    if adder.Some? { assert Alive(q.lanes) by { assert !q.lanes[adder.value].Returned?; } }
    if l :| 0 <= l < |q.lanes| && !q.lanes[l].Returned? { assert !q'.lanes[l].Returned?; }
  }

  lemma TakeManned(n: nat, q: Queue, l: nat, i: nat)
    requires Manned(n, q) && Enabled(q, TakeJob(l, i))
    ensures Manned(n, DoTake(q, l, i))
  {
    hide Empties, Count;
    var q' := DoTake(q, l, i);
    var job := NextJob(q, i);
    PushJob(q.taken, job);
    LaneReturned(q.lanes, l, q'.lanes[l]);
    assert q.quit ==> !job.empty;
    if !job.empty { assert !q'.lanes[l].Returned?; }
    if q.readyPriorityJobs == [] { assert forall x :: x in q'.readyJobs ==> x in q.readyJobs; }
  }

  lemma LaneReturned(lanes: seq<Lane>, l: nat, lane: Lane)
    requires l < |lanes| && !lanes[l].Returned?
    ensures Count(lanes[l := lane], Returned) == Count(lanes, Returned) + if lane.Returned? then 1 else 0
  {
    UpdateCount(lanes, l, lane);
    var a, b := multiset(lanes[l := lane]) + multiset{lanes[l]}, multiset(lanes) + multiset{lane};
    assert a[Returned] == b[Returned];
  }

  lemma LaneManned(n: nat, q: Queue, q': Queue, l: nat, lane: Lane)
    requires Manned(n, q) && l < |q.lanes| && !q.lanes[l].Returned?
    requires q' == q.(lanes := q.lanes[l := lane], finished := q'.finished, quit := q.quit || lane.Returned?)
    requires lane.Returned? ==> q.shutdown && NoJobs(q)
    ensures Manned(n, q')
  {
    hide Empties, Count;
    LaneReturned(q.lanes, l, lane);
    if !lane.Returned? { assert !q'.lanes[l].Returned?; }
  }

  lemma ShutdownManned(n: nat, q: Queue)
    requires Manned(n, q)
    ensures Manned(n, Apply(q, Shutdown))
  {
    hide Empties;
    var q' := Apply(q, Shutdown);
    WakeAllReturned(q.lanes);
    if l :| 0 <= l < |q.lanes| && !q.lanes[l].Returned? { assert !q'.lanes[l].Returned?; }
  }

  lemma {:induction false} WakeAllReturned(lanes: seq<Lane>)
    ensures Count(WakeAll(lanes), Returned) == Count(lanes, Returned)
    decreases |lanes|
  {
    if lanes != [] {
      var n := |lanes| - 1;
      assert lanes == lanes[..n] + [lanes[n]];
      assert WakeAll(lanes) == WakeAll(lanes[..n]) + [if lanes[n].Asleep? then Awake else lanes[n]];
      WakeAllReturned(lanes[..n]);
    }
  }

  lemma StartManned(n: nat)
    ensures Manned(n, Start(n)) && EmptiesKept(Start(n))
  {
    assert Returned !in Start(n).lanes;
  }

  lemma StepManned(n: nat, q: Queue, step: Step)
    requires Manned(n, q) && Enabled(q, step) && FairStep(q, step)
    ensures Manned(n, Apply(q, step))
  {
    match step {
      case AddJob(high, empty, adder, woken) => AddManned(n, q, high, empty, adder, woken);
      case TakeJob(l, i) => TakeManned(n, q, l, i);
      case FinishJob(l) => LaneManned(n, q, Apply(q, step), l, Awake);
      case Sleep(l) => LaneManned(n, q, Apply(q, step), l, Asleep);
      case WakeUp(l) => LaneManned(n, q, Apply(q, step), l, Awake);
      case Return(l) => LaneManned(n, q, Apply(q, step), l, Returned);
      case Shutdown => ShutdownManned(n, q);
    }
  }

  lemma StepEmpties(q: Queue, step: Step)
    requires EmptiesKept(q) && Enabled(q, step)
    ensures EmptiesKept(Apply(q, step))
  {
    hide Empties, Woken, WakeAll;
    match step {
      case AddJob(high, empty, adder, woken) =>
        var job := NewJob(q, high, empty, adder);
        PushJob(q.added, job);
        if high { PushJob(q.readyPriorityJobs, job); } else { PushJob(q.readyJobs, job); }
      case TakeJob(l, i) =>
        PushJob(q.taken, NextJob(q, i));
        if q.readyPriorityJobs != [] {
          EmptiesOut(q.readyPriorityJobs, 0);
          assert q.readyPriorityJobs[..0] + q.readyPriorityJobs[0 + 1..] == q.readyPriorityJobs[1..];
        } else {
          EmptiesOut(q.readyJobs, i);
        }
      case _ =>
    }
  }

  lemma {:induction false} RunManned(n: nat, steps: seq<Step>)
    requires Legal(n, steps) && FairRun(n, steps)
    ensures Manned(n, Exec(n, steps)) && EmptiesKept(Exec(n, steps))
    decreases |steps|
  {
    hide Manned, EmptiesKept, Apply, Enabled, Start, FairStep;
    if steps == [] {
      StartManned(n);
    } else {
      var q := Exec(n, steps[..|steps| - 1]);
      RunManned(n, steps[..|steps| - 1]);
      StepManned(n, q, steps[|steps| - 1]);
      StepEmpties(q, steps[|steps| - 1]);
    }
  }

  ghost predicate AllReturned(q: Queue) {
    forall l :: 0 <= l < |q.lanes| ==> q.lanes[l].Returned?
  }

  lemma {:induction false} AllCounted(lanes: seq<Lane>)
    requires forall l :: 0 <= l < |lanes| ==> lanes[l].Returned?
    ensures Count(lanes, Returned) == |lanes|
    decreases |lanes|
  {
    if lanes != [] {
      assert lanes == lanes[..|lanes| - 1] + [lanes[|lanes| - 1]];
      AllCounted(lanes[..|lanes| - 1]);
    }
  }

  lemma NoTimelyLeft(n: nat, q: Queue)
    requires Manned(n, q) && EmptiesKept(q) && AllReturned(q) && Empties(q.added) < n
    ensures !TimelyWaits(q)
  {
    hide Empties;
    AllCounted(q.lanes);
  }

  lemma RanOnce(q: Queue, job: Job)
    requires Inv(q) && AllReturned(q) && !TimelyWaits(q) && job in q.added && job.timely && !job.empty
    ensures multiset(q.finished)[job] == 1
  {
    RunningNone(q.lanes);
    hide RunningJobs, WithoutEmpty, Attended;
    assert job !in multiset(q.readyJobs) && job !in multiset(q.readyPriorityJobs);
    assert job in multiset(q.added);
    NumberedOnce(q.added, job);
    NonEmptyIn(q.taken, job);
    assert multiset(q.taken)[job] == multiset(q.added)[job];
  }

  /** Over every interleaving of threads that add jobs, lanes and shutdown, once all lanes have
      returned every job that is not empty, and was added before shutdown or by a lane's own job,
      has run exactly once: provided that fewer empty jobs were added than there are lanes, all
      of them from outside and before shutdown. */
  lemma EveryJobRuns(n: nat, steps: seq<Step>, job: Job)
    requires Legal(n, steps) && FairRun(n, steps)
    requires var q := Exec(n, steps); AllReturned(q) && Empties(q.added) < n && job in q.added && job.timely && !job.empty
    ensures multiset(Exec(n, steps).finished)[job] == 1
  {
    hide *;
    var q := Exec(n, steps);
    RunInv(n, steps);
    RunManned(n, steps);
    NoTimelyLeft(n, q);
    RanOnce(q, job);
  }

  // ---- Exactly then ----------------------------------------------------------------------------------------

  /** With `n` lanes and `m` empty jobs, no timely job is ever lost. */
  ghost predicate NeverLoses(n: nat, m: nat) {
    forall steps, job :: Legal(n, steps) && FairRun(n, steps) && Over(Exec(n, steps), m, job) ==> multiset(Exec(n, steps).finished)[job] == 1
  }

  /** All lanes have returned, `m` empty jobs have been added, and `job` should have run. */
  ghost predicate Over(q: Queue, m: nat, job: Job) {
    AllReturned(q) && Empties(q.added) == m && job in q.added && job.timely && !job.empty
  }

  /** The run `steps` leads to the state `q`. */
  ghost predicate Leads(n: nat, steps: seq<Step>, q: Queue) {
    Legal(n, steps) && FairRun(n, steps) && Exec(n, steps) == q
  }

  lemma LeadsOn(n: nat, steps: seq<Step>, q: Queue, step: Step)
    requires Leads(n, steps, q) && Enabled(q, step) && FairStep(q, step)
    ensures Leads(n, steps + [step], Apply(q, step))
  {
    hide Apply, Enabled, FairStep;
    assert (steps + [step])[..|steps|] == steps;
  }

  function EmptyJobs(m: nat): (r: seq<Job>)
    ensures |r| == m && forall i :: 0 <= i < m ==> r[i] == Job(i, false, true, true)
  {
    seq(m, i requires 0 <= i => Job(i, false, true, true))
  }

  function Filled(n: nat, jobs: seq<Job>): Queue {
    Start(n).(readyJobs := jobs, added := jobs)
  }

  lemma {:induction false} FillWithEmpties(n: nat, m: nat) returns (steps: seq<Step>)
    ensures Leads(n, steps, Filled(n, EmptyJobs(m)))
  {
    if m == 0 {
      steps := [];
      assert EmptyJobs(0) == [];
    } else {
      var before := FillWithEmpties(n, m - 1);
      steps := before + [AddJob(false, true, None, None)];
      assert EmptyJobs(m) == EmptyJobs(m - 1) + [Job(m - 1, false, true, true)];
      LeadsOn(n, before, Filled(n, EmptyJobs(m - 1)), AddJob(false, true, None, None));
    }
  }

  /** The jobs, when the first `t` lanes have taken one each and returned. */
  function Stopped(n: nat, jobs: seq<Job>, t: nat): Queue
    requires t <= n && t <= |jobs|
  {
    Queue(seq(n, i => if i < t then Returned else Awake), jobs[t..], [], false, jobs, jobs[..t], [], false)
  }

  lemma {:induction false} StopLanes(n: nat, jobs: seq<Job>, before: seq<Step>, t: nat) returns (steps: seq<Step>)
    requires t <= n && t <= |jobs| && Leads(n, before, Filled(n, jobs)) && forall i :: 0 <= i < t ==> jobs[i].empty
    ensures Leads(n, steps, Stopped(n, jobs, t))
  {
    hide Leads;
    if t == 0 {
      steps := before;
      assert Stopped(n, jobs, 0) == Filled(n, jobs);
    } else {
      var earlier := StopLanes(n, jobs, before, t - 1);
      var q := Stopped(n, jobs, t - 1);
      LeadsOn(n, earlier, q, TakeJob(t - 1, 0));
      steps := earlier + [TakeJob(t - 1, 0)];
      TakesFirst(n, jobs, t - 1);
    }
  }

  lemma TakesFirst(n: nat, jobs: seq<Job>, t: nat)
    requires t < n && t < |jobs| && jobs[t].empty
    ensures Enabled(Stopped(n, jobs, t), TakeJob(t, 0)) && Apply(Stopped(n, jobs, t), TakeJob(t, 0)) == Stopped(n, jobs, t + 1)
  {
    var q := Stopped(n, jobs, t);
    assert q.readyJobs[0] == jobs[t] && q.readyJobs[..0] + q.readyJobs[1..] == jobs[t + 1..];
    assert jobs[..t] + [jobs[t]] == jobs[..t + 1];
    assert q.lanes[t := Returned] == Stopped(n, jobs, t + 1).lanes;
  }

  lemma {:induction false} EmptiesAll(m: nat)
    ensures Empties(EmptyJobs(m)) == m
  {
    if m > 0 {
      EmptiesAll(m - 1);
      assert EmptyJobs(m)[..m - 1] == EmptyJobs(m - 1);
    }
  }

  /** As many empty jobs as lanes stop every lane, and a job added after them in time is lost. */
  lemma EmptyJobsLoseOthers(n: nat, m: nat)
    requires n <= m
    ensures !NeverLoses(n, m)
  {
    hide Legal, Exec, FairRun, Empties;
    var job := Job(m, false, false, true);
    var jobs := EmptyJobs(m) + [job];
    var fill := FillWithEmpties(n, m);
    LeadsOn(n, fill, Filled(n, EmptyJobs(m)), AddJob(false, false, None, None));
    var steps := StopLanes(n, jobs, fill + [AddJob(false, false, None, None)], n);
    EmptiesAll(m);
    EmptiesConcat(EmptyJobs(m), [job]);
    EmptiesOne(job);
    assert Leads(n, steps, Stopped(n, jobs, n));
    assert jobs[m] == job && job in Exec(n, steps).added;
    assert Over(Exec(n, steps), m, job) && multiset(Exec(n, steps).finished)[job] == 0;
  }

  lemma GoesOn(n: nat, steps: seq<Step>, q: Queue, step: Step)
    requires Legal(n, steps) && Exec(n, steps) == q && Enabled(q, step)
    ensures Legal(n, steps + [step]) && Exec(n, steps + [step]) == Apply(q, step)
  {
    hide Apply, Enabled;
    assert (steps + [step])[..|steps|] == steps;
  }

  /** The proviso is exact: no timely job is ever lost if and only if fewer empty jobs are added
      than there are lanes. */
  lemma NoJobIsLostIff(n: nat, m: nat)
    ensures NeverLoses(n, m) <==> m < n
  {
    hide Legal, Exec, FairRun, Empties, AllReturned;
    if m < n {
      forall steps, job | Legal(n, steps) && FairRun(n, steps) && Over(Exec(n, steps), m, job)
        ensures multiset(Exec(n, steps).finished)[job] == 1
      {
        EveryJobRuns(n, steps, job);
      }
    } else {
      EmptyJobsLoseOthers(n, m);
    }
  }

  // ---- Whoever adds empty jobs, and whenever -----------------------------------------------------------------

  /** With `n` lanes and `m` empty jobs, which a lane's own job may add after shutdown, no timely job
      is ever lost. */
  ghost predicate NeverLosesLate(n: nat, m: nat) {
    forall steps, job :: Legal(n, steps) && Over(Exec(n, steps), m, job) ==> multiset(Exec(n, steps).finished)[job] == 1
  }

  const FIRST: Job := Job(0, false, false, true)

  /** After shutdown, while lane 0 runs the first job, the other lanes up to `t` have returned. */
  function Leaving(n: nat, t: nat): Queue {
    Queue(seq(n, i => if i == 0 then Running(FIRST) else if i <= t then Returned else Awake), [], [], true, [FIRST], [FIRST], [], t > 0)
  }

  lemma StartsSo(n: nat)
    ensures Legal(n, []) && Exec(n, []) == Start(n)
  {
  }

  lemma FirstRuns(n: nat) returns (steps: seq<Step>)
    requires n > 0
    ensures Legal(n, steps) && Exec(n, steps) == Leaving(n, 0)
  {
    hide Legal, Exec;
    StartsSo(n);
    var q1 := Start(n).(readyJobs := [FIRST], added := [FIRST]);
    GoesOn(n, [], Start(n), AddJob(false, false, None, None));
    steps := [] + [AddJob(false, false, None, None)];
    assert Exec(n, steps) == q1;
    var q2 := Leaving(n, 0).(shutdown := false);
    assert q1.lanes[0 := Running(FIRST)] == q2.lanes;
    GoesOn(n, steps, q1, TakeJob(0, 0));
    steps := steps + [TakeJob(0, 0)];
    assert Exec(n, steps) == q2;
    assert WakeAll(q2.lanes) == q2.lanes;
    GoesOn(n, steps, q2, Shutdown);
    steps := steps + [Shutdown];
  }

  lemma {:induction false} OthersLeave(n: nat, t: nat) returns (steps: seq<Step>)
    requires t < n
    ensures Legal(n, steps) && Exec(n, steps) == Leaving(n, t)
  {
    hide Legal, Exec;
    if t == 0 {
      steps := FirstRuns(n);
    } else {
      steps := OthersLeave(n, t - 1);
      var q := Leaving(n, t - 1);
      assert q.lanes[t := Returned] == Leaving(n, t).lanes;
      GoesOn(n, steps, q, Return(t));
      steps := steps + [Return(t)];
    }
  }

  /** The first job and `m` empty ones. */
  function LateJobs(m: nat): (r: seq<Job>)
    ensures |r| == m + 1 && r[0] == FIRST && forall i :: 0 < i <= m ==> r[i] == Job(i, false, true, true)
  {
    [FIRST] + seq(m, i requires 0 <= i => Job(i + 1, false, true, true))
  }

  function WithLate(n: nat, jobs: seq<Job>): Queue
    requires n > 0 && jobs != []
  {
    Leaving(n, n - 1).(readyJobs := jobs[1..], added := jobs)
  }

  lemma {:induction false} AddLate(n: nat, m: nat) returns (steps: seq<Step>)
    requires n > 0
    ensures Legal(n, steps) && Exec(n, steps) == WithLate(n, LateJobs(m))
  {
    hide Legal, Exec;
    if m == 0 {
      steps := OthersLeave(n, n - 1);
      assert LateJobs(0) == [FIRST];
    } else {
      steps := AddLate(n, m - 1);
      LateStep(n, LateJobs(m - 1), steps, true);
      assert LateJobs(m) == LateJobs(m - 1) + [Job(m, false, true, true)];
      steps := steps + [AddJob(false, true, Some(0), None)];
    }
  }

  lemma LateStep(n: nat, jobs: seq<Job>, steps: seq<Step>, empty: bool)
    requires n > 0 && jobs != [] && Legal(n, steps) && Exec(n, steps) == WithLate(n, jobs)
    ensures var step := AddJob(false, empty, Some(0), None);
      Legal(n, steps + [step]) && Exec(n, steps + [step]) == WithLate(n, jobs + [Job(|jobs|, false, empty, true)])
  {
    hide Legal, Exec;
    var q := WithLate(n, jobs);
    assert q.lanes[0].Running? && Asleep !in q.lanes;
    assert (jobs + [Job(|jobs|, false, empty, true)])[1..] == jobs[1..] + [Job(|jobs|, false, empty, true)];
    GoesOn(n, steps, q, AddJob(false, empty, Some(0), None));
  }

  lemma {:induction false} EmptiesLate(m: nat)
    ensures Empties(LateJobs(m)) == m
  {
    if m == 0 {
      EmptiesOne(FIRST);
      assert LateJobs(0) == [FIRST];
    } else {
      EmptiesLate(m - 1);
      assert LateJobs(m)[..m] == LateJobs(m - 1);
    }
  }

  /** One empty job is too many, however many lanes there are, if a lane's own job adds it after
      shutdown, when the other lanes have already returned. */
  lemma LateEmptyJobLosesOthers(n: nat, m: nat)
    requires n > 0 && m > 0
    ensures !NeverLosesLate(n, m)
  {
    hide Legal, Exec, Empties;
    var job := Job(m + 1, false, false, true);
    var jobs := LateJobs(m) + [job];
    var steps := AddLate(n, m);
    LateStep(n, LateJobs(m), steps, false);
    steps := steps + [AddJob(false, false, Some(0), None)];
    var q := WithLate(n, jobs);
    var q1 := q.(lanes := q.lanes[0 := Awake], finished := [FIRST]);
    GoesOn(n, steps, q, FinishJob(0));
    steps := steps + [FinishJob(0)];
    assert Exec(n, steps) == q1;
    assert q1.readyJobs[0] == jobs[1] && jobs[1].empty;
    GoesOn(n, steps, q1, TakeJob(0, 0));
    steps := steps + [TakeJob(0, 0)];
    EmptiesLate(m);
    EmptiesConcat(LateJobs(m), [job]);
    EmptiesOne(job);
    var last := Exec(n, steps);
    assert last.added == jobs && jobs[m + 1] == job && last.finished == [FIRST];
    assert Over(last, m, job) && multiset(last.finished)[job] == 0;
  }

  lemma {:induction false} NoEmptiesFair(n: nat, steps: seq<Step>)
    requires Legal(n, steps) && Empties(Exec(n, steps).added) == 0
    ensures FairRun(n, steps)
    decreases |steps|
  {
    if steps != [] {
      var before := steps[..|steps| - 1];
      var q := Exec(n, before);
      var step := steps[|steps| - 1];
      if step.AddJob? { PushJob(q.added, NewJob(q, step.high, step.empty, step.adder)); }
      hide Empties;
      NoEmptiesFair(n, before);
    }
  }

  /** The condition without any proviso: no timely job is ever lost if and only if there is a lane and
      no empty job is added. */
  lemma NoJobIsLostLateIff(n: nat, m: nat)
    ensures NeverLosesLate(n, m) <==> n > 0 && m == 0
  {
    hide Legal, Exec, FairRun, Empties, AllReturned;
    if n > 0 && m == 0 {
      forall steps, job | Legal(n, steps) && Over(Exec(n, steps), m, job) ensures multiset(Exec(n, steps).finished)[job] == 1 {
        NoEmptiesFair(n, steps);
        EveryJobRuns(n, steps, job);
      }
    } else if n == 0 {
      EmptyJobsLoseOthers(n, m);
    } else {
      LateEmptyJobLosesOthers(n, m);
    }
  }

  // ---- Processes that give up their lane -------------------------------------------------------------------

  /** Where a process is that asks for its wait to be moved off its lane: it has not asked; it has
      incremented the counter and been granted or refused; its wait runs detached; or its lane
      waits for it. */
  datatype Release = Unasked | Granted | Refused | Detached | Direct | Done

  datatype Background = Background(max: nat, count: nat, releases: seq<Release>)

  datatype BackgroundStep = FetchAdd(p: nat) | Detach(p: nat) | Decline(p: nat) | EndWait(p: nat)

  predicate BackgroundEnabled(b: Background, step: BackgroundStep) {
    step.p < |b.releases| &&
    match step
    case FetchAdd(p) => b.releases[p].Unasked?
    case Detach(p) => b.releases[p].Granted?
    case Decline(p) => b.releases[p].Refused?
    case EndWait(p) => b.releases[p].Detached? || b.releases[p].Direct?
  }

  /** The atomic accesses to `backgroundTaskCount`, and what lies between them. A counter below zero
      cannot occur, as the invariant shows; the model stops at zero. */
  function BackgroundApply(b: Background, step: BackgroundStep): Background
    requires BackgroundEnabled(b, step)
  {
    match step
    case FetchAdd(p) => b.(count := b.count + 1, releases := b.releases[p := if b.count < b.max then Granted else Refused])
    case Detach(p) => b.(releases := b.releases[p := Detached])
    case Decline(p) => b.(count := if b.count > 0 then b.count - 1 else 0, releases := b.releases[p := Direct])
    case EndWait(p) =>
      b.(count := if b.releases[p].Detached? && b.count > 0 then b.count - 1 else b.count, releases := b.releases[p := Done])
  }

  function Number(rs: seq<Release>, r: Release): nat {
    multiset(rs)[r]
  }

  /** The counter is the number of processes between their increment and their decrement, and no
      more than the maximum are granted or detached. */
  ghost predicate BackgroundInv(b: Background) {
    && b.count == Number(b.releases, Granted) + Number(b.releases, Detached) + Number(b.releases, Refused)
    && Number(b.releases, Granted) + Number(b.releases, Detached) <= b.max
  }

  lemma Changed(rs: seq<Release>, p: nat, r: Release, x: Release)
    requires p < |rs|
    ensures Number(rs[p := r], x) + (if rs[p] == x then 1 else 0) == Number(rs, x) + if r == x then 1 else 0
  {
    var a, b := multiset(rs[p := r]) + multiset{rs[p]}, multiset(rs) + multiset{r};
    assert a == b;
    assert a[x] == b[x];
  }

  /** Detached waits never exceed `backgroundTaskMax`, and the counter is never decremented below
      zero, although it can exceed the maximum while refusals are under way. */
  lemma BackgroundKeeps(b: Background, step: BackgroundStep)
    requires BackgroundInv(b) && BackgroundEnabled(b, step)
    ensures BackgroundInv(BackgroundApply(b, step))
    ensures step.Decline? || (step.EndWait? && b.releases[step.p].Detached?) ==> b.count > 0
  {
    var b' := BackgroundApply(b, step);
    var p := step.p;
    hide Number;
    Changed(b.releases, p, b'.releases[p], Granted);
    Changed(b.releases, p, b'.releases[p], Detached);
    Changed(b.releases, p, b'.releases[p], Refused);
  }

  predicate BackgroundLegal(b: Background, steps: seq<BackgroundStep>)
    decreases |steps|, 0
  {
    steps == [] || (BackgroundLegal(b, steps[..|steps| - 1]) && BackgroundEnabled(BackgroundExec(b, steps[..|steps| - 1]), steps[|steps| - 1]))
  }

  function BackgroundExec(b: Background, steps: seq<BackgroundStep>): Background
    requires BackgroundLegal(b, steps)
    decreases |steps|, 1
  {
    if steps == [] then b else BackgroundApply(BackgroundExec(b, steps[..|steps| - 1]), steps[|steps| - 1])
  }

  function BackgroundStart(max: nat, processes: nat): Background {
    Background(max, 0, seq(processes, _ => Unasked))
  }

  lemma BackgroundStartInv(max: nat, processes: nat)
    ensures BackgroundInv(BackgroundStart(max, processes))
  {
    var rs := BackgroundStart(max, processes).releases;
    assert Granted !in rs && Detached !in rs && Refused !in rs;
  }

  lemma {:induction false} DetachedWithinMax(max: nat, processes: nat, steps: seq<BackgroundStep>)
    requires BackgroundLegal(BackgroundStart(max, processes), steps)
    ensures var b := BackgroundExec(BackgroundStart(max, processes), steps);
      BackgroundInv(b) && b.max == max && Number(b.releases, Detached) <= max
    decreases |steps|
  {
    hide Number, BackgroundApply, BackgroundEnabled;
    if steps == [] {
      BackgroundStartInv(max, processes);
    } else {
      DetachedWithinMax(max, processes, steps[..|steps| - 1]);
      var b := BackgroundExec(BackgroundStart(max, processes), steps[..|steps| - 1]);
      BackgroundKeeps(b, steps[|steps| - 1]);
      SameMax(b, steps[|steps| - 1]);
    }
  }

  /** A process is refused only if as many as the maximum are in the background, about to be, or about to
      be refused. */
  lemma RefusedIffFull(max: nat, processes: nat, steps: seq<BackgroundStep>, p: nat)
    requires BackgroundLegal(BackgroundStart(max, processes), steps)
    requires BackgroundEnabled(BackgroundExec(BackgroundStart(max, processes), steps), FetchAdd(p))
    ensures var b := BackgroundExec(BackgroundStart(max, processes), steps);
      var r := BackgroundApply(b, FetchAdd(p)).releases[p];
      && (r.Granted? || r.Refused?)
      && (r.Refused? <==> Number(b.releases, Granted) + Number(b.releases, Detached) + Number(b.releases, Refused) >= max)
  {
    hide Number;
    DetachedWithinMax(max, processes, steps);
  }

  lemma {:induction false} AllReleases(rs: seq<Release>)
    ensures |rs| == Number(rs, Unasked) + Number(rs, Granted) + Number(rs, Refused) + Number(rs, Detached) + Number(rs, Direct) + Number(rs, Done)
  {
    if rs != [] {
      AllReleases(rs[1..]);
      assert rs == [rs[0]] + rs[1..];
      forall r ensures Number(rs, r) == Number(rs[1..], r) + if rs[0] == r then 1 else 0 {
        assert multiset(rs) == multiset{rs[0]} + multiset(rs[1..]);
      }
    }
  }

  /** So if there are no more processes than that, every one of them goes to the background. */
  lemma {:induction false} AllDetachIfFew(max: nat, processes: nat, steps: seq<BackgroundStep>)
    requires BackgroundLegal(BackgroundStart(max, processes), steps) && processes <= max
    ensures var rs := BackgroundExec(BackgroundStart(max, processes), steps).releases;
      |rs| == processes && Number(rs, Refused) == 0 && Number(rs, Direct) == 0
    decreases |steps|
  {
    if steps == [] {
      var rs := BackgroundStart(max, processes).releases;
      assert Refused !in rs && Direct !in rs;
    } else {
      var front, step := steps[..|steps| - 1], steps[|steps| - 1];
      AllDetachIfFew(max, processes, front);
      var b := BackgroundExec(BackgroundStart(max, processes), front);
      var rs, r := b.releases, BackgroundApply(b, step).releases[step.p];
      AllReleases(rs);
      assert rs[step.p] in multiset(rs);
      Changed(rs, step.p, r, Refused);
      Changed(rs, step.p, r, Direct);
      if step.FetchAdd? { RefusedIffFull(max, processes, front, step.p); }
    }
  }

  lemma SameMax(b: Background, step: BackgroundStep)
    requires BackgroundEnabled(b, step)
    ensures BackgroundApply(b, step).max == b.max
  {
  }

  /** The overshoot is real. */
  lemma CounterOvershoots()
    ensures BackgroundLegal(BackgroundStart(0, 1), [FetchAdd(0)]) && BackgroundExec(BackgroundStart(0, 1), [FetchAdd(0)]).count == 1
  {
    assert [FetchAdd(0)][..0] == [];
  }

  // ---- How many lanes and background tasks there may be ----------------------------------------------------

  const RESERVED_FILES: nat := 10
  const INT_MAX: nat := 0x7fff_ffff
  const UNSIGNED: nat := 0x1_0000_0000

  function Min(a: nat, b: nat): nat { if a < b then a else b }

  function Max(a: nat, b: nat): nat { if a < b then b else a }

  /** `estimateTaskLimits`, given the limit on open files and the environment's override. The
      multiplication wraps at 32 bits. */
  function EstimateTaskLimits(numLanes: nat, openFileLimit: nat, override: Option<nat>): (nat, nat)
    requires numLanes < UNSIGNED
  {
    if openFileLimit < RESERVED_FILES then (1, 0) else
    var allowed := Min(openFileLimit, INT_MAX) - RESERVED_FILES;
    var maxConcurrentTasks := allowed / 2;
    if numLanes > maxConcurrentTasks then (Max(1, maxConcurrentTasks), 0) else
    var background := if override.Some? then override.value else Min(1024, numLanes * 64 % UNSIGNED);
    (numLanes, Min(background, maxConcurrentTasks - numLanes))
  }

  /** So many tasks can have their two files each, besides the files that are reserved. */
  predicate Fits(tasks: nat, openFileLimit: nat) {
    RESERVED_FILES + 2 * tasks <= openFileLimit && RESERVED_FILES + 2 * tasks <= INT_MAX
  }

  /** How many background tasks there would be if there were files enough. */
  function BackgroundWish(numLanes: nat, override: Option<nat>): nat {
    match override case Some(n) => n case None => Min(1024, 64 * numLanes % UNSIGNED)
  }

  /** The limits are the greatest that fit: all lanes asked for if they do, and then as many background
      tasks as are wished for and still fit; otherwise as many lanes as do, but at least one, and no
      background tasks. */
  lemma LimitsFitFiles(numLanes: nat, openFileLimit: nat, override: Option<nat>)
    requires numLanes < UNSIGNED
    ensures var (lanes, background) := EstimateTaskLimits(numLanes, openFileLimit, override);
      if Fits(numLanes, openFileLimit) then
        && lanes == numLanes && Fits(lanes + background, openFileLimit) && background <= BackgroundWish(numLanes, override)
        && (background == BackgroundWish(numLanes, override) || !Fits(lanes + background + 1, openFileLimit))
      else
        1 <= lanes <= Max(1, numLanes) && (lanes == 1 || Fits(lanes, openFileLimit)) && !Fits(lanes + 1, openFileLimit) && background == 0
  {
    if openFileLimit >= RESERVED_FILES {
      var allowed := Min(openFileLimit, INT_MAX) - RESERVED_FILES;
      assert 2 * (allowed / 2) <= allowed < 2 * (allowed / 2) + 2;
    }
  }
}
