/** Where a cycle can be broken (`breakCycle`, lib/Core/BuildEngine.cpp:1289-1361). */
module CycleBreaking {
  import opened Options
  import opened EngineState
  import opened EngineSteps

  /** The rule at position `i` can be forced, or the rule before it has asked for its value and there
      is one from an earlier build. */
  ghost predicate Resolvable(s: State, cycleList: seq<KeyID>, i: nat)
    requires i < |cycleList|
  {
    var k := cycleList[i];
    || Scanning(s, k)
    || (i > 0 && Waiting(s, k) && Info(s, k).result.builtAt != 0 && exists r :: r in At(s.requestedBy, k) && r.task == Some(cycleList[i - 1]))
  }

  ghost predicate LastResolvable(s: State, cycleList: seq<KeyID>, i: nat) {
    i < |cycleList| && Resolvable(s, cycleList, i) && forall j :: i < j < |cycleList| ==> !Resolvable(s, cycleList, j)
  }

  lemma OneLast(s: State, cycleList: seq<KeyID>, i: nat)
    requires LastResolvable(s, cycleList, i)
    ensures forall j: nat :: LastResolvable(s, cycleList, j) ==> j == i
  {
    forall j: nat | LastResolvable(s, cycleList, j) ensures j == i {}
  }

  /** `step` forces the rule at position `i` if it is scanning, and otherwise supplies its prior
      value to the rule before it. */
  ghost predicate Resolves(s: State, cycleList: seq<KeyID>, i: nat, step: Step)
    requires i < |cycleList|
  {
    var k := cycleList[i];
    if Scanning(s, k) then step == DoForceBuild(k)
    else i > 0 && step.DoSupplyPriorValue? && step.rule == k && step.index < |At(s.requestedBy, k)|
         && At(s.requestedBy, k)[step.index].task == Some(cycleList[i - 1])
  }

  /** The search comes to the first rule of the list, which waits and has an earlier result, and looks
      for the rule before it. There is none. */
  ghost predicate PastTheEnd(s: State, cycleList: seq<KeyID>) {
    && cycleList != [] && (forall i :: 0 < i < |cycleList| ==> !Resolvable(s, cycleList, i))
    && !Scanning(s, cycleList[0]) && Waiting(s, cycleList[0]) && Info(s, cycleList[0]).result.builtAt != 0
  }
}
