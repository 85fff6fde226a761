/** Two builds that start alike decide alike: which rules check their dependencies before running, in
    which order the work is done, and whether the engine was reopened in between, makes no
    difference to which rules are run. */
module EngineVerdicts {
  import opened Options
  import opened EngineState
  import opened EngineSteps
  import opened EngineInvariant
  import opened EngineRuns
  import opened EngineTheorems
  import opened CleanBuild
  import opened EngineValues
  import opened EngineValueSteps
  import opened IncrementalBuild
  import opened EngineSince
  import opened EngineDecisions

  // ---- Two builds ----------------------------------------------------------------------------------------

  /** What is known of rule `x` before a build is the same to both engines, except that one of them may
      have checked it more recently; no input of it was computed in between. */
  ghost predicate AlikeAt(s: State, s': State, x: KeyID) {
    var m, m' := Cleaned(Info(s, x).result), Cleaned(Info(s', x).result);
    && m' == m.(builtAt := m'.builtAt) && m'.builtAt <= m.builtAt <= s.epoch && (m.builtAt == 0 <==> m'.builtAt == 0)
    && forall d :: d in m.dependencies && !d.orderOnly ==>
         Info(s, d.key).result.computedAt <= m'.builtAt || m.builtAt < Info(s, d.key).result.computedAt
  }

  ghost predicate Alike(s: State, s': State) {
    s'.epoch == s.epoch && forall x :: AlikeAt(s, s', x)
  }

  /** A rule complete in both builds, with the same value, was computed at the same time. */
  lemma SameComputed(s0: State, s0': State, s: State, s': State, d: KeyID)
    requires AlikeAt(s0, s0', d) && RuleSince(true, s0, s, d) && RuleSince(true, s0', s', d) && s'.epoch == s.epoch
    requires Info(s, d).result.value == Info(s', d).result.value
    ensures Info(s', d).result.computedAt == Info(s, d).result.computedAt
    ensures Info(s, d).result.computedAt == s.epoch || Info(s, d).result.computedAt == Info(s0, d).result.computedAt
  {
    hide WithoutSingleUse;
  }

  lemma NotBothWays(s0: State, s0': State, s: State, s': State, k: KeyID, d: Dependency)
    requires AlikeAt(s0, s0', k) && AlikeAt(s0, s0', d.key) && s.epoch == s'.epoch == s0.epoch + 1
    requires RuleSince(true, s0, s, d.key) && RuleSince(true, s0', s', d.key)
    requires d in Was(s0, k).dependencies && CompleteNow(s, d.key) && CompleteNow(s', d.key)
    requires Info(s, d.key).result.value == Info(s', d.key).result.value
    ensures NewerThan(s, Was(s0, k), d) == NewerThan(s', Was(s0', k), d)
  {
    hide Cleaned, RuleSince;
    SameComputed(s0, s0', s, s', d.key);
  }

  lemma MatchAlike(c: Client, c': Client, s0: State, s0': State, epoch: nat, k: KeyID)
    requires SameButChecks(c, c') && AlikeAt(s0, s0', k)
    ensures Stands(c, epoch, k, Was(s0, k)) == Stands(c', epoch, k, Was(s0', k)) && Was(s0, k).dependencies == Was(s0', k).dependencies
  {
    hide Cleaned;
  }

  /** Two clients that differ only in which rules check dependencies before running, and which. */
  ghost predicate SameButChecks(c: Client, c': Client) {
    c' == c.(checksBefore := c'.checksBefore, mustCheck := c'.mustCheck)
  }

  /** Values that both builds have completed agree. */
  ghost predicate SameValues(s: State, s': State) {
    forall x :: CompleteNow(s, x) && CompleteNow(s', x) ==> Info(s, x).result.value == Info(s', x).result.value
  }

  lemma NeverApart(c: Client, c': Client, s0: State, s0': State, s: State, s': State, k: KeyID)
    requires SameButChecks(c, c') && Alike(s0, s0') && Since(true, s0, s) && Since(true, s0', s') && SameValues(s, s')
    requires s.epoch == s'.epoch == s0.epoch + 1
    ensures !(WasOutOfDate(c, s, k, Was(s0, k)) && WasUpToDate(c', s', k, Was(s0', k)))
    ensures !(WasUpToDate(c, s, k, Was(s0, k)) && WasOutOfDate(c', s', k, Was(s0', k)))
  {
    hide RuleSince, AlikeAt, Was, Stands, CompleteNow;
    MatchAlike(c, c', s0, s0', s.epoch, k);
    forall d | d in Was(s0, k).dependencies && CompleteNow(s, d.key) && CompleteNow(s', d.key)
      ensures NewerThan(s, Was(s0, k), d) == NewerThan(s', Was(s0', k), d)
    {
      SinceAt(true, s0, s, d.key);
      SinceAt(true, s0', s', d.key);
      NotBothWays(s0, s0', s, s', k, d);
    }
  }

  /** The last build of a run, in which neither a cycle nor a change is forced, starts in state `s0`. */
  ghost predicate BuildsFrom(c: Client, b: Behaviour, steps: seq<Step>, n: nat, s0: State) {
    && Legal(c, steps) && Lawful(c, b) && FaithfulRun(c, b, steps)
    && LastBuild(steps, n) && PlainBuild(steps, n) && Legal(c, steps[..n]) && Exec(c, steps[..n]) == s0
  }

  lemma {:induction false} FaithfulPrefix(c: Client, b: Behaviour, steps: seq<Step>, n: nat)
    requires Legal(c, steps) && FaithfulRun(c, b, steps) && n <= |steps|
    ensures Legal(c, steps[..n]) && FaithfulRun(c, b, steps[..n])
    decreases |steps|
  {
    hide Faithful;
    if n < |steps| {
      FaithfulPrefix(c, b, Front(steps), n);
      assert Front(steps)[..n] == steps[..n];
    } else {
      assert steps[..n] == steps;
    }
  }

  /** Where a build that nothing is forced in stands. */
  lemma Standing(c: Client, b: Behaviour, steps: seq<Step>, n: nat, s0: State)
    requires BuildsFrom(c, b, steps, n, s0)
    ensures var s := Exec(c, steps);
      && Between(c, s0) && Since(true, s0, s) && s.epoch == s0.epoch + 1 && s.tidy && !s.broken && !s.cancelled && Between(c, s)
  {
    hide Since, Between, Faithful, Legal, Exec, Lawful, Val, FaithfulRun, Quiet, LastBuild, PlainBuild;
    Started(steps, n);
    BuildSince(c, steps, n);
    RunInvariant(c, steps);
    RunInvariant(c, steps[..n]);
    RunRight(c, b, steps);
    NotCancelled(c, b, steps, n, s0);
    assert Exec(c, steps).building && !Exec(c, steps).cancelled by { SinceMarks(s0, Exec(c, steps)); }
    OpenIsTidy(c, b, Exec(c, steps));
  }

  lemma SinceMarks(s0: State, s: State)
    requires Since(true, s0, s)
    ensures s.building && s.cancelled == s0.cancelled
  {
  }

  lemma NotCancelled(c: Client, b: Behaviour, steps: seq<Step>, n: nat, s0: State)
    requires BuildsFrom(c, b, steps, n, s0)
    ensures !s0.cancelled
  {
    hide Lawful;
    FaithfulPrefix(c, b, steps, n + 1);
    var pre := steps[..n + 1];
    assert Front(pre) == steps[..n] && Last(pre) == steps[n];
    assert Faithful(b, Exec(c, Front(pre)), Last(pre));
  }

  lemma OpenIsTidy(c: Client, b: Behaviour, s: State)
    requires Right(c, b, s) && s.building && !s.cancelled
    ensures s.tidy && !s.broken
  {
    hide Between, Val, Quiet, AgreeOk, StampOk, SkipOk, DoneOk, TasksVal, ReportsOk, DbOk;
    UnpackVal(c, b, s);
  }

  lemma ValuesAgree(c: Client, steps: seq<Step>, n: nat, s0: State, c': Client, steps': seq<Step>, n': nat, s0': State, b: Behaviour)
    requires BuildsFrom(c, b, steps, n, s0) && BuildsFrom(c', b, steps', n', s0') && s0'.epoch == s0.epoch
    ensures SameValues(Exec(c, steps), Exec(c', steps'))
  {
    hide Since, Between, Legal, Exec, Lawful, FaithfulRun, CompleteNow;
    Standing(c, b, steps, n, s0);
    Standing(c', b, steps', n', s0');
    var s, s' := Exec(c, steps), Exec(c', steps');
    forall x | CompleteNow(s, x) && CompleteNow(s', x) ensures Info(s, x).result.value == Info(s', x).result.value {
      HistoryDoesNotMatter(c, steps, c', steps', b, x);
    }
  }

  /** What two builds have decided about `k` does not differ. */
  ghost predicate SameDecision(s: State, s': State, k: KeyID) {
    !(Runs(s, k) && LeavesAlone(s', k)) && !(LeavesAlone(s, k) && Runs(s', k))
  }

  lemma DecisionReason(c: Client, b: Behaviour, steps: seq<Step>, n: nat, s0: State, k: KeyID)
    requires BuildsFrom(c, b, steps, n, s0)
    ensures var s := Exec(c, steps);
      && (Runs(s, k) ==> WasOutOfDate(c, s, k, Was(s0, k)) && WasChecked(c, s, k, Was(s0, k)))
      && (LeavesAlone(s, k) ==> WasUpToDate(c, s, k, Was(s0, k)))
  {
    hide Since, Between, Legal, Exec, Lawful, FaithfulRun, LastBuild, PlainBuild, WasOutOfDate, WasUpToDate, WasChecked, Was, Runs, LeavesAlone;
    Standing(c, b, steps, n, s0);
    var s := Exec(c, steps);
    if Runs(s, k) || LeavesAlone(s, k) {
      assert Runs(s, k) ==> !Info(s, k).wasForced by { NotForced(s0, s, k); }
      Started(steps, n);
      RunIffOutOfDate(c, steps, n, k);
    }
  }

  lemma NotForced(s0: State, s: State, k: KeyID)
    requires Since(true, s0, s) && s.tidy && !s.broken
    ensures Runs(s, k) ==> !Info(s, k).wasForced
  {
    SinceAt(true, s0, s, k);
  }

  /** Two builds that start alike: no rule that one of them runs is left alone by the other. The builds
      may ask for different keys, do their work in different orders, and have got to different
      places. */
  lemma AlikeBuildsDecideAlike(c: Client, steps: seq<Step>, n: nat, s0: State, c': Client, steps': seq<Step>, n': nat, s0': State, b: Behaviour, k: KeyID)
    requires BuildsFrom(c, b, steps, n, s0) && BuildsFrom(c', b, steps', n', s0') && SameButChecks(c, c') && Alike(s0, s0')
    ensures SameDecision(Exec(c, steps), Exec(c', steps'), k)
  {
    hide BuildsFrom, Since, Between, Legal, Exec, SameValues, WasOutOfDate, WasUpToDate, WasChecked, AlikeAt, Was, Runs, LeavesAlone;
    RunsLegal(c, b, steps, n, s0);
    RunsLegal(c', b, steps', n', s0');
    Standing(c, b, steps, n, s0);
    Standing(c', b, steps', n', s0');
    ValuesAgree(c, steps, n, s0, c', steps', n', s0', b);
    DecisionReason(c, b, steps, n, s0, k);
    DecisionReason(c', b, steps', n', s0', k);
    NeverApart(c, c', s0, s0', Exec(c, steps), Exec(c', steps'), k);
  }

  lemma RunsLegal(c: Client, b: Behaviour, steps: seq<Step>, n: nat, s0: State)
    requires BuildsFrom(c, b, steps, n, s0)
    ensures Legal(c, steps)
  {
  }

  lemma AlikeSelf(c: Client, s: State)
    requires Between(c, s)
    ensures Alike(s, s)
  {
    Unpack0(c, s);
    hide Between, Cleaned;
    forall x ensures AlikeAt(s, s, x) { CleanedKeeps(Info(s, x).result); }
  }

  /** Checking dependencies before running changes only timing. Of two builds that start in the same
      state, by clients that differ only in which rules check their dependencies before running, and
      which they check: no rule that one of them runs, or has decided to run, is left alone by the
      other; and where a rule runs, every dependency it wanted checked is complete by then. */
  lemma ChecksOnlyChangeTiming(c: Client, steps: seq<Step>, n: nat, c': Client, steps': seq<Step>, n': nat, s0: State, b: Behaviour, k: KeyID)
    requires BuildsFrom(c, b, steps, n, s0) && BuildsFrom(c', b, steps', n', s0) && SameButChecks(c, c')
    ensures SameDecision(Exec(c, steps), Exec(c', steps'), k)
    ensures Runs(Exec(c, steps), k) ==> WasChecked(c, Exec(c, steps), k, Was(s0, k))
  {
    hide BuildsFrom, Since, Between, Legal, Exec, Alike, SameDecision, WasOutOfDate, WasUpToDate, WasChecked, Was, Runs, LeavesAlone;
    RunsLegal(c, b, steps, n, s0);
    RunsLegal(c', b, steps', n', s0);
    Standing(c, b, steps, n, s0);
    AlikeSelf(c, s0);
    AlikeBuildsDecideAlike(c, steps, n, s0, c', steps', n', s0, b, k);
    DecisionReason(c, b, steps, n, s0, k);
  }

  // ---- A build after the engine is reopened -----------------------------------------------------------------

  lemma ReloadedAt(s: State, x: KeyID)
    requires KnownOk(s) && AgreeOk(s) && SkipOk(s) && StoredOnce(s.db) && TimesOk(s) && !Running(Info(s, x).phase)
    ensures AlikeAt(s, NewEngine(s), x)
  {
    var m := Info(s, x).result;
    if x in s.db {
      assert Agree(m, s.db[x]);
      assert s.db[x].builtAt <= m.builtAt <= s.epoch;
      hide AgreeOk, KnownOk, WithoutSingleUse;
      forall d | d in Cleaned(m).dependencies && !d.orderOnly
        ensures Info(s, d.key).result.computedAt <= s.db[x].builtAt || m.builtAt < Info(s, d.key).result.computedAt
      {
        CleanedIn(m, d);
        assert Apart(s, x, d);
      }
    } else {
      assert Unbuilt(m);
      hide WithoutSingleUse;
      assert Cleaned(NO_RESULT) == NO_RESULT by { NothingToClean(); }
    }
  }

  lemma NothingToClean()
    ensures Cleaned(NO_RESULT) == NO_RESULT
  {
  }

  lemma ReloadedAlike(c: Client, b: Behaviour, steps: seq<Step>)
    requires Legal(c, steps) && Lawful(c, b) && FaithfulRun(c, b, steps)
    requires var s := Exec(c, steps); Quiet(s) && !s.cancelled
    ensures Alike(Exec(c, steps), NewEngine(Exec(c, steps)))
  {
    hide Legal, Exec, Lawful, FaithfulRun, Between, Val, KnownOk, AgreeOk, SkipOk, StoredOnce, TimesOk, Quiet, AlikeAt, Right;
    var s := Exec(c, steps);
    RunRight(c, b, steps);
    RightParts(c, b, s);
    NothingRuns(c, s);
    Unpack0(c, s);
    forall x ensures AlikeAt(s, NewEngine(s), x) { ReloadedAt(s, x); }
  }

  /** Reopening the database between two builds changes no decision of the next one, although the
      database was not written for rules that did not have to run. The two builds need not ask for
      the same key, nor do their work in the same order. */
  lemma ReloadChangesNoDecision(c: Client, pre: seq<Step>, steps: seq<Step>, steps': seq<Step>, b: Behaviour, k: KeyID)
    requires Legal(c, pre) && BuildsFrom(c, b, steps, |pre|, Exec(c, pre)) && pre <= steps
    requires BuildsFrom(c, b, steps', |pre| + 1, NewEngine(Exec(c, pre))) && pre + [DoNewEngine] <= steps'
    ensures SameDecision(Exec(c, steps), Exec(c, steps'), k)
  {
    var s0 := Exec(c, pre);
    NotCancelled(c, b, steps, |pre|, s0);
    FaithfulPrefix(c, b, steps, |pre|);
    assert steps[..|pre|] == pre;
    assert Quiet(s0) by { StartedQuiet(c, steps, |pre|); }
    hide Legal, Exec, Lawful, FaithfulRun, Quiet, Alike, LastBuild, PlainBuild, SameDecision;
    ReloadedAlike(c, b, pre);
    AlikeBuildsDecideAlike(c, steps, |pre|, s0, c, steps', |pre| + 1, NewEngine(s0), b, k);
  }

  lemma StartedQuiet(c: Client, steps: seq<Step>, n: nat)
    requires Legal(c, steps) && n < |steps| && steps[n].DoStartBuild?
    ensures Legal(c, steps[..n]) && Quiet(Exec(c, steps[..n]))
  {
    PrefixLegal(c, steps, n + 1);
    var pre := steps[..n + 1];
    assert Front(pre) == steps[..n] && Last(pre) == steps[n];
    hide Quiet;
  }
}
