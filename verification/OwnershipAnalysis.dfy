/** Which command owns which path (`OwnershipAnalysis`,
    lib/BuildSystem/BuildDescriptionBuilder.cpp:32-166). A node is identified by its name. */
module OwnershipAnalysis {
  import opened Options
  import PathNormalization

  type CommandID = nat

  datatype Command = Command(outputs: seq<string>, isExternalCommand: bool, repairViaOwnershipAnalysis: bool)

  /** A node, with a command that produces or consumes it. */
  datatype Use = Use(node: string, command: CommandID)

  // ---- Paths and directories --------------------------------------------------------------------

  /** The text with which everything in directory `p` begins. */
  function Inside(p: string): string {
    if p != "" && p[|p| - 1] == '/' then p else p + "/"
  }

  predicate Covers(p: string, path: string) {
    Inside(p) <= path
  }

  function Components(path: string): (r: seq<string>)
    ensures r != []
  {
    PathNormalization.Split(path)
  }

  function Joined(segs: seq<string>): string
    requires segs != []
  {
    if |segs| == 1 then segs[0] else segs[0] + "/" + Joined(segs[1..])
  }

  lemma {:induction false} ComponentsOf(a: string, b: string)
    ensures Components(a + "/" + b) == Components(a) + Components(b)
    decreases |a|
  {
    hide PathNormalization.SegmentEnd, PathNormalization.From, PathNormalization.Enter, PathNormalization.Split;
    var n := PathNormalization.SegmentEnd(a);
    var seg := a[..n];
    assert '/' !in seg;
    if n < |a| {
      var more := a[n + 1..];
      assert a == seg + "/" + more;
      FirstComponent(seg, more);
      FirstComponent(seg, more + "/" + b);
      ComponentsOf(more, b);
      assert a + "/" + b == seg + "/" + (more + "/" + b);
    } else {
      assert seg == a;
      FirstComponent(a, b);
      OneComponent(a);
    }
  }

  lemma FirstComponent(seg: string, rest: string)
    requires '/' !in seg
    ensures Components(seg + "/" + rest) == [seg] + Components(rest)
  {
    hide PathNormalization.SegmentEnd, PathNormalization.From, PathNormalization.Split;
    PathNormalization.First([], seg, rest);
  }

  lemma OneComponent(seg: string)
    requires '/' !in seg
    ensures Components(seg) == [seg]
  {
  }

  lemma {:induction false} JoinedComponents(path: string)
    ensures Joined(Components(path)) == path
    decreases |path|
  {
    hide PathNormalization.SegmentEnd, PathNormalization.Split;
    var n := PathNormalization.SegmentEnd(path);
    if n < |path| {
      var seg, more := path[..n], path[n + 1..];
      assert path == seg + "/" + more && '/' !in seg;
      JoinedComponents(more);
      FirstComponent(seg, more);
      assert Components(path)[1..] == Components(more);
    } else {
      assert path[..n] == path;
      OneComponent(path);
    }
  }

  lemma {:induction false} JoinedTogether(a: seq<string>, b: seq<string>)
    requires a != [] && b != []
    ensures Joined(a + b) == Joined(a) + "/" + Joined(b)
    decreases |a|
  {
    assert (a + b)[1..] == a[1..] + b;
    if |a| == 1 {
      assert (a + b)[1..] == b;
    } else {
      JoinedTogether(a[1..], b);
      assert a[0] + "/" + (Joined(a[1..]) + "/" + Joined(b)) == a[0] + "/" + Joined(a[1..]) + "/" + Joined(b);
    }
  }

  /** A path without the slash it ends with. */
  function Bare(p: string): string {
    if p != "" && p[|p| - 1] == '/' then p[..|p| - 1] else p
  }

  /** A directory covers what is below it, component by component: not every path that begins with the
      same text. */
  lemma CoversIff(p: string, path: string)
    ensures Covers(p, path) <==> Components(Bare(p)) < Components(path)
  {
    var q := Bare(p);
    assert Inside(p) == q + "/";
    if Covers(p, path) {
      var b := path[|q| + 1..];
      assert path == q + "/" + b;
      ComponentsOf(q, b);
    }
    if Components(q) < Components(path) {
      var rest := Components(path)[|Components(q)|..];
      assert Components(path) == Components(q) + rest;
      JoinedComponents(path);
      JoinedComponents(q);
      JoinedTogether(Components(q), rest);
    }
  }

  lemma PrefixTrans(a: string, b: string, c: string)
    requires a <= b && b <= c
    ensures a <= c
  {
  }

  /** Of two directories that cover the same path, one covers the other. */
  lemma CoversTogether(p: string, q: string, path: string)
    requires Covers(p, path) && Covers(q, path) && p != q
    ensures Covers(p, q) || Covers(q, p)
  {
    var p', q' := Inside(p), Inside(q);
    if |p'| <= |q'| {
      assert p' <= q' by { assert forall i :: 0 <= i < |p'| ==> p'[i] == path[i] == q'[i]; }
      OneInside(p, q);
    } else {
      assert q' <= p' by { assert forall i :: 0 <= i < |q'| ==> q'[i] == path[i] == p'[i]; }
      OneInside(q, p);
    }
  }

  lemma OneInside(p: string, q: string)
    requires Inside(p) <= Inside(q) && p != q
    ensures Covers(p, q) || Covers(q, p)
  {
    var p', q' := Inside(p), Inside(q);
    if |p'| <= |q| {
      assert q == q'[..|q|];
      assert p' <= q;
    } else {
      assert p' == q' && q' == q + "/";
      SameInside(p, q);
    }
  }

  lemma SameInside(p: string, q: string)
    ensures p + "/" == q + "/" ==> p == q
  {
    assert (p + "/")[..|p|] == p && (q + "/")[..|q|] == q;
  }

  /** Only a longer path is covered by another one. */
  lemma CoveredIsLonger(p: string, q: string)
    requires Covers(p, q)
    ensures p == q || |p| < |q|
  {
    if |q| <= |p| { assert p == q; }
  }

  /** No included path is inside another. */
  ghost predicate Antichain(included: map<string, CommandID>) {
    forall p, q :: p in included && q in included && p != q ==> !Covers(p, q)
  }

  /** So at most one of them covers any given path. */
  lemma OneOwner(included: map<string, CommandID>, p: string, q: string, path: string)
    requires Antichain(included) && p in included && q in included && Covers(p, path) && Covers(q, path)
    ensures p == q
  {
    if p != q {
      CoversTogether(p, q, path);
      assert false;
    }
  }

  /** The owner of `path`, if there is one. */
  ghost predicate Owner(included: map<string, CommandID>, path: string, r: Option<CommandID>) {
    if r.Some? then exists p :: p in included && Covers(p, path) && included[p] == r.value
    else forall p :: p in included ==> !Covers(p, path)
  }

  /** The owner does not depend on the order in which the included paths are searched. */
  lemma OwnerIsUnique(included: map<string, CommandID>, path: string, r: Option<CommandID>, r': Option<CommandID>)
    requires Antichain(included) && Owner(included, path, r) && Owner(included, path, r')
    ensures r == r'
  {
    if r.Some? && r'.Some? {
      var p :| p in included && Covers(p, path) && included[p] == r.value;
      var q :| q in included && Covers(q, path) && included[q] == r'.value;
      OneOwner(included, p, q, path);
    }
  }

  // ---- Sorting ------------------------------------------------------------------------------------

  ghost predicate ByLength(xs: seq<Use>) {
    forall i, j :: 0 <= i < j < |xs| ==> |xs[i].node| <= |xs[j].node|
  }

  lemma Inserted(xs: seq<Use>, x: Use, i: nat)
    requires ByLength(xs) && i <= |xs| && (i > 0 ==> |xs[i - 1].node| <= |x.node|)
    requires forall j :: i <= j < |xs| ==> |x.node| < |xs[j].node|
    ensures ByLength(xs[..i] + [x] + xs[i..])
  {
    var r := xs[..i] + [x] + xs[i..];
    forall j, k | 0 <= j < k < |r| ensures |r[j].node| <= |r[k].node| {
      assert j < i ==> r[j] == xs[j] && |xs[j].node| <= |xs[i - 1].node|;
      assert k > i ==> r[k] == xs[k - 1];
      assert j > i ==> r[j] == xs[j - 1];
    }
  }

  lemma SameParts(xs: seq<Use>, x: Use, i: nat)
    requires i <= |xs|
    ensures multiset(xs[..i] + [x] + xs[i..]) == multiset(xs) + multiset{x}
  {
    assert xs == xs[..i] + xs[i..];
  }

  method Insert(xs: seq<Use>, x: Use) returns (r: seq<Use>)
    requires ByLength(xs)
    ensures ByLength(r) && multiset(r) == multiset(xs) + multiset{x}
  {
    hide ByLength;
    var i := |xs|;
    while i > 0 && |x.node| < |xs[i - 1].node|
      invariant 0 <= i <= |xs| && forall j :: i <= j < |xs| ==> |x.node| < |xs[j].node|
    {
      i := i - 1;
    }
    Inserted(xs, x, i);
    SameParts(xs, x, i);
    r := xs[..i] + [x] + xs[i..];
  }

  /** What `std::sort` promises. */
  method SortByLength(xs: seq<Use>) returns (r: seq<Use>)
    ensures ByLength(r) && multiset(r) == multiset(xs)
  {
    r := [];
    for i := 0 to |xs|
      invariant ByLength(r) && multiset(r) == multiset(xs[..i])
    {
      assert xs[..i + 1] == xs[..i] + [xs[i]];
      r := Insert(r, xs[i]);
    }
    assert xs[..|xs|] == xs;
  }

  // ---- The analysis --------------------------------------------------------------------------------

  predicate Takes(commands: map<CommandID, Command>, c: CommandID) {
    c in commands && commands[c].isExternalCommand && commands[c].repairViaOwnershipAnalysis
  }

  /** Every output that takes part is included, or is inside an included path of the same command. */
  ghost predicate Settled(commands: map<CommandID, Command>, included: map<string, CommandID>, outputs: seq<Use>) {
    forall u :: u in outputs && Takes(commands, u.command) ==>
      u.node in included || exists p :: p in included && Covers(p, u.node) && included[p] == u.command
  }

  /** Included paths are outputs of commands that take part. */
  ghost predicate FromOutputs(commands: map<CommandID, Command>, included: map<string, CommandID>, outputs: seq<Use>) {
    forall p :: p in included ==> Use(p, included[p]) in outputs && Takes(commands, included[p])
  }

  /** Excluded paths are exactly the outputs of commands that take no part. */
  ghost predicate Excluding(commands: map<CommandID, Command>, excluded: map<string, CommandID>, outputs: seq<Use>) {
    && (forall p :: p in excluded ==> Use(p, excluded[p]) in outputs && !Takes(commands, excluded[p]))
    && (forall u :: u in outputs && !Takes(commands, u.command) ==> u.node in excluded)
  }

  lemma ExcludingNext(commands: map<CommandID, Command>, excluded: map<string, CommandID>, outputs: seq<Use>, n: nat)
    requires n < |outputs| && Excluding(commands, excluded, outputs[..n])
    ensures var u := outputs[n];
      Excluding(commands, if Takes(commands, u.command) then excluded else excluded[u.node := u.command], outputs[..n + 1])
  {
    hide Takes;
    assert outputs[..n + 1] == outputs[..n] + [outputs[n]];
  }

  /** A command produces something inside a path that another command owns. */
  ghost predicate Conflict(commands: map<CommandID, Command>, outputs: seq<Use>) {
    exists u, v :: u in outputs && v in outputs && u.command != v.command && Takes(commands, u.command) && Takes(commands, v.command)
      && Covers(u.node, v.node)
  }

  /** No two commands produce the same node. */
  ghost predicate OneProducer(outputs: seq<Use>) {
    forall u, v :: u in outputs && v in outputs && u.node == v.node ==> u.command == v.command
  }

  /** The included path of its own command that a settled output is, or is inside. */
  lemma Home(commands: map<CommandID, Command>, included: map<string, CommandID>, outputs: seq<Use>, u: Use) returns (p: string)
    requires FromOutputs(commands, included, outputs) && Settled(commands, included, outputs) && OneProducer(outputs)
    requires u in outputs && Takes(commands, u.command)
    ensures p in included && included[p] == u.command && (p == u.node || Covers(p, u.node))
  {
    hide Covers, Takes;
    if u.node in included {
      p := u.node;
    } else {
      p :| p in included && Covers(p, u.node) && included[p] == u.command;
    }
  }

  lemma CoversTrans(p: string, q: string, path: string)
    requires (p == q || Covers(p, q)) && Covers(q, path)
    ensures Covers(p, path)
  {
    if p != q { PrefixTrans(Inside(p), q, path); }
  }

  /** When each node has one producer, success means that there is no conflict. */
  lemma NoConflict(commands: map<CommandID, Command>, included: map<string, CommandID>, outputs: seq<Use>, u: Use, v: Use)
    requires Antichain(included) && FromOutputs(commands, included, outputs) && Settled(commands, included, outputs) && OneProducer(outputs)
    requires u in outputs && v in outputs && Takes(commands, u.command) && Takes(commands, v.command) && Covers(u.node, v.node)
    ensures u.command == v.command
  {
    var p := Home(commands, included, outputs, u);
    var q := Home(commands, included, outputs, v);
    CoversTrans(p, u.node, v.node);
    hide Covers, Takes, FromOutputs, Settled, OneProducer;
    if q == v.node {
      assert p == q by { InsideItself(included, p, q); }
    } else {
      OneOwner(included, p, q, v.node);
    }
  }

  lemma NoConflicts(commands: map<CommandID, Command>, included: map<string, CommandID>, outputs: seq<Use>)
    requires Antichain(included) && FromOutputs(commands, included, outputs) && Settled(commands, included, outputs)
    ensures OneProducer(outputs) ==> !Conflict(commands, outputs)
  {
    hide Covers, Takes, FromOutputs, Settled, OneProducer, Antichain;
    if OneProducer(outputs) {
      forall u, v | u in outputs && v in outputs && Takes(commands, u.command) && Takes(commands, v.command) && Covers(u.node, v.node)
        ensures u.command == v.command
      {
        NoConflict(commands, included, outputs, u, v);
      }
    }
  }

  lemma InsideItself(included: map<string, CommandID>, p: string, q: string)
    requires Antichain(included) && p in included && q in included && Covers(p, q)
    ensures p == q
  {
  }

  /** The next output joins the included paths. Longer paths have not been seen yet. */
  lemma Include(included: map<string, CommandID>, u: Use)
    requires Antichain(included) && Owner(included, u.node, None)
    requires forall p :: p in included ==> |p| <= |u.node|
    ensures Antichain(included[u.node := u.command])
  {
    forall p | p in included && p != u.node ensures !Covers(p, u.node) && !Covers(u.node, p) {
      if Covers(u.node, p) { CoveredIsLonger(u.node, p); }
    }
  }

  class Analysis {
    var commands: map<CommandID, Command>
    var includedPaths: map<string, CommandID>
    var excludedPaths: map<string, CommandID>
    var outputNodesAndCommands: seq<Use>
    var directoryInputNodesAndCommands: seq<Use>

    constructor (cs: map<CommandID, Command>, outputs: seq<Use>, directoryInputs: seq<Use>)
      ensures commands == cs && includedPaths == map[] && excludedPaths == map[]
      ensures ByLength(outputNodesAndCommands) && multiset(outputNodesAndCommands) == multiset(outputs)
      ensures directoryInputNodesAndCommands == directoryInputs
    {
      var sorted := SortByLength(outputs);
      commands, includedPaths, excludedPaths := cs, map[], map[];
      outputNodesAndCommands, directoryInputNodesAndCommands := sorted, directoryInputs;
    }

    /** `includedOwnerOf`: searches the included paths in any order. */
    method IncludedOwnerOf(path: string) returns (r: Option<CommandID>)
      ensures Owner(includedPaths, path, r)
    {
      var todo := includedPaths.Keys;
      while exists p :: p in todo
        invariant todo <= includedPaths.Keys && forall p :: p in includedPaths && p !in todo ==> !Covers(p, path)
        decreases todo
      {
        var p :| p in todo;
        if Covers(p, path) { return Some(includedPaths[p]); }
        todo := todo - {p};
      }
      r := None;
    }

    /** `establishOwnerships`: on success the included paths form an antichain, and every output
        that takes part is accounted for. It fails only if there is a conflict. */
    method EstablishOwnerships() returns (ok: bool)
      requires ByLength(outputNodesAndCommands) && includedPaths == map[] && excludedPaths == map[]
      modifies this`includedPaths, this`excludedPaths
      ensures Antichain(includedPaths) && FromOutputs(commands, includedPaths, outputNodesAndCommands)
      ensures ok ==> Settled(commands, includedPaths, outputNodesAndCommands) && Excluding(commands, excludedPaths, outputNodesAndCommands)
      ensures !ok ==> Conflict(commands, outputNodesAndCommands)
      ensures OneProducer(outputNodesAndCommands) ==> (ok <==> !Conflict(commands, outputNodesAndCommands))
    {
      hide Antichain, Owner, Covers, Settled, FromOutputs, Takes, Conflict, Excluding;
      assert Excluding(commands, map[], []) by { NothingExcluded(commands); }
      NothingIncluded(commands, outputNodesAndCommands);
      for i := 0 to |outputNodesAndCommands|
        invariant Sofar(commands, includedPaths, outputNodesAndCommands, i)
        invariant Excluding(commands, excludedPaths, outputNodesAndCommands[..i])
      {
        var u := outputNodesAndCommands[i];
        ExcludingNext(commands, excludedPaths, outputNodesAndCommands, i);
        if Takes(commands, u.command) {
          var owner := IncludedOwnerOf(u.node);
          if owner.None? {
            IncludeNext(commands, includedPaths, outputNodesAndCommands, i);
            includedPaths := includedPaths[u.node := u.command];
          } else if owner.value == u.command {
            CoverNext(commands, includedPaths, outputNodesAndCommands, i);
          } else {
            FoundConflict(commands, includedPaths, outputNodesAndCommands, i, owner.value);
            return false;
          }
        } else {
          ExcludeNext(commands, includedPaths, outputNodesAndCommands, i);
          excludedPaths := excludedPaths[u.node := u.command];
        }
      }
      assert outputNodesAndCommands[..|outputNodesAndCommands|] == outputNodesAndCommands;
      NoConflicts(commands, includedPaths, outputNodesAndCommands);
      ok := true;
    }

    /** `amendOutputOfOwnersWithConsumedSubpaths`: each command gets as further outputs exactly the
        directory inputs inside the included paths it owns, once each, in the order in which they are
        first asked for, except those it had before. Nothing else about the commands changes. */
    method AmendOutputs()
      requires Antichain(includedPaths) && FromOutputs(commands, includedPaths, outputNodesAndCommands)
      modifies this`commands
      ensures Amended(old(commands), commands, includedPaths, directoryInputNodesAndCommands)
    {
      hide Covers, Antichain, Owner, Amended;
      NothingToAmend(commands, includedPaths);
      for i := 0 to |directoryInputNodesAndCommands|
        invariant FromOutputs(commands, includedPaths, outputNodesAndCommands)
        invariant Amended(old(commands), commands, includedPaths, directoryInputNodesAndCommands[..i])
      {
        var d := directoryInputNodesAndCommands[i];
        assert directoryInputNodesAndCommands[..i + 1] == directoryInputNodesAndCommands[..i] + [d];
        var owner := IncludedOwnerOf(d.node);
        ghost var before := commands;
        if owner.Some? {
          var id := owner.value;
          assert Takes(commands, id) by { OwnerTakes(commands, includedPaths, outputNodesAndCommands, d.node, id); }
          var c := commands[id];
          if d.node !in c.outputs && c.repairViaOwnershipAnalysis {
            commands := commands[id := c.(outputs := c.outputs + [d.node])];
          }
        }
        AmendNext(old(commands), before, commands, includedPaths, directoryInputNodesAndCommands[..i], d, owner);
      }
      assert directoryInputNodesAndCommands[..|directoryInputNodesAndCommands|] == directoryInputNodesAndCommands;
    }
  }

  /** `node` is one of `ds`, inside an included path that command `c` owns. */
  ghost predicate Consumed(included: map<string, CommandID>, ds: seq<Use>, c: CommandID, node: string) {
    Asked(ds, node) && Owner(included, node, Some(c))
  }

  ghost predicate Asked(ds: seq<Use>, node: string) {
    exists d :: d in ds && d.node == node
  }

  /** `a` is asked for when `b` has not been. */
  ghost predicate AskedFirst(ds: seq<Use>, a: string, b: string) {
    exists n :: 0 <= n <= |ds| && Asked(ds[..n], a) && !Asked(ds[..n], b)
  }

  /** In the order in which they are first asked for; so that none appears twice. */
  ghost predicate AsFirstAsked(nodes: seq<string>, ds: seq<Use>) {
    forall i, j :: 0 <= i < j < |nodes| ==> AskedFirst(ds, nodes[i], nodes[j])
  }

  /** What the outputs of command `c` are after `ds`, where they were `before`. */
  ghost predicate OutputsAmended(before: seq<string>, now: seq<string>, included: map<string, CommandID>, ds: seq<Use>, c: CommandID) {
    && before <= now && AsFirstAsked(now[|before|..], ds)
    && forall node :: node in now[|before|..] <==> Consumed(included, ds, c, node) && node !in before
  }

  ghost predicate Amended(cs: map<CommandID, Command>, cs': map<CommandID, Command>, included: map<string, CommandID>, ds: seq<Use>) {
    && cs'.Keys == cs.Keys
    && forall c :: c in cs ==> cs'[c] == cs[c].(outputs := cs'[c].outputs) && OutputsAmended(cs[c].outputs, cs'[c].outputs, included, ds, c)
  }

  lemma NothingToAmend(commands: map<CommandID, Command>, included: map<string, CommandID>)
    ensures Amended(commands, commands, included, [])
  {
  }

  lemma AskedMore(ds: seq<Use>, d: Use, node: string)
    ensures Asked(ds + [d], node) <==> Asked(ds, node) || node == d.node
  {
    if node == d.node { assert d in ds + [d]; }
  }

  lemma AskedFirstMore(ds: seq<Use>, d: Use, a: string, b: string)
    requires AskedFirst(ds, a, b)
    ensures AskedFirst(ds + [d], a, b)
  {
    hide Asked;
    var n :| 0 <= n <= |ds| && Asked(ds[..n], a) && !Asked(ds[..n], b);
    assert (ds + [d])[..n] == ds[..n];
  }

  lemma FirstAskedMore(nodes: seq<string>, ds: seq<Use>, d: Use)
    requires AsFirstAsked(nodes, ds)
    ensures AsFirstAsked(nodes, ds + [d])
  {
    hide AskedFirst;
    forall i, j | 0 <= i < j < |nodes| ensures AskedFirst(ds + [d], nodes[i], nodes[j]) { AskedFirstMore(ds, d, nodes[i], nodes[j]); }
  }

  lemma LastAsked(ds: seq<Use>, d: Use, a: string)
    requires Asked(ds, a) && !Asked(ds, d.node)
    ensures AskedFirst(ds + [d], a, d.node)
  {
    hide Asked;
    assert (ds + [d])[..|ds|] == ds;
  }

  lemma FirstAskedLast(nodes: seq<string>, ds: seq<Use>, d: Use)
    requires AsFirstAsked(nodes, ds) && (forall node :: node in nodes ==> Asked(ds, node)) && !Asked(ds, d.node)
    ensures AsFirstAsked(nodes + [d.node], ds + [d])
  {
    hide Asked, AskedFirst;
    var more := nodes + [d.node];
    FirstAskedMore(nodes, ds, d);
    forall i, j | 0 <= i < j < |more| ensures AskedFirst(ds + [d], more[i], more[j]) {
      if j == |nodes| { LastAsked(ds, d, nodes[i]); }
    }
  }

  /** Another directory input, which `c` does not own or has already. */
  lemma OutputsStay(before: seq<string>, now: seq<string>, included: map<string, CommandID>, ds: seq<Use>, d: Use, c: CommandID)
    requires OutputsAmended(before, now, included, ds, c) && (Owner(included, d.node, Some(c)) ==> d.node in now)
    ensures OutputsAmended(before, now, included, ds + [d], c)
  {
    hide Asked, Owner, AsFirstAsked;
    FirstAskedMore(now[|before|..], ds, d);
    assert now == before + now[|before|..];
    forall node ensures Consumed(included, ds + [d], c, node) && node !in before <==> Consumed(included, ds, c, node) && node !in before {
      AskedMore(ds, d, node);
    }
  }

  lemma OutputsGrow(before: seq<string>, now: seq<string>, included: map<string, CommandID>, ds: seq<Use>, d: Use, c: CommandID)
    requires OutputsAmended(before, now, included, ds, c) && Owner(included, d.node, Some(c)) && d.node !in now
    ensures OutputsAmended(before, now + [d.node], included, ds + [d], c)
  {
    hide Asked, Owner, AsFirstAsked;
    var more := now[|before|..];
    assert now == before + more && (now + [d.node])[|before|..] == more + [d.node];
    assert !Asked(ds, d.node) && forall node :: node in more ==> Asked(ds, node);
    FirstAskedLast(more, ds, d);
    forall node ensures Consumed(included, ds + [d], c, node) && node !in before <==> (Consumed(included, ds, c, node) && node !in before) || node == d.node {
      AskedMore(ds, d, node);
    }
  }

  lemma OwnerTakes(commands: map<CommandID, Command>, included: map<string, CommandID>, outputs: seq<Use>, path: string, id: CommandID)
    requires FromOutputs(commands, included, outputs) && Owner(included, path, Some(id))
    ensures Takes(commands, id)
  {
    hide Covers, Takes;
  }

  lemma AmendNext(cs: map<CommandID, Command>, now: map<CommandID, Command>, now': map<CommandID, Command>,
                  included: map<string, CommandID>, ds: seq<Use>, d: Use, owner: Option<CommandID>)
    requires Antichain(included) && Amended(cs, now, included, ds) && Owner(included, d.node, owner)
    requires owner.Some? ==> owner.value in now
    requires now' == if owner.Some? && d.node !in now[owner.value].outputs
      then now[owner.value := now[owner.value].(outputs := now[owner.value].outputs + [d.node])] else now
    ensures Amended(cs, now', included, ds + [d])
  {
    hide Owner, Antichain, OutputsAmended;
    forall c | c in cs ensures OutputsAmended(cs[c].outputs, now'[c].outputs, included, ds + [d], c) {
      assert Owner(included, d.node, Some(c)) ==> owner == Some(c) by {
        if Owner(included, d.node, Some(c)) { OwnerIsUnique(included, d.node, owner, Some(c)); }
      }
      if owner == Some(c) && d.node !in now[c].outputs {
        OutputsGrow(cs[c].outputs, now[c].outputs, included, ds, d, c);
      } else {
        OutputsStay(cs[c].outputs, now[c].outputs, included, ds, d, c);
      }
    }
  }

  // ---- The loop of establishOwnerships, one output at a time ---------------------------------------

  ghost predicate Sofar(commands: map<CommandID, Command>, included: map<string, CommandID>, outputs: seq<Use>, n: nat)
    requires n <= |outputs|
  {
    && ByLength(outputs) && Antichain(included) && FromOutputs(commands, included, outputs)
    && Settled(commands, included, outputs[..n])
    && forall p :: p in included ==> exists j :: 0 <= j < n && outputs[j].node == p
  }

  lemma NothingExcluded(commands: map<CommandID, Command>)
    ensures Excluding(commands, map[], [])
  {
  }

  lemma NothingIncluded(commands: map<CommandID, Command>, outputs: seq<Use>)
    requires ByLength(outputs)
    ensures Sofar(commands, map[], outputs, 0)
  {
  }

  lemma NotLonger(commands: map<CommandID, Command>, included: map<string, CommandID>, outputs: seq<Use>, n: nat)
    requires n < |outputs| && Sofar(commands, included, outputs, n)
    ensures forall p :: p in included ==> |p| <= |outputs[n].node|
    ensures forall v :: v in outputs[..n] ==> |v.node| <= |outputs[n].node|
    ensures outputs[..n + 1] == outputs[..n] + [outputs[n]] && outputs[n] in outputs
  {
    hide Antichain, Settled, FromOutputs;
  }

  lemma SettleMore(commands: map<CommandID, Command>, included: map<string, CommandID>, outputs: seq<Use>, u: Use)
    requires Settled(commands, included, outputs) && forall v :: v in outputs ==> |v.node| <= |u.node|
    ensures Settled(commands, included[u.node := u.command], outputs + [u])
  {
    hide Covers, Takes;
    var included' := included[u.node := u.command];
    forall v | v in outputs + [u] && Takes(commands, v.command)
      ensures v.node in included' || exists p :: p in included' && Covers(p, v.node) && included'[p] == v.command
    {
      if v.node !in included' {
        assert v in outputs;
        var p :| p in included && Covers(p, v.node) && included[p] == v.command;
        CoveredIsLonger(p, v.node);
        assert p in included' && Covers(p, v.node) && included'[p] == v.command;
      }
    }
  }

  lemma IncludeNext(commands: map<CommandID, Command>, included: map<string, CommandID>, outputs: seq<Use>, n: nat)
    requires n < |outputs| && Sofar(commands, included, outputs, n)
    requires Takes(commands, outputs[n].command) && Owner(included, outputs[n].node, None)
    ensures Sofar(commands, included[outputs[n].node := outputs[n].command], outputs, n + 1)
  {
    hide Owner, Covers, Takes, Antichain, Settled;
    var u := outputs[n];
    NotLonger(commands, included, outputs, n);
    Include(included, u);
    SettleMore(commands, included, outputs[..n], u);
  }

  lemma CoverNext(commands: map<CommandID, Command>, included: map<string, CommandID>, outputs: seq<Use>, n: nat)
    requires n < |outputs| && Sofar(commands, included, outputs, n) && Owner(included, outputs[n].node, Some(outputs[n].command))
    ensures Sofar(commands, included, outputs, n + 1)
  {
    hide Covers, Takes, Antichain, FromOutputs;
    NotLonger(commands, included, outputs, n);
  }

  lemma ExcludeNext(commands: map<CommandID, Command>, included: map<string, CommandID>, outputs: seq<Use>, n: nat)
    requires n < |outputs| && Sofar(commands, included, outputs, n) && !Takes(commands, outputs[n].command)
    ensures Sofar(commands, included, outputs, n + 1)
  {
    hide Covers, Takes, Antichain, FromOutputs;
    NotLonger(commands, included, outputs, n);
  }

  lemma FoundConflict(commands: map<CommandID, Command>, included: map<string, CommandID>, outputs: seq<Use>, n: nat, owner: CommandID)
    requires n < |outputs| && Sofar(commands, included, outputs, n) && Takes(commands, outputs[n].command)
    requires Owner(included, outputs[n].node, Some(owner)) && owner != outputs[n].command
    ensures Conflict(commands, outputs)
  {
    hide Covers, Takes, Antichain, Settled;
    var p :| p in included && Covers(p, outputs[n].node) && included[p] == owner;
    assert Use(p, owner) in outputs && outputs[n] in outputs;
  }
}
