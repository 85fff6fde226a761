/** What a build from scratch gives: a reference the engine is compared with, in which there are no
    timestamps, no database and no order of work. */
module CleanBuild {
  import opened Options
  import opened EngineState
  import opened EngineSteps

  /** What the rules compute. In an epoch, a rule that has seen the values `m` wants the inputs
      `wants(epoch, rule, m)`, and when it has seen all it wants its value is `out(epoch, rule, m)`.
      Inputs may be wanted because of the values of earlier ones. */
  datatype Behaviour = Behaviour(
    wants: (nat, KeyID, map<KeyID, Value>) -> set<KeyID>,
    out: (nat, KeyID, map<KeyID, Value>) -> Value)

  ghost predicate Extends(m: map<KeyID, Value>, m': map<KeyID, Value>) {
    forall k :: k in m ==> k in m' && m'[k] == m[k]
  }

  /** A rule that has seen more does not want less. */
  ghost predicate Monotone(b: Behaviour) {
    forall e, k, m, m' :: Extends(m, m') ==> b.wants(e, k, m) <= b.wants(e, k, m')
  }

  function MapOf(trace: seq<Delivery>): map<KeyID, Value> {
    if trace == [] then map[] else MapOf(Front(trace))[Last(trace).key := Last(trace).value]
  }

  /** Each value was wanted because of the ones before it. */
  ghost predicate WantedInOrder(b: Behaviour, e: nat, k: KeyID, trace: seq<Delivery>) {
    forall i :: 0 <= i < |trace| ==> trace[i].key in b.wants(e, k, MapOf(trace[..i]))
  }

  /** Everything wanted has been seen. */
  ghost predicate Closed(b: Behaviour, e: nat, k: KeyID, trace: seq<Delivery>) {
    b.wants(e, k, MapOf(trace)) <= MapOf(trace).Keys
  }

  /** `trace` is a complete run of rule `k`, and `v` what it computes. */
  ghost predicate Computes(b: Behaviour, e: nat, k: KeyID, trace: seq<Delivery>, v: Value) {
    WantedInOrder(b, e, k, trace) && Closed(b, e, k, trace) && v == b.out(e, k, MapOf(trace))
  }

  /** Recursive evaluation from scratch, at most `n` levels deep, gives `k` the value `v`. */
  ghost predicate CleanAt(b: Behaviour, e: nat, k: KeyID, v: Value, n: nat)
    decreases n
  {
    n > 0 && exists trace: seq<Delivery> :: Computes(b, e, k, trace, v) && forall u :: u in trace ==> CleanAt(b, e, u.key, u.value, n - 1)
  }

  /** A build from scratch gives `k` the value `v`. */
  ghost predicate Clean(b: Behaviour, e: nat, k: KeyID, v: Value) {
    exists n :: CleanAt(b, e, k, v, n)
  }

  // ---- The map of a trace ------------------------------------------------------------------------

  lemma {:induction false} MapHas(trace: seq<Delivery>, k: KeyID)
    ensures k in MapOf(trace) <==> exists u :: u in trace && u.key == k
    ensures k in MapOf(trace) ==> Delivery(k, MapOf(trace)[k]) in trace
  {
    if trace != [] {
      MapHas(Front(trace), k);
      assert trace == Front(trace) + [Last(trace)];
    }
  }

  lemma MapPush(trace: seq<Delivery>, u: Delivery)
    ensures MapOf(trace + [u]) == MapOf(trace)[u.key := u.value]
  {
    assert Front(trace + [u]) == trace;
  }

  /** No key has two values. */
  ghost predicate Consistent(trace: seq<Delivery>) {
    forall u, u' :: u in trace && u' in trace && u.key == u'.key ==> u.value == u'.value
  }

  lemma PrefixExtends(trace: seq<Delivery>, i: nat)
    requires i <= |trace| && Consistent(trace)
    ensures Extends(MapOf(trace[..i]), MapOf(trace))
  {
    forall k | k in MapOf(trace[..i]) ensures k in MapOf(trace) && MapOf(trace)[k] == MapOf(trace[..i])[k] {
      MapHas(trace[..i], k);
      MapHas(trace, k);
      assert Delivery(k, MapOf(trace[..i])[k]) in trace;
    }
  }

  // ---- A clean build has one result ----------------------------------------------------------------

  ghost predicate AllCleanAt(b: Behaviour, e: nat, trace: seq<Delivery>, n: nat) {
    forall u :: u in trace ==> CleanAt(b, e, u.key, u.value, n)
  }

  lemma {:induction false} Deeper(b: Behaviour, e: nat, k: KeyID, v: Value, n: nat, n': nat)
    requires CleanAt(b, e, k, v, n) && n <= n'
    ensures CleanAt(b, e, k, v, n')
    decreases n
  {
    hide Computes;
    var trace: seq<Delivery> :| Computes(b, e, k, trace, v) && forall u :: u in trace ==> CleanAt(b, e, u.key, u.value, n - 1);
    forall u | u in trace ensures CleanAt(b, e, u.key, u.value, n' - 1) { Deeper(b, e, u.key, u.value, n - 1, n' - 1); }
  }

  /** One complete run of a rule sees no more than another. */
  lemma {:induction false} Contained(b: Behaviour, e: nat, k: KeyID, t: seq<Delivery>, t': seq<Delivery>, i: nat)
    requires Monotone(b) && i <= |t| && WantedInOrder(b, e, k, t) && Closed(b, e, k, t') && SameWhereBoth(t, t')
    ensures Extends(MapOf(t[..i]), MapOf(t'))
    decreases i
  {
    hide Monotone, WantedInOrder, Closed, SameWhereBoth;
    if i == 0 {
      assert t[..0] == [];
    } else {
      hide MapOf, Extends;
      Contained(b, e, k, t, t', i - 1);
      assert t[..i] == t[..i - 1] + [t[i - 1]];
      MapPush(t[..i - 1], t[i - 1]);
      AlsoSeen(b, e, k, t, t', i - 1);
      ExtendsMore(MapOf(t[..i - 1]), MapOf(t'), t[i - 1]);
    }
  }

  /** No key has one value in one run and another value in the other. */
  ghost predicate SameWhereBoth(t: seq<Delivery>, t': seq<Delivery>) {
    forall u, u' :: u in t && u' in t' && u.key == u'.key ==> u.value == u'.value
  }

  lemma AlsoSeen(b: Behaviour, e: nat, k: KeyID, t: seq<Delivery>, t': seq<Delivery>, i: nat)
    requires Monotone(b) && i < |t| && WantedInOrder(b, e, k, t) && Closed(b, e, k, t') && SameWhereBoth(t, t')
    requires Extends(MapOf(t[..i]), MapOf(t'))
    ensures t[i].key in MapOf(t') && MapOf(t')[t[i].key] == t[i].value
  {
    hide Monotone, MapOf, Extends;
    var x := t[i].key;
    assert x in b.wants(e, k, MapOf(t[..i]));
    WantsMore(b, e, k, MapOf(t[..i]), MapOf(t'), x);
    MapHas(t', x);
    assert t[i] in t && Delivery(x, MapOf(t')[x]) in t';
  }

  lemma WantsMore(b: Behaviour, e: nat, k: KeyID, m: map<KeyID, Value>, m': map<KeyID, Value>, x: KeyID)
    requires Monotone(b) && Extends(m, m') && x in b.wants(e, k, m)
    ensures x in b.wants(e, k, m')
  {
    hide Extends;
    assert b.wants(e, k, m) <= b.wants(e, k, m');
  }

  lemma ExtendsMore(m: map<KeyID, Value>, m': map<KeyID, Value>, u: Delivery)
    requires Extends(m, m') && u.key in m' && m'[u.key] == u.value
    ensures Extends(m[u.key := u.value], m')
  {
  }

  lemma Same(m: map<KeyID, Value>, m': map<KeyID, Value>)
    requires Extends(m, m') && Extends(m', m)
    ensures m == m'
  {
    forall k ensures k in m <==> k in m' {}
    forall k ensures k in m.Keys <==> k in m'.Keys { assert k in m <==> k in m'; }
    assert m.Keys == m'.Keys;
    forall k | k in m.Keys ensures m[k] == m'[k] { assert k in m; }
  }

  lemma Unfold(b: Behaviour, e: nat, k: KeyID, v: Value, n: nat) returns (t: seq<Delivery>)
    requires CleanAt(b, e, k, v, n)
    ensures n > 0 && Computes(b, e, k, t, v) && AllCleanAt(b, e, t, n - 1)
  {
    hide Computes;
    t :| Computes(b, e, k, t, v) && forall u :: u in t ==> CleanAt(b, e, u.key, u.value, n - 1);
  }

  /** Recursive evaluation is a function: a rule has at most one clean value. */
  lemma {:induction false} CleanUnique(b: Behaviour, e: nat, k: KeyID, v: Value, n: nat, v': Value, n': nat)
    requires Monotone(b) && CleanAt(b, e, k, v, n) && CleanAt(b, e, k, v', n')
    ensures v == v'
    decreases n
  {
    var t := Unfold(b, e, k, v, n);
    var t' := Unfold(b, e, k, v', n');
    hide WantedInOrder, Closed, CleanAt, Monotone, Extends;
    forall u, u' | u in t && u' in t' && u.key == u'.key ensures u.value == u'.value {
      CleanUnique(b, e, u.key, u.value, n - 1, u'.value, n' - 1);
    }
    Contained(b, e, k, t, t', |t|);
    Contained(b, e, k, t', t, |t'|);
    assert t[..|t|] == t && t'[..|t'|] == t';
    Same(MapOf(t), MapOf(t'));
  }

  lemma OneClean(b: Behaviour, e: nat, k: KeyID, v: Value, v': Value)
    requires Monotone(b) && Clean(b, e, k, v) && Clean(b, e, k, v')
    ensures v == v'
  {
    hide CleanAt;
    var n :| CleanAt(b, e, k, v, n);
    var n' :| CleanAt(b, e, k, v', n');
    CleanUnique(b, e, k, v, n, v', n');
  }

  // ---- Building up clean values -------------------------------------------------------------------

  ghost predicate AllClean(b: Behaviour, e: nat, trace: seq<Delivery>) {
    forall u :: u in trace ==> Clean(b, e, u.key, u.value)
  }

  lemma {:induction false} CommonDepth(b: Behaviour, e: nat, trace: seq<Delivery>) returns (n: nat)
    requires AllClean(b, e, trace)
    ensures AllCleanAt(b, e, trace, n)
  {
    hide CleanAt;
    if trace == [] {
      n := 0;
    } else {
      var u := Last(trace);
      var m := CommonDepth(b, e, Front(trace));
      assert u in trace;
      var m' :| CleanAt(b, e, u.key, u.value, m');
      n := m + m';
      forall w | w in trace ensures CleanAt(b, e, w.key, w.value, n) {
        if w in Front(trace) { Deeper(b, e, w.key, w.value, m, n); } else { Deeper(b, e, u.key, u.value, m', n); }
      }
    }
  }

  /** A complete run on clean inputs gives a clean value. */
  lemma CleanFrom(b: Behaviour, e: nat, k: KeyID, trace: seq<Delivery>, v: Value)
    requires Computes(b, e, k, trace, v) && AllClean(b, e, trace)
    ensures Clean(b, e, k, v)
  {
    hide Computes;
    var n := CommonDepth(b, e, trace);
    assert CleanAt(b, e, k, v, n + 1);
  }

  lemma CleanConsistent(b: Behaviour, e: nat, trace: seq<Delivery>)
    requires Monotone(b) && AllClean(b, e, trace)
    ensures Consistent(trace)
  {
    hide Clean, Monotone;
    forall u, u' | u in trace && u' in trace && u.key == u'.key ensures u.value == u'.value {
      OneClean(b, e, u.key, u.value, u'.value);
    }
  }

  // ---- Clients ------------------------------------------------------------------------------------

  /** What a task asks for by value, it wants; and it does not ask for it as a single-use input. */
  ghost predicate Wanted(b: Behaviour, e: nat, k: KeyID, m: map<KeyID, Value>, asks: seq<Dependency>) {
    forall d :: d in asks && !d.orderOnly ==> !d.singleUse && d.key in b.wants(e, k, m)
  }

  /** The client's tasks ask for what their rules want. */
  ghost predicate Follows(c: Client, b: Behaviour) {
    && (forall e, k :: Wanted(b, e, k, map[], c.onStart(e, k)))
    && (forall e, k, got :: Wanted(b, e, k, MapOf(got), c.onValue(e, k, got)))
  }

  /** Whatever changes between epochs shows in the signature of a rule or in the validity of its
      result: where neither has changed, a run from before is a run now. */
  ghost predicate Detects(c: Client, b: Behaviour) {
    forall e, e', k, trace, v ::
      Computes(b, e, k, trace, v) && e <= e' && c.signature(e', k) == c.signature(e, k) && c.isResultValid(e', k, v) ==>
        Computes(b, e', k, trace, v)
  }
}
