/** Counting the requests of a task, and the scan requests of a rule, over every place the
    engine keeps them. */
module EngineCounts {
  import opened Options
  import opened EngineState

  /** The numbers 0 to n - 1, once each. */
  ghost function Below(n: nat): multiset<nat> {
    if n == 0 then multiset{} else Below(n - 1) + multiset{n - 1}
  }

  lemma BelowCount(n: nat, i: nat)
    ensures Below(n)[i] == if i < n then 1 else 0
  {
    if n > 0 { BelowCount(n - 1, i); }
  }

  /** The numbers n to n + k - 1, once each. */
  ghost function From(n: nat, k: nat): multiset<nat> {
    if k == 0 then multiset{} else From(n, k - 1) + multiset{n + k - 1}
  }

  lemma FromOne(n: nat, k: nat)
    requires k > 0
    ensures From(n, k) == From(n, k - 1) + multiset{n + k - 1} && Below(n + k) == Below(n + k - 1) + multiset{n + k - 1}
  {
  }

  lemma MoreByOne(a: multiset<nat>, b: multiset<nat>, x: nat)
    ensures (a + b) + multiset{x} == a + (b + multiset{x}) && |b + multiset{x}| == |b| + 1
  {
  }

  lemma FromNone(n: nat)
    ensures From(n, 0) == multiset{} && Below(n) + From(n, 0) == Below(n)
  {
    hide Below;
  }

  lemma {:induction false} BelowFrom(n: nat, k: nat)
    ensures Below(n + k) == Below(n) + From(n, k) && |From(n, k)| == k
  {
    hide From, Below;
    if k == 0 {
      FromNone(n);
    } else {
      BelowFrom(n, k - 1);
      FromOne(n, k);
      MoreByOne(Below(n), From(n, k - 1), n + k - 1);
    }
  }

  // ---- Input requests of one task ------------------------------------------------------

  ghost function IdOf(r: InputRequest, t: KeyID): multiset<nat> {
    if r.task == Some(t) then multiset{r.id} else multiset{}
  }

  /** The numbers of the requests that task `t` has in a list. */
  ghost function Ids(rs: seq<InputRequest>, t: KeyID): multiset<nat> {
    if rs == [] then multiset{} else Ids(rs[..|rs| - 1], t) + IdOf(rs[|rs| - 1], t)
  }

  lemma IdsConcat(a: seq<InputRequest>, b: seq<InputRequest>, t: KeyID)
    ensures Ids(a + b, t) == Ids(a, t) + Ids(b, t)
    decreases |b|
  {
    if b == [] {
      assert a + b == a;
    } else {
      assert (a + b)[..|a + b| - 1] == a + b[..|b| - 1];
      IdsConcat(a, b[..|b| - 1], t);
    }
  }

  lemma IdsOne(r: InputRequest, t: KeyID)
    ensures Ids([r], t) == IdOf(r, t)
  {
    assert [r][..0] == [];
  }

  lemma IdsAppend(a: seq<InputRequest>, r: InputRequest, t: KeyID)
    ensures Ids(a + [r], t) == Ids(a, t) + IdOf(r, t)
  {
    IdsConcat(a, [r], t);
    IdsOne(r, t);
  }

  lemma IdsFirst(a: seq<InputRequest>, t: KeyID)
    requires a != []
    ensures Ids(a, t) == IdOf(a[0], t) + Ids(a[1..], t)
  {
    assert a == [a[0]] + a[1..];
    IdsConcat([a[0]], a[1..], t);
    IdsOne(a[0], t);
  }

  lemma IdsMember(rs: seq<InputRequest>, t: KeyID, i: nat)
    ensures i in Ids(rs, t) <==> exists r :: r in rs && r.task == Some(t) && r.id == i
  {
    if rs != [] { IdsMember(rs[..|rs| - 1], t, i); }
  }

  lemma IdsNone(rs: seq<InputRequest>, t: KeyID)
    requires forall r :: r in rs ==> r.task != Some(t)
    ensures Ids(rs, t) == multiset{}
  {
    if rs != [] { IdsNone(rs[..|rs| - 1], t); }
  }

  /** The same over the lists of a map. */
  ghost function FlatIds(m: map<KeyID, seq<InputRequest>>, t: KeyID): multiset<nat> {
    if !exists k :: k in m then multiset{} else
    var k :| k in m; FlatIds(m - {k}, t) + Ids(m[k], t)
  }

  lemma FlatIdsRemove(m: map<KeyID, seq<InputRequest>>, t: KeyID, k: KeyID)
    requires k in m
    ensures FlatIds(m, t) == FlatIds(m - {k}, t) + Ids(m[k], t)
    decreases |m|
  {
    var j :| j in m && FlatIds(m, t) == FlatIds(m - {j}, t) + Ids(m[j], t);
    if j != k {
      assert (m - {j}) - {k} == (m - {k}) - {j};
      FlatIdsRemove(m - {j}, t, k);
      FlatIdsRemove(m - {k}, t, j);
    }
  }

  lemma FlatIdsUpdate(m: map<KeyID, seq<InputRequest>>, t: KeyID, k: KeyID, v: seq<InputRequest>)
    ensures FlatIds(m[k := v], t) == FlatIds(m - {k}, t) + Ids(v, t)
  {
    assert m[k := v] - {k} == m - {k};
    FlatIdsRemove(m[k := v], t, k);
  }

  lemma FlatIdsDrop(m: map<KeyID, seq<InputRequest>>, t: KeyID, k: KeyID)
    ensures FlatIds(m, t) == FlatIds(m - {k}, t) + Ids(At(m, k), t)
  {
    if k in m { FlatIdsRemove(m, t, k); } else { assert m - {k} == m; }
  }

  lemma FlatIdsNew(m: map<KeyID, seq<InputRequest>>, t: KeyID, k: KeyID)
    requires k !in m
    ensures FlatIds(m[k := []], t) == FlatIds(m, t)
  {
    FlatIdsUpdate(m, t, k, []);
    assert m - {k} == m;
  }

  lemma FlatIdsAdd(m: map<KeyID, seq<InputRequest>>, t: KeyID, k: KeyID, r: InputRequest)
    ensures FlatIds(m[k := At(m, k) + [r]], t) == FlatIds(m, t) + IdOf(r, t)
  {
    FlatIdsUpdate(m, t, k, At(m, k) + [r]);
    IdsAppend(At(m, k), r, t);
    FlatIdsDrop(m, t, k);
  }

  lemma FlatIdsMember(m: map<KeyID, seq<InputRequest>>, t: KeyID, i: nat)
    requires i in FlatIds(m, t)
    ensures exists k, r :: k in m && r in m[k] && r.task == Some(t) && r.id == i
    decreases |m|
  {
    var k :| k in m && FlatIds(m, t) == FlatIds(m - {k}, t) + Ids(m[k], t);
    if i in Ids(m[k], t) {
      IdsMember(m[k], t, i);
    } else {
      FlatIdsMember(m - {k}, t, i);
    }
  }

  lemma FlatIdsNone(m: map<KeyID, seq<InputRequest>>, t: KeyID)
    requires forall k, r :: k in m && r in m[k] ==> r.task != Some(t)
    ensures FlatIds(m, t) == multiset{}
  {
    if i: nat :| i in FlatIds(m, t) { FlatIdsMember(m, t, i); }
  }

  // ---- Scan requests -------------------------------------------------------------------

  /** The rules whose scan requests are in a list. */
  ghost function Owners(rs: seq<ScanRequest>): multiset<KeyID> {
    if rs == [] then multiset{} else Owners(rs[..|rs| - 1]) + multiset{rs[|rs| - 1].rule}
  }

  lemma OwnersConcat(a: seq<ScanRequest>, b: seq<ScanRequest>)
    ensures Owners(a + b) == Owners(a) + Owners(b)
    decreases |b|
  {
    if b == [] {
      assert a + b == a;
    } else {
      assert (a + b)[..|a + b| - 1] == a + b[..|b| - 1];
      OwnersConcat(a, b[..|b| - 1]);
    }
  }

  lemma OwnersOne(r: ScanRequest)
    ensures Owners([r]) == multiset{r.rule}
  {
    assert [r][..0] == [];
  }

  lemma OwnersAppend(a: seq<ScanRequest>, r: ScanRequest)
    ensures Owners(a + [r]) == Owners(a) + multiset{r.rule}
  {
    OwnersConcat(a, [r]);
    OwnersOne(r);
  }

  lemma OwnersMember(rs: seq<ScanRequest>, k: KeyID)
    ensures k in Owners(rs) <==> exists r :: r in rs && r.rule == k
  {
    if rs != [] { OwnersMember(rs[..|rs| - 1], k); }
  }

  /** The same over the lists of a map. */
  ghost function FlatOwners(m: map<KeyID, seq<ScanRequest>>): multiset<KeyID> {
    if !exists k :: k in m then multiset{} else
    var k :| k in m; FlatOwners(m - {k}) + Owners(m[k])
  }

  lemma FlatOwnersRemove(m: map<KeyID, seq<ScanRequest>>, k: KeyID)
    requires k in m
    ensures FlatOwners(m) == FlatOwners(m - {k}) + Owners(m[k])
    decreases |m|
  {
    var j :| j in m && FlatOwners(m) == FlatOwners(m - {j}) + Owners(m[j]);
    if j != k {
      assert (m - {j}) - {k} == (m - {k}) - {j};
      FlatOwnersRemove(m - {j}, k);
      FlatOwnersRemove(m - {k}, j);
    }
  }

  lemma FlatOwnersUpdate(m: map<KeyID, seq<ScanRequest>>, k: KeyID, v: seq<ScanRequest>)
    ensures FlatOwners(m[k := v]) == FlatOwners(m - {k}) + Owners(v)
  {
    assert m[k := v] - {k} == m - {k};
    FlatOwnersRemove(m[k := v], k);
  }

  lemma FlatOwnersDrop(m: map<KeyID, seq<ScanRequest>>, k: KeyID)
    ensures FlatOwners(m) == FlatOwners(m - {k}) + Owners(At(m, k))
  {
    if k in m { FlatOwnersRemove(m, k); } else { assert m - {k} == m; }
  }

  lemma FlatOwnersNew(m: map<KeyID, seq<ScanRequest>>, k: KeyID)
    requires k !in m
    ensures FlatOwners(m[k := []]) == FlatOwners(m)
  {
    FlatOwnersUpdate(m, k, []);
    assert m - {k} == m;
  }

  lemma FlatOwnersAdd(m: map<KeyID, seq<ScanRequest>>, k: KeyID, r: ScanRequest)
    ensures FlatOwners(m[k := At(m, k) + [r]]) == FlatOwners(m) + multiset{r.rule}
  {
    FlatOwnersUpdate(m, k, At(m, k) + [r]);
    OwnersAppend(At(m, k), r);
    FlatOwnersDrop(m, k);
  }

  lemma FlatOwnersMember(m: map<KeyID, seq<ScanRequest>>, k: KeyID)
    requires k in FlatOwners(m)
    ensures exists d, r :: d in m && r in m[d] && r.rule == k
    decreases |m|
  {
    var d :| d in m && FlatOwners(m) == FlatOwners(m - {d}) + Owners(m[d]);
    if k in Owners(m[d]) {
      OwnersMember(m[d], k);
    } else {
      FlatOwnersMember(m - {d}, k);
    }
  }
}
