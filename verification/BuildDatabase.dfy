/** The build database (lib/Core/SQLiteBuildDB.cpp:448-676 and 866-990) over abstract tables: the
    encoding of dependencies, and the caches between engine and database key identifiers. */
module BuildDatabase {
  import opened Options
  import opened EngineState

  newtype byte = x: int | 0 <= x < 256

  // ---- Words ------------------------------------------------------------------------------------

  const WORD_LIMIT: nat := 0x1_0000_0000_0000_0000
  const ID_LIMIT: nat := 0x4000_0000_0000_0000

  function Power(n: nat): (r: nat)
    ensures r > 0
  {
    if n == 0 then 1 else 256 * Power(n - 1)
  }

  /** The `n` lowest bytes of a number, lowest first (`BinaryEncoder::write`). */
  function Bytes(raw: nat, n: nat): (r: seq<byte>)
    ensures |r| == n
  {
    if n == 0 then [] else [(raw % 256) as byte] + Bytes(raw / 256, n - 1)
  }

  function Word(bytes: seq<byte>): nat {
    if bytes == [] then 0 else bytes[0] as nat + 256 * Word(bytes[1..])
  }

  lemma {:induction false} WordOfBytes(raw: nat, n: nat)
    requires raw < Power(n)
    ensures Word(Bytes(raw, n)) == raw
    decreases n
  {
    if n > 0 {
      assert raw / 256 < Power(n - 1);
      WordOfBytes(raw / 256, n - 1);
      assert Bytes(raw, n)[1..] == Bytes(raw / 256, n - 1);
    }
  }

  lemma DivideTwice(x: nat, n: nat)
    requires n > 0
    ensures x / 256 / n == x / (256 * n)
  {
    var q, r := x / 256, x % 256;
    var q', r' := q / n, q % n;
    assert x == 256 * (n * q' + r') + r == (256 * n) * q' + (256 * r' + r);
    assert 256 * r' + r < 256 * n;
    Quotient(x, 256 * n, q', 256 * r' + r);
  }

  lemma Quotient(x: nat, n: nat, q: nat, r: nat)
    requires x == n * q + r && r < n
    ensures x / n == q
  {
    Larger(n, x / n, q);
    Larger(n, q, x / n);
  }

  lemma {:induction false} Larger(n: nat, a: nat, b: nat)
    ensures a > b ==> n * a >= n * b + n
    decreases a
  {
    if a > b {
      assert n * a == n * (a - 1) + n;
      if a > b + 1 { Larger(n, a - 1, b); }
    }
  }

  /** The byte at each place is that digit to base 256, the lowest first. */
  lemma {:induction false} ByteIsDigit(raw: nat, n: nat, i: nat)
    requires i < n
    ensures Bytes(raw, n)[i] as nat == raw / Power(i) % 256
    decreases n
  {
    if i > 0 {
      ByteIsDigit(raw / 256, n - 1, i - 1);
      DivideTwice(raw, Power(i - 1));
    }
  }

  lemma WordLimit()
    ensures Power(8) == WORD_LIMIT
  {
    assert Power(2) == 0x1_0000;
    assert Power(4) == 0x1_0000_0000;
    assert Power(6) == 0x1_0000_0000_0000;
  }

  function Encoded(raws: seq<nat>): seq<byte> {
    if raws == [] then [] else Encoded(raws[..|raws| - 1]) + Bytes(raws[|raws| - 1], 8)
  }

  function Decoded(blob: seq<byte>): seq<nat> {
    if |blob| < 8 then [] else Decoded(blob[..|blob| - 8]) + [Word(blob[|blob| - 8..])]
  }

  lemma {:induction false} DecodeEncoded(raws: seq<nat>)
    requires forall r :: r in raws ==> r < WORD_LIMIT
    ensures Decoded(Encoded(raws)) == raws && |Encoded(raws)| == 8 * |raws|
    decreases |raws|
  {
    if raws != [] {
      var front, last := raws[..|raws| - 1], raws[|raws| - 1];
      assert raws == front + [last] && last in raws && forall r :: r in front ==> r in raws;
      DecodeEncoded(front);
      WordLimit();
      WordOfBytes(last, 8);
      var blob := Encoded(raws);
      assert blob[..|blob| - 8] == Encoded(front) && blob[|blob| - 8..] == Bytes(last, 8);
    }
  }

  // ---- One dependency -----------------------------------------------------------------------------

  /** A dependency as 64 bits: the identifier shifted up by two, and the two flags. */
  function Raw(id: nat, orderOnly: bool, singleUse: bool): nat {
    (4 * id + (if singleUse then 2 else 0) + (if orderOnly then 1 else 0)) % WORD_LIMIT
  }

  function RawID(raw: nat): nat { raw / 4 }

  predicate RawOrderOnly(raw: nat) { raw % 2 == 1 }

  predicate RawSingleUse(raw: nat) { raw / 2 % 2 == 1 }

  /** The flags always survive, in the lowest bit and the one above it; the identifier does, in the bits
      above, if and only if it fits in 62 bits. */
  lemma RawRoundTrip(id: nat, orderOnly: bool, singleUse: bool)
    ensures var raw := Raw(id, orderOnly, singleUse);
      && raw < WORD_LIMIT && RawOrderOnly(raw) == orderOnly && RawSingleUse(raw) == singleUse
      && (RawID(raw) == id <==> id < ID_LIMIT)
      && raw % 4 == (if orderOnly then 1 else 0) + (if singleUse then 2 else 0) && (id < ID_LIMIT ==> raw / 4 == id)
  {
    var flags := (if singleUse then 2 else 0) + (if orderOnly then 1 else 0);
    var q, low := id / ID_LIMIT, id % ID_LIMIT;
    assert 4 * id + flags == q * WORD_LIMIT + (4 * low + flags);
    Remainder(q, 4 * low + flags);
    assert Raw(id, orderOnly, singleUse) == 4 * low + flags;
  }

  lemma Remainder(q: nat, r: nat)
    requires r < WORD_LIMIT
    ensures (q * WORD_LIMIT + r) % WORD_LIMIT == r
  {
  }

  // ---- Tables ---------------------------------------------------------------------------------------

  datatype Row = Row(value: seq<byte>, signature: int, builtAt: nat, computedAt: nat, dependencies: seq<byte>)

  /** The table of keys, by name and by identifier, and the table of results by identifier. */
  datatype Tables = Tables(ids: map<string, nat>, names: map<nat, string>, nextID: nat, rows: map<nat, Row>)

  /** Names are unique, and rows have names. */
  ghost predicate TablesOk(t: Tables) {
    && t.nextID > 0
    && (forall n :: n in t.ids ==> t.ids[n] in t.names && t.names[t.ids[n]] == n)
    && (forall d :: d in t.names ==> 0 < d < t.nextID && t.names[d] in t.ids && t.ids[t.names[d]] == d)
    && (forall d :: d in t.rows ==> d in t.names)
  }

  /** What the engine stores for a rule. */
  datatype Stored = Stored(value: seq<byte>, signature: int, builtAt: nat, computedAt: nat, dependencies: seq<Dependency>)

  datatype NamedDependency = NamedDependency(name: string, orderOnly: bool, singleUse: bool)

  /** The same in terms of key names, which mean the same to every engine. */
  datatype Entry = Entry(value: seq<byte>, signature: int, builtAt: nat, computedAt: nat, dependencies: seq<NamedDependency>)

  datatype Content = Missing | Corrupt | Present(entry: Entry)

  ghost predicate Readable(t: Tables, blob: seq<byte>) {
    |blob| % 8 == 0 && forall raw :: raw in Decoded(blob) ==> RawID(raw) in t.names
  }

  ghost function Named(t: Tables, raws: seq<nat>): seq<NamedDependency>
    requires forall raw :: raw in raws ==> RawID(raw) in t.names
  {
    seq(|raws|, i requires 0 <= i < |raws| => NamedDependency(t.names[RawID(raws[i])], RawOrderOnly(raws[i]), RawSingleUse(raws[i])))
  }

  /** What the database holds for a key. */
  ghost function Lookup(t: Tables, name: string): Content {
    if name in t.ids && t.ids[name] in t.rows then
      var row := t.rows[t.ids[name]];
      if Readable(t, row.dependencies) then
        Present(Entry(row.value, row.signature, row.builtAt, row.computedAt, Named(t, Decoded(row.dependencies))))
      else Corrupt
    else Missing
  }

  /** The engine's own table of keys. */
  datatype Delegate = Delegate(getKeyForID: KeyID -> string, getKeyID: string -> KeyID)

  ghost predicate Bijective(delegate: Delegate) {
    && (forall k :: delegate.getKeyID(delegate.getKeyForID(k)) == k)
    && (forall n :: delegate.getKeyForID(delegate.getKeyID(n)) == n)
  }

  function ToNames(delegate: Delegate, ds: seq<Dependency>): seq<NamedDependency> {
    seq(|ds|, i requires 0 <= i < |ds| => NamedDependency(delegate.getKeyForID(ds[i].key), ds[i].orderOnly, ds[i].singleUse))
  }

  function ToEntry(delegate: Delegate, s: Stored): Entry {
    Entry(s.value, s.signature, s.builtAt, s.computedAt, ToNames(delegate, s.dependencies))
  }

  function FromNames(delegate: Delegate, ds: seq<NamedDependency>): seq<Dependency> {
    seq(|ds|, i requires 0 <= i < |ds| => Dependency(delegate.getKeyID(ds[i].name), ds[i].orderOnly, ds[i].singleUse))
  }

  function FromEntry(delegate: Delegate, e: Entry): Stored {
    Stored(e.value, e.signature, e.builtAt, e.computedAt, FromNames(delegate, e.dependencies))
  }

  /** Storing and looking up by the same engine gives back the same result. */
  lemma EngineRoundTrip(delegate: Delegate, s: Stored)
    requires Bijective(delegate)
    ensures FromEntry(delegate, ToEntry(delegate, s)) == s
  {
    var ds := FromNames(delegate, ToNames(delegate, s.dependencies));
    assert forall i :: 0 <= i < |ds| ==> ds[i] == s.dependencies[i];
  }

  /** The tables have only gained keys. */
  ghost predicate MoreKeys(t: Tables, t': Tables) {
    && t'.rows == t.rows && t.nextID <= t'.nextID
    && (forall n :: n in t.ids ==> n in t'.ids && t'.ids[n] == t.ids[n])
    && (forall d :: d in t.names ==> d in t'.names && t'.names[d] == t.names[d])
  }

  /** New keys do not disturb what is stored. */
  lemma MoreKeysKeep(t: Tables, t': Tables, name: string)
    requires TablesOk(t) && TablesOk(t') && MoreKeys(t, t')
    ensures Lookup(t, name).Present? ==> Lookup(t', name) == Lookup(t, name)
    ensures Lookup(t, name).Missing? <==> Lookup(t', name).Missing?
  {
    if Lookup(t, name).Present? {
      var raws := Decoded(t.rows[t.ids[name]].dependencies);
      assert Named(t', raws) == Named(t, raws);
    }
  }

  /** Storing a row for one key leaves the others alone. */
  lemma RowKeeps(t: Tables, id: nat, row: Row, name: string)
    requires TablesOk(t) && id in t.names && name != t.names[id]
    ensures Lookup(t.(rows := t.rows[id := row]), name) == Lookup(t, name)
  {
    var t' := t.(rows := t.rows[id := row]);
    if Lookup(t, name).Present? {
      var raws := Decoded(t.rows[t.ids[name]].dependencies);
      assert Named(t', raws) == Named(t, raws);
    }
  }

  /** What is held for keys other than `name` has not changed. */
  ghost predicate Undisturbed(t: Tables, t': Tables, name: string) {
    && (forall n :: n != name && Lookup(t, n).Present? ==> Lookup(t', n) == Lookup(t, n))
    && (forall n :: n != name ==> (Lookup(t, n).Missing? <==> Lookup(t', n).Missing?))
  }

  lemma StoreDisturbsNothing(t: Tables, known: Tables, id: nat, row: Row)
    requires TablesOk(t) && TablesOk(known) && MoreKeys(t, known) && id in known.names
    ensures Undisturbed(t, known.(rows := known.rows[id := row]), known.names[id])
  {
    hide Lookup;
    var t' := known.(rows := known.rows[id := row]);
    forall n | n != known.names[id]
      ensures Lookup(t, n).Present? ==> Lookup(t', n) == Lookup(t, n)
      ensures Lookup(t, n).Missing? <==> Lookup(t', n).Missing?
    {
      MoreKeysKeep(t, known, n);
      RowKeeps(known, id, row, n);
    }
  }

  /** `raws` encode `ds`, for the keys the tables know. */
  ghost predicate Encodes(delegate: Delegate, t: Tables, raws: seq<nat>, ds: seq<Dependency>) {
    && |raws| == |ds|
    && forall i :: 0 <= i < |raws| ==>
         && raws[i] < WORD_LIMIT && RawID(raws[i]) in t.names && t.names[RawID(raws[i])] == delegate.getKeyForID(ds[i].key)
         && RawOrderOnly(raws[i]) == ds[i].orderOnly && RawSingleUse(raws[i]) == ds[i].singleUse
  }

  lemma EncodesMore(delegate: Delegate, t: Tables, t': Tables, raws: seq<nat>, ds: seq<Dependency>, id: nat, d: Dependency)
    requires Encodes(delegate, t, raws, ds) && MoreKeys(t, t')
    requires id < ID_LIMIT && id in t'.names && t'.names[id] == delegate.getKeyForID(d.key)
    ensures Encodes(delegate, t', raws + [Raw(id, d.orderOnly, d.singleUse)], ds + [d])
  {
    hide Raw, RawID, RawOrderOnly, RawSingleUse;
    RawRoundTrip(id, d.orderOnly, d.singleUse);
  }

  lemma EncodedPush(raws: seq<nat>, raw: nat)
    ensures Encoded(raws + [raw]) == Encoded(raws) + Bytes(raw, 8)
  {
    assert (raws + [raw])[..|raws|] == raws;
  }

  /** A row with encoded dependencies holds the result it was made from. */
  lemma StoredRow(delegate: Delegate, t: Tables, id: nat, s: Stored, raws: seq<nat>)
    requires TablesOk(t) && id in t.names && Encodes(delegate, t, raws, s.dependencies)
    ensures var row := Row(s.value, s.signature, s.builtAt, s.computedAt, Encoded(raws));
      Lookup(t.(rows := t.rows[id := row]), t.names[id]) == Present(ToEntry(delegate, s))
  {
    hide RawID, RawOrderOnly, RawSingleUse, Encoded, Decoded;
    DecodeEncoded(raws);
    var t' := t.(rows := t.rows[id := Row(s.value, s.signature, s.builtAt, s.computedAt, Encoded(raws))]);
    assert Named(t', raws) == ToNames(delegate, s.dependencies);
  }

  // ---- Caches ------------------------------------------------------------------------------------------

  /** The two caches are inverse to each other, and agree with the table of keys. */
  ghost predicate CachesOk(delegate: Delegate, t: Tables, engineKeyIDs: map<nat, KeyID>, dbKeyIDs: map<KeyID, nat>) {
    && (forall k :: k in dbKeyIDs ==> dbKeyIDs[k] in engineKeyIDs && engineKeyIDs[dbKeyIDs[k]] == k)
    && (forall d :: d in engineKeyIDs ==> engineKeyIDs[d] in dbKeyIDs && dbKeyIDs[engineKeyIDs[d]] == d)
    && (forall d :: d in engineKeyIDs ==> d in t.names && t.names[d] == delegate.getKeyForID(engineKeyIDs[d]))
  }

  lemma CacheMore(delegate: Delegate, t: Tables, engineKeyIDs: map<nat, KeyID>, dbKeyIDs: map<KeyID, nat>, d: nat, k: KeyID)
    requires Bijective(delegate) && TablesOk(t) && CachesOk(delegate, t, engineKeyIDs, dbKeyIDs)
    requires d in t.names && t.names[d] == delegate.getKeyForID(k)
    ensures CachesOk(delegate, t, engineKeyIDs[d := k], dbKeyIDs[k := d])
  {
    forall k' | k' in dbKeyIDs && k' != k ensures dbKeyIDs[k'] != d {
      assert delegate.getKeyID(delegate.getKeyForID(k')) == k';
      assert delegate.getKeyID(delegate.getKeyForID(k)) == k;
    }
    forall d' | d' in engineKeyIDs && d' != d ensures engineKeyIDs[d'] != k {
      assert t.ids[t.names[d']] == d' && t.ids[t.names[d]] == d;
    }
  }

  /** Storing a row, after the keys it mentions have been found or added. */
  lemma RowStored(delegate: Delegate, t0: Tables, named: Tables, known: Tables, engineKeyIDs: map<nat, KeyID>, dbKeyIDs: map<KeyID, nat>,
                  id: nat, s: Stored, raws: seq<nat>)
    requires TablesOk(t0) && TablesOk(known) && MoreKeys(t0, named) && MoreKeys(named, known)
    requires CachesOk(delegate, known, engineKeyIDs, dbKeyIDs) && id in named.names && Encodes(delegate, known, raws, s.dependencies)
    ensures var t := known.(rows := known.rows[id := Row(s.value, s.signature, s.builtAt, s.computedAt, Encoded(raws))]);
      && TablesOk(t) && CachesOk(delegate, t, engineKeyIDs, dbKeyIDs)
      && Lookup(t, named.names[id]) == Present(ToEntry(delegate, s)) && Undisturbed(t0, t, named.names[id])
  {
    var row := Row(s.value, s.signature, s.builtAt, s.computedAt, Encoded(raws));
    assert MoreKeys(t0, known) && id in known.names && known.names[id] == named.names[id];
    hide Encoded, Encodes, Lookup, Undisturbed;
    StoredRow(delegate, known, id, s, raws);
    StoreDisturbsNothing(t0, known, id, row);
  }

  class BuildDB {
    const delegate: Delegate
    var tables: Tables
    var engineKeyIDs: map<nat, KeyID>
    var dbKeyIDs: map<KeyID, nat>

    ghost predicate Valid()
      reads this
    {
      Bijective(delegate) && TablesOk(tables) && CachesOk(delegate, tables, engineKeyIDs, dbKeyIDs)
    }

    /** An engine opens a database that may have been written by another. */
    constructor (d: Delegate, t: Tables)
      requires Bijective(d) && TablesOk(t)
      ensures Valid() && delegate == d && tables == t
    {
      delegate, tables, engineKeyIDs, dbKeyIDs := d, t, map[], map[];
    }

    /** `getKeyIDFromDB`: finds the key in the table, or adds it. */
    method GetKeyIDFromDB(keyID: KeyID) returns (id: nat)
      requires Valid()
      modifies this`tables
      ensures Valid() && MoreKeys(old(tables), tables) && tables.nextID <= old(tables.nextID) + 1
      ensures id in tables.names && tables.names[id] == delegate.getKeyForID(keyID)
    {
      var name := delegate.getKeyForID(keyID);
      if name in tables.ids {
        return tables.ids[name];
      }
      id := tables.nextID;
      tables := tables.(ids := tables.ids[name := id], names := tables.names[id := name], nextID := id + 1);
    }

    /** `getKeyID`: the cached identifier, or the one in the table. */
    method GetKeyID(keyID: KeyID) returns (id: nat)
      requires Valid()
      modifies this
      ensures Valid() && MoreKeys(old(tables), tables) && tables.nextID <= old(tables.nextID) + 1
      ensures id in tables.names && tables.names[id] == delegate.getKeyForID(keyID)
      ensures keyID in dbKeyIDs && dbKeyIDs[keyID] == id
    {
      if keyID in dbKeyIDs {
        return dbKeyIDs[keyID];
      }
      id := GetKeyIDFromDB(keyID);
      CacheMore(delegate, tables, engineKeyIDs, dbKeyIDs, id, keyID);
      engineKeyIDs := engineKeyIDs[id := keyID];
      dbKeyIDs := dbKeyIDs[keyID := id];
    }

    /** `getKeyIDForID`: fails exactly when the identifier is not in the table. */
    method GetKeyIDForID(id: nat) returns (r: Option<KeyID>)
      requires Valid()
      modifies this`engineKeyIDs, this`dbKeyIDs
      ensures Valid()
      ensures r == if id in tables.names then Some(delegate.getKeyID(tables.names[id])) else None
    {
      if id in engineKeyIDs {
        assert delegate.getKeyID(delegate.getKeyForID(engineKeyIDs[id])) == engineKeyIDs[id];
        return Some(engineKeyIDs[id]);
      }
      if id !in tables.names { return None; }
      var keyID := delegate.getKeyID(tables.names[id]);
      CacheMore(delegate, tables, engineKeyIDs, dbKeyIDs, id, keyID);
      engineKeyIDs := engineKeyIDs[id := keyID];
      dbKeyIDs := dbKeyIDs[keyID := id];
      r := Some(keyID);
    }

    /** The loop of `setRuleResult`. */
    method EncodeDependencies(ds: seq<Dependency>) returns (blob: seq<byte>, ghost raws: seq<nat>)
      requires Valid() && tables.nextID + |ds| <= ID_LIMIT
      modifies this
      ensures Valid() && MoreKeys(old(tables), tables)
      ensures blob == Encoded(raws) && Encodes(delegate, tables, raws, ds)
    {
      hide Raw, Encoded, Decoded, Encodes, Bijective, CachesOk;
      blob, raws := [], [];
      NoneEncoded(delegate, tables);
      for i := 0 to |ds|
        invariant Valid() && MoreKeys(old(tables), tables) && tables.nextID <= old(tables.nextID) + i
        invariant blob == Encoded(raws) && Encodes(delegate, tables, raws, ds[..i])
      {
        var d := ds[i];
        ghost var before := tables;
        var dbKeyID := GetKeyID(d.key);
        var raw := Raw(dbKeyID, d.orderOnly, d.singleUse);
        EncodesMore(delegate, before, tables, raws, ds[..i], dbKeyID, d);
        EncodedPush(raws, raw);
        assert ds[..i + 1] == ds[..i] + [d];
        raws := raws + [raw];
        blob := blob + Bytes(raw, 8);
      }
      assert ds[..|ds|] == ds;
    }

    /** `setRuleResult`: the key then holds the result, and no other key is disturbed. */
    method SetRuleResult(keyID: KeyID, s: Stored)
      requires Valid() && tables.nextID + |s.dependencies| + 1 <= ID_LIMIT
      modifies this
      ensures Valid() && Lookup(tables, delegate.getKeyForID(keyID)) == Present(ToEntry(delegate, s))
      ensures Undisturbed(old(tables), tables, delegate.getKeyForID(keyID))
    {
      hide Encoded, Encodes, Lookup, CachesOk, Bijective, TablesOk, MoreKeys, Undisturbed;
      var id := GetKeyID(keyID);
      ghost var named := tables;
      var blob, raws := EncodeDependencies(s.dependencies);
      var row := Row(s.value, s.signature, s.builtAt, s.computedAt, blob);
      RowStored(delegate, old(tables), named, tables, engineKeyIDs, dbKeyIDs, id, s, raws);
      tables := tables.(rows := tables.rows[id := row]);
    }

    /** `lookupRuleResult`, by either path: what the database holds for the key, in this engine's
        identifiers. */
    method LookupRuleResult(keyID: KeyID) returns (r: Answer)
      requires Valid()
      modifies this`engineKeyIDs, this`dbKeyIDs
      ensures Valid() && r == Expected(delegate, Lookup(tables, delegate.getKeyForID(keyID)))
    {
      var name := delegate.getKeyForID(keyID);
      var id;
      if keyID in dbKeyIDs {
        id := dbKeyIDs[keyID];
        assert tables.names[id] == name;
        if id !in tables.rows { return NotFound; }
      } else {
        if name !in tables.ids || tables.ids[name] !in tables.rows { return NotFound; }
        id := tables.ids[name];
        CacheMore(delegate, tables, engineKeyIDs, dbKeyIDs, id, keyID);
        engineKeyIDs := engineKeyIDs[id := keyID];
        dbKeyIDs := dbKeyIDs[keyID := id];
      }
      assert tables.ids[name] == id;
      var row := tables.rows[id];
      var blob := row.dependencies;
      if |blob| % 8 != 0 { return Failed; }
      var ds := DecodeDependencies(blob);
      if ds.None? { return Failed; }
      r := Found(Stored(row.value, row.signature, row.builtAt, row.computedAt, ds.value));
    }

    /** The loop of `lookupRuleResult`. */
    method DecodeDependencies(blob: seq<byte>) returns (r: Option<seq<Dependency>>)
      requires Valid() && |blob| % 8 == 0
      modifies this`engineKeyIDs, this`dbKeyIDs
      ensures Valid() && (r.Some? <==> Readable(tables, blob))
      ensures r.Some? ==> r.value == FromNames(delegate, Named(tables, Decoded(blob)))
    {
      ghost var raws := Decoded(blob);
      DecodedLength(blob);
      var ds: seq<Dependency> := [];
      for i := 0 to |blob| / 8
        invariant Valid() && |ds| == i
        invariant forall j :: 0 <= j < i ==> RawID(raws[j]) in tables.names
        invariant forall j :: 0 <= j < i ==>
          ds[j] == Dependency(delegate.getKeyID(tables.names[RawID(raws[j])]), RawOrderOnly(raws[j]), RawSingleUse(raws[j]))
      {
        DecodedAt(blob, i);
        var raw := Word(blob[8 * i..8 * i + 8]);
        assert raw == raws[i] && raw in raws;
        var keyID := GetKeyIDForID(RawID(raw));
        if keyID.None? { return None; }
        ds := ds + [Dependency(keyID.value, RawOrderOnly(raw), RawSingleUse(raw))];
      }
      assert forall raw :: raw in raws ==> RawID(raw) in tables.names;
      assert ds == FromNames(delegate, Named(tables, raws));
      r := Some(ds);
    }
  }

  datatype Answer = NotFound | Failed | Found(stored: Stored)

  function Expected(delegate: Delegate, content: Content): Answer {
    match content
    case Missing => NotFound
    case Corrupt => Failed
    case Present(e) => Found(FromEntry(delegate, e))
  }

  lemma NoneEncoded(delegate: Delegate, t: Tables)
    ensures Encoded([]) == [] && Encodes(delegate, t, [], [])
  {
  }

  lemma {:induction false} DecodedLength(blob: seq<byte>)
    ensures |Decoded(blob)| == |blob| / 8
    decreases |blob|
  {
    if |blob| >= 8 { DecodedLength(blob[..|blob| - 8]); }
  }

  lemma {:induction false} DecodedAt(blob: seq<byte>, i: nat)
    requires |blob| % 8 == 0 && i < |blob| / 8
    ensures |Decoded(blob)| == |blob| / 8 && Decoded(blob)[i] == Word(blob[8 * i..8 * i + 8])
    decreases |blob|
  {
    var front := blob[..|blob| - 8];
    DecodedLength(blob);
    DecodedLength(front);
    if i == |blob| / 8 - 1 {
      assert blob[|blob| - 8..] == blob[8 * i..8 * i + 8];
    } else {
      DecodedAt(front, i);
      assert front[8 * i..8 * i + 8] == blob[8 * i..8 * i + 8];
    }
  }

  /** A result stored by one engine and looked up by another, on the same database, is the same
      result in the other engine's identifiers. */
  method StoreAndReload(writer: Delegate, reader: Delegate, t: Tables, name: string, s: Stored) returns (r: Answer)
    requires Bijective(writer) && Bijective(reader) && TablesOk(t) && t.nextID + |s.dependencies| + 1 <= ID_LIMIT
    ensures r == Found(FromEntry(reader, ToEntry(writer, s)))
    ensures reader == writer ==> r == Found(s)
  {
    var first := new BuildDB(writer, t);
    first.SetRuleResult(writer.getKeyID(name), s);
    assert writer.getKeyForID(writer.getKeyID(name)) == name;
    var second := new BuildDB(reader, first.tables);
    assert reader.getKeyForID(reader.getKeyID(name)) == name;
    r := second.LookupRuleResult(reader.getKeyID(name));
    EngineRoundTrip(writer, s);
  }
}
