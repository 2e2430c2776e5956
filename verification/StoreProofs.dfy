// The chunked, two-index insertion refines a first-wins map, over every history of ingests and purges.
module StoreProofs {
  import opened Basics
  import opened Store

  // ---- The simple store: one row per key, the first one wins ----

  function Put(m: map<Key, Content>, r: NewRow): map<Key, Content> {
    if r.key in m then m else m[r.key := r.content]
  }

  function FirstWins(m: map<Key, Content>, rows: seq<NewRow>): map<Key, Content>
    decreases |rows|
  {
    if rows == [] then m else Put(FirstWins(m, rows[..|rows| - 1]), rows[|rows| - 1])
  }

  function KeysOf(rows: seq<NewRow>): set<Key> { set r | r in rows :: r.key }

  // The table holds exactly the entries of the map, each once.
  ghost predicate Represents(rows: seq<Row>, m: map<Key, Content>) {
    && (forall i | 0 <= i < |rows| :: rows[i].key in m && m[rows[i].key] == rows[i].content)
    && (forall k | k in m :: exists i :: 0 <= i < |rows| && rows[i].key == k)
    && Distinct(rows)
  }

  ghost predicate Distinct(rows: seq<Row>) {
    forall i, j | 0 <= i < j < |rows| :: rows[i].key != rows[j].key
  }

  function StoredKeys(rows: seq<Row>): set<Key> {
    if rows == [] then {} else StoredKeys(rows[..|rows| - 1]) + {rows[|rows| - 1].key}
  }

  lemma {:induction false} StoredKeysAre(rows: seq<Row>)
    ensures forall k :: k in StoredKeys(rows) <==> exists i :: 0 <= i < |rows| && rows[i].key == k
    ensures Distinct(rows) ==> |StoredKeys(rows)| == |rows|
  {
    if rows != [] {
      var n := |rows| - 1;
      StoredKeysAre(rows[..n]);
      forall k ensures k in StoredKeys(rows) <==> exists i :: 0 <= i < |rows| && rows[i].key == k {
        KeyAmong(rows, rows[..n], k);
      }
      if Distinct(rows) {
        assert rows[n].key !in StoredKeys(rows[..n]);
      }
    }
  }

  lemma KeyAmong(rows: seq<Row>, init: seq<Row>, k: Key)
    requires rows != [] && init == rows[..|rows| - 1]
    ensures (exists i :: 0 <= i < |rows| && rows[i].key == k)
      <==> rows[|rows| - 1].key == k || exists i :: 0 <= i < |init| && init[i].key == k
  {
    var n := |rows| - 1;
    if i :| 0 <= i < |rows| && rows[i].key == k {
      assert i < n ==> init[i].key == k;
    }
    if i :| 0 <= i < n && init[i].key == k {
      assert rows[i].key == k;
    }
  }

  lemma RepresentsCount(rows: seq<Row>, m: map<Key, Content>)
    requires Represents(rows, m)
    ensures |rows| == |m|
  {
    StoredKeysAre(rows);
    assert StoredKeys(rows) == m.Keys;
  }

  // ---- First-wins facts ----

  lemma {:induction false} FirstWinsKeys(m: map<Key, Content>, rows: seq<NewRow>)
    ensures FirstWins(m, rows).Keys == m.Keys + KeysOf(rows)
    decreases |rows|
  {
    if rows != [] {
      var n := |rows| - 1;
      FirstWinsKeys(m, rows[..n]);
      assert rows == rows[..n] + [rows[n]];
    }
  }

  // A key already stored keeps its content; a new key takes that of the first row carrying it.
  lemma {:induction false} FirstWinsContent(m: map<Key, Content>, rows: seq<NewRow>, i: nat)
    requires i < |rows|
    ensures rows[i].key in FirstWins(m, rows)
    ensures rows[i].key in m ==> FirstWins(m, rows)[rows[i].key] == m[rows[i].key]
    ensures rows[i].key !in m && (forall j | 0 <= j < i :: rows[j].key != rows[i].key) ==>
      FirstWins(m, rows)[rows[i].key] == rows[i].content
    decreases |rows|
  {
    var n := |rows| - 1;
    if i < n {
      FirstWinsContent(m, rows[..n], i);
    } else {
      FirstWinsKeys(m, rows[..n]);
      if rows[n].key in m { FirstWinsKeeps(m, rows[..n], rows[n].key); }
    }
  }

  lemma {:induction false} FirstWinsKeeps(m: map<Key, Content>, rows: seq<NewRow>, k: Key)
    requires k in m
    ensures k in FirstWins(m, rows) && FirstWins(m, rows)[k] == m[k]
    decreases |rows|
  {
    if rows != [] {
      FirstWinsKeeps(m, rows[..|rows| - 1], k);
    }
  }

  lemma PutCommutes(m: map<Key, Content>, x: NewRow, y: NewRow)
    requires x.key != y.key
    ensures Put(Put(m, x), y) == Put(Put(m, y), x)
  {
  }

  lemma {:induction false} PutPastOthers(m: map<Key, Content>, x: NewRow, rows: seq<NewRow>)
    requires forall i | 0 <= i < |rows| :: rows[i].key != x.key
    ensures FirstWins(Put(m, x), rows) == Put(FirstWins(m, rows), x)
    decreases |rows|
  {
    if rows != [] {
      var n := |rows| - 1;
      PutPastOthers(m, x, rows[..n]);
      PutCommutes(FirstWins(m, rows[..n]), x, rows[n]);
    }
  }

  lemma {:induction false} OfIndexCovers(rows: seq<NewRow>, ix: Index)
    ensures forall i | 0 <= i < |OfIndex(rows, ix)| :: Covers(ix, OfIndex(rows, ix)[i].key)
    decreases |rows|
  {
    if rows != [] {
      OfIndexCovers(rows[..|rows| - 1], ix);
    }
  }

  // Inserting the versioned rows before the others makes no difference: their keys never meet.
  lemma {:induction false} PartitionMakesNoDifference(m: map<Key, Content>, rows: seq<NewRow>)
    ensures FirstWins(FirstWins(m, OfIndex(rows, VersionedIndex)), OfIndex(rows, ScoIndex)) == FirstWins(m, rows)
    decreases |rows|
  {
    if rows != [] {
      var n := |rows| - 1;
      var x := rows[n];
      var v, s := OfIndex(rows[..n], VersionedIndex), OfIndex(rows[..n], ScoIndex);
      PartitionMakesNoDifference(m, rows[..n]);
      assert rows == rows[..n] + [x];
      OfIndexNext(rows[..n], x);
      if Covers(VersionedIndex, x.key) {
        assert (v + [x])[..|v|] == v && s + [] == s;
        OfIndexCovers(rows[..n], ScoIndex);
        PutPastOthers(FirstWins(m, v), x, s);
      } else {
        assert (s + [x])[..|s|] == s && v + [] == v;
      }
    }
  }

  // ---- Refinement ----

  lemma ConflictMeansStored(t: Table, ix: Index, k: Key, m: map<Key, Content>)
    requires Represents(t.rows, m) && Covers(ix, k)
    ensures Conflicts(t, ix, k) <==> k in m
  {
    if k in m {
      var i :| 0 <= i < |t.rows| && t.rows[i].key == k;
      assert SameEntry(ix, t.rows[i].key, k);
    }
  }

  lemma AppendRepresents(rows: seq<Row>, r: Row, m: map<Key, Content>)
    requires Represents(rows, m) && r.key !in m
    ensures Represents(rows + [r], m[r.key := r.content])
  {
    var all, after := rows + [r], m[r.key := r.content];
    forall k | k in after ensures exists i :: 0 <= i < |all| && all[i].key == k {
      if k == r.key {
        assert all[|rows|].key == k;
      } else {
        var i :| 0 <= i < |rows| && rows[i].key == k;
        assert all[i].key == k;
      }
    }
  }

  lemma InsertOneRefines(t: Table, ix: Index, r: NewRow, m: map<Key, Content>)
    requires Indexed(t) && Represents(t.rows, m) && Covers(ix, r.key)
    ensures Indexed(InsertOne(t, ix, r)) && Represents(InsertOne(t, ix, r).rows, Put(m, r))
  {
    ConflictMeansStored(t, ix, r.key, m);
    if r.key !in m {
      var row := Row(t.nextId, r.key, r.content);
      AppendRepresents(t.rows, row, m);
      forall i | 0 <= i < |t.rows| ensures Compatible(t.rows[i], row) {
        assert t.rows[i].key in m;
      }
    }
  }

  lemma {:induction false} InsertAllRefines(t: Table, ix: Index, rows: seq<NewRow>, m: map<Key, Content>)
    requires Indexed(t) && Represents(t.rows, m)
    requires forall i | 0 <= i < |rows| :: Covers(ix, rows[i].key)
    ensures Indexed(InsertAll(t, ix, rows)) && Represents(InsertAll(t, ix, rows).rows, FirstWins(m, rows))
    decreases |rows|
  {
    if rows != [] {
      var n := |rows| - 1;
      InsertAllRefines(t, ix, rows[..n], m);
      InsertOneRefines(InsertAll(t, ix, rows[..n]), ix, rows[n], FirstWins(m, rows[..n]));
    }
  }

  lemma BulkInsertRefines(t: Table, rows: seq<NewRow>, m: map<Key, Content>)
    requires Indexed(t) && Represents(t.rows, m)
    ensures Indexed(BulkInsert(t, rows)) && Represents(BulkInsert(t, rows).rows, FirstWins(m, rows))
  {
    var v, s := OfIndex(rows, VersionedIndex), OfIndex(rows, ScoIndex);
    OfIndexCovers(rows, VersionedIndex);
    OfIndexCovers(rows, ScoIndex);
    InsertAllRefines(t, VersionedIndex, v, m);
    InsertAllRefines(InsertAll(t, VersionedIndex, v), ScoIndex, s, FirstWins(m, v));
    PartitionMakesNoDifference(m, rows);
  }

  // One bulk insertion, for every chunking, does what inserting the rows one by one in their given
  // order would do; it accepts as many rows as there are distinct new keys.
  lemma BulkInsertRefinesFirstWins(t: Table, rows: seq<NewRow>, m: map<Key, Content>)
    requires Indexed(t) && Represents(t.rows, m)
    ensures Indexed(BulkInsert(t, rows)) && Represents(BulkInsert(t, rows).rows, FirstWins(m, rows))
    ensures |BulkInsert(t, rows).rows| - |t.rows| == |KeysOf(rows) - m.Keys|
  {
    BulkInsertRefines(t, rows, m);
    RepresentsCount(t.rows, m);
    RepresentsCount(BulkInsert(t, rows).rows, FirstWins(m, rows));
    FirstWinsKeys(m, rows);
    NewKeysCount(m.Keys, KeysOf(rows));
  }

  lemma NewKeysCount(a: set<Key>, b: set<Key>)
    ensures |a + b| == |a| + |b - a|
  {
    assert a + b == a + (b - a);
  }

  // Inserting the same rows again accepts none of them and leaves every stored row as it was.
  lemma RepeatedInsertAddsNothing(t: Table, rows: seq<NewRow>, m: map<Key, Content>)
    requires Indexed(t) && Represents(t.rows, m)
    ensures BulkInsert(BulkInsert(t, rows), rows).rows == BulkInsert(t, rows).rows
  {
    var once := BulkInsert(t, rows);
    BulkInsertRefinesFirstWins(t, rows, m);
    BulkInsertRefinesFirstWins(once, rows, FirstWins(m, rows));
    FirstWinsKeys(m, rows);
    assert KeysOf(rows) - FirstWins(m, rows).Keys == {};
    BulkInsertGrows(once, rows);
  }

  lemma BulkInsertGrows(t: Table, rows: seq<NewRow>)
    ensures t.rows <= BulkInsert(t, rows).rows
  {
    InsertAllGrows(t, VersionedIndex, OfIndex(rows, VersionedIndex));
    InsertAllGrows(InsertAll(t, VersionedIndex, OfIndex(rows, VersionedIndex)), ScoIndex, OfIndex(rows, ScoIndex));
  }

  // ---- Purge ----

  function Surviving(m: map<Key, Content>, instances: seq<string>): map<Key, Content> {
    map k | k in m && m[k].source !in instances :: m[k]
  }

  lemma {:induction false} KeptMembers(rows: seq<Row>, instances: seq<string>)
    ensures forall r :: r in Kept(rows, instances) <==> r in rows && r.content.source !in instances
  {
    if rows != [] {
      KeptMembers(rows[1..], instances);
      assert rows == [rows[0]] + rows[1..];
    }
  }

  lemma {:induction false} KeptCompatible(rows: seq<Row>, instances: seq<string>)
    requires forall i, j | 0 <= i < j < |rows| :: Compatible(rows[i], rows[j])
    ensures forall i, j | 0 <= i < j < |Kept(rows, instances)| ::
        Compatible(Kept(rows, instances)[i], Kept(rows, instances)[j])
  {
    if rows != [] {
      KeptCompatible(rows[1..], instances);
      KeptMembers(rows[1..], instances);
      var kept := Kept(rows[1..], instances);
      forall j | 0 <= j < |kept| ensures Compatible(rows[0], kept[j]) {
        assert kept[j] in rows[1..];
      }
    }
  }

  lemma CompatibleIsDistinct(rows: seq<Row>)
    requires forall i, j | 0 <= i < j < |rows| :: Compatible(rows[i], rows[j])
    ensures Distinct(rows)
  {
    forall i, j | 0 <= i < j < |rows| ensures rows[i].key != rows[j].key {
      assert Compatible(rows[i], rows[j]);
    }
  }

  lemma KeptRepresents(rows: seq<Row>, instances: seq<string>, m: map<Key, Content>)
    requires Represents(rows, m) && Distinct(Kept(rows, instances))
    ensures Represents(Kept(rows, instances), Surviving(m, instances))
  {
    KeptMembers(rows, instances);
    var kept := Kept(rows, instances);
    forall i | 0 <= i < |kept|
      ensures kept[i].key in Surviving(m, instances) && Surviving(m, instances)[kept[i].key] == kept[i].content
    {
      assert kept[i] in rows;
    }
    forall k | k in Surviving(m, instances) ensures exists i :: 0 <= i < |kept| && kept[i].key == k {
      var i :| 0 <= i < |rows| && rows[i].key == k;
      assert rows[i] in kept;
      var j :| 0 <= j < |kept| && kept[j] == rows[i];
    }
  }

  lemma PurgeRefines(t: Table, instances: seq<string>, m: map<Key, Content>)
    requires Indexed(t) && Represents(t.rows, m)
    ensures Indexed(Table(Kept(t.rows, instances), t.nextId))
    ensures Represents(Kept(t.rows, instances), Surviving(m, instances))
  {
    KeptCompatible(t.rows, instances);
    KeptMembers(t.rows, instances);
    CompatibleIsDistinct(Kept(t.rows, instances));
    KeptRepresents(t.rows, instances, m);
    forall i | 0 <= i < |Kept(t.rows, instances)| ensures Kept(t.rows, instances)[i].rowId < t.nextId {
      assert Kept(t.rows, instances)[i] in t.rows;
    }
  }

  // ---- Lookup ----

  // ORDER BY modified DESC NULLS LAST, row_id DESC.
  predicate Precedes(a: Row, b: Row) {
    match (a.key.modified, b.key.modified)
    case (Some(x), Some(y)) => x > y || (x == y && a.rowId > b.rowId)
    case (Some(_), None) => true
    case (None, Some(_)) => false
    case (None, None) => a.rowId > b.rowId
  }

  function GetObject(rows: seq<Row>, id: string): Option<Row> {
    if rows == [] then None
    else
      var best := GetObject(rows[..|rows| - 1], id);
      var r := rows[|rows| - 1];
      if r.key.id == id && (best.None? || Precedes(r, best.value)) then Some(r) else best
  }

  // No version of the object is newer than `k`.
  predicate NotNewer(other: Key, k: Key) {
    other.modified.Some? ==> k.modified.Some? && other.modified.value <= k.modified.value
  }

  // What a lookup must return, in terms of the surviving entries.
  ghost predicate IsLatest(m: map<Key, Content>, id: string, found: Option<Row>) {
    match found
    case None => forall k | k in m :: k.id != id
    case Some(r) =>
      && r.key in m && r.key.id == id && m[r.key] == r.content
      && forall k | k in m && k.id == id :: NotNewer(k, r.key)
  }

  lemma {:induction false} GetObjectIsBest(rows: seq<Row>, id: string)
    ensures GetObject(rows, id).None? ==> forall i | 0 <= i < |rows| :: rows[i].key.id != id
    ensures GetObject(rows, id).Some? ==>
      var r := GetObject(rows, id).value;
      r in rows && r.key.id == id && forall i | 0 <= i < |rows| && rows[i].key.id == id :: NotNewer(rows[i].key, r.key)
  {
    if rows != [] {
      var n := |rows| - 1;
      GetObjectIsBest(rows[..n], id);
      assert rows == rows[..n] + [rows[n]];
      assert forall i | 0 <= i < n :: rows[..n][i] == rows[i];
    }
  }

  lemma GetObjectIsLatest(rows: seq<Row>, m: map<Key, Content>, id: string)
    requires Represents(rows, m)
    ensures IsLatest(m, id, GetObject(rows, id))
  {
    GetObjectIsBest(rows, id);
    forall k | k in m && k.id == id ensures exists i :: 0 <= i < |rows| && rows[i].key == k {}
  }

  // ---- Histories ----

  datatype Op = Ingest(rows: seq<NewRow>) | Purge(instances: seq<string>)

  function Apply(t: Table, op: Op): Table {
    match op case Ingest(rows) => BulkInsert(t, rows) case Purge(ids) => Table(Kept(t.rows, ids), t.nextId)
  }

  function Meaning(m: map<Key, Content>, op: Op): map<Key, Content> {
    match op case Ingest(rows) => FirstWins(m, rows) case Purge(ids) => Surviving(m, ids)
  }

  function ApplyAll(ops: seq<Op>): Table {
    if ops == [] then Table([], 0) else Apply(ApplyAll(ops[..|ops| - 1]), ops[|ops| - 1])
  }

  function MeaningAll(ops: seq<Op>): map<Key, Content> {
    if ops == [] then map[] else Meaning(MeaningAll(ops[..|ops| - 1]), ops[|ops| - 1])
  }

  // After any sequence of ingests and purges the table is the simple store, with both partial unique
  // indexes intact.
  lemma {:induction false} HistoryRefines(ops: seq<Op>)
    ensures Indexed(ApplyAll(ops)) && Represents(ApplyAll(ops).rows, MeaningAll(ops))
  {
    if ops != [] {
      var n := |ops| - 1;
      HistoryRefines(ops[..n]);
      match ops[n]
      case Ingest(rows) => BulkInsertRefinesFirstWins(ApplyAll(ops[..n]), rows, MeaningAll(ops[..n]));
      case Purge(ids) => PurgeRefines(ApplyAll(ops[..n]), ids, MeaningAll(ops[..n]));
    }
  }

  // A lookup returns the surviving version with the greatest `modified`, a row without `modified`
  // only when no versioned row survives, and nothing exactly when no row of the object survives.
  lemma LookupAfterHistory(ops: seq<Op>, id: string)
    ensures IsLatest(MeaningAll(ops), id, GetObject(ApplyAll(ops).rows, id))
    ensures GetObject(ApplyAll(ops).rows, id).None? <==> forall k | k in MeaningAll(ops) :: k.id != id
  {
    HistoryRefines(ops);
    GetObjectIsLatest(ApplyAll(ops).rows, MeaningAll(ops), id);
  }
}
