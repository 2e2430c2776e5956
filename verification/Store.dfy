// The object table: chunked insertion under two partial unique indexes, purge, and latest-version lookup.
module Store {
  import opened Basics

  type Time = int

  // ---- Columns ----

  datatype Key = Key(id: string, modified: Option<Time>)

  datatype Content = Content(
    stixType: string, specVersion: string, created: Time, createdByRef: Option<string>,
    revoked: bool, confidence: Option<int>, source: string, raw: map<string, Json>)

  datatype NewRow = NewRow(key: Key, content: Content)

  datatype Row = Row(rowId: nat, key: Key, content: Content)

  datatype Fault = BadField(name: string) | CheckViolated | BadBatchSize

  const EPOCH: Time := 0

  function Member(obj: map<string, Json>, name: string): Json { if name in obj then obj[name] else Null }

  predicate IsText(j: Json) { j.Str? && j.s != "" }

  // Timestamps are parsed by `parse`, standing for ISO-8601 with `Z` allowed.
  function Timestamp(j: Json, name: string, parse: string -> Option<Time>): Result<Option<Time>, Fault> {
    match j
    case Null => Ok(None)
    case Str(s) => (match parse(s) case Some(t) => Ok(Some(t)) case None => Err(BadField(name)))
    case _ => Err(BadField(name))
  }

  // Nothing, or a text that parses.
  predicate IsTime(j: Json, parse: string -> Option<Time>) {
    j.Null? || (j.Str? && parse(j.s).Some?)
  }

  // A JSON boolean passes for an integer, as in Python.
  function Confidence(j: Json): Result<Option<int>, Fault> {
    match j
    case Null => Ok(None)
    case Num(n) => Ok(Some(n))
    case Bool(b) => Ok(Some(if b then 1 else 0))
    case _ => Err(BadField("confidence"))
  }

  function RowOf(obj: map<string, Json>, source: string, parse: string -> Option<Time>): (r: Result<NewRow, Fault>)
    ensures r.Ok? ==>
      var k, c := r.value.key, r.value.content;
      && IsText(Member(obj, "id")) && obj["id"].s == k.id && IsText(Member(obj, "type")) && obj["type"].s == c.stixType
      && (k.modified.None? <==> Member(obj, "modified") == Null)
      && (k.modified.Some? ==> obj["modified"].Str? && parse(obj["modified"].s) == k.modified)
      && (if Member(obj, "created") == Null then c.created == EPOCH
          else Member(obj, "created").Str? && parse(obj["created"].s) == Some(c.created))
      && c.raw == obj && c.source == source
      && (if IsText(Member(obj, "spec_version")) then c.specVersion == obj["spec_version"].s
          else c.specVersion == "2.1")
      && c.createdByRef == (if Member(obj, "created_by_ref").Str? then Some(obj["created_by_ref"].s) else None)
      && (c.revoked <==> Member(obj, "revoked") == Bool(true))
      && match Member(obj, "confidence")
         case Num(n) => c.confidence == Some(n)
         case Bool(b) => c.confidence == Some(if b then 1 else 0)
         case other => other == Null && c.confidence == None
    ensures r.Ok? <==>
      && IsText(Member(obj, "id")) && IsText(Member(obj, "type"))
      && IsTime(Member(obj, "created"), parse) && IsTime(Member(obj, "modified"), parse)
      && ("revoked" in obj ==> obj["revoked"].Bool?)
      && (Member(obj, "confidence").Null? || Member(obj, "confidence").Num? || Member(obj, "confidence").Bool?)
  {
    if !IsText(Member(obj, "id")) then Err(BadField("id"))
    else if !IsText(Member(obj, "type")) then Err(BadField("type"))
    else
      var created := Timestamp(Member(obj, "created"), "created", parse);
      var modified := Timestamp(Member(obj, "modified"), "modified", parse);
      var confidence := Confidence(Member(obj, "confidence"));
      if created.Err? then Err(created.error)
      else if modified.Err? then Err(modified.error)
      else if "revoked" in obj && !obj["revoked"].Bool? then Err(BadField("revoked"))
      else if confidence.Err? then Err(confidence.error)
      else
        var spec := Member(obj, "spec_version");
        var creator := Member(obj, "created_by_ref");
        Ok(NewRow(Key(obj["id"].s, modified.value),
                  Content(obj["type"].s, if IsText(spec) then spec.s else "2.1",
                          if created.value.Some? then created.value.value else EPOCH,
                          if creator.Str? then Some(creator.s) else None,
                          "revoked" in obj && obj["revoked"].b, confidence.value, source, obj)))
  }

  // The table's check constraint.
  predicate Admissible(r: NewRow) {
    r.content.confidence.Some? ==> 0 <= r.content.confidence.value <= 100
  }

  predicate AllAdmissible(rows: seq<NewRow>) { forall i | 0 <= i < |rows| :: Admissible(rows[i]) }

  // ---- The table ----

  datatype Table = Table(rows: seq<Row>, nextId: nat)

  // The partial unique index a statement names as its conflict arbiter.
  datatype Index = VersionedIndex | ScoIndex

  predicate Covers(ix: Index, k: Key) { ix.VersionedIndex? <==> k.modified.Some? }

  predicate SameEntry(ix: Index, a: Key, b: Key) {
    Covers(ix, a) && Covers(ix, b) && a.id == b.id && (ix.VersionedIndex? ==> a.modified == b.modified)
  }

  predicate Conflicts(t: Table, ix: Index, k: Key) {
    exists i | 0 <= i < |t.rows| :: SameEntry(ix, t.rows[i].key, k)
  }

  // Neither partial unique index forbids the two rows, and their identities are in order.
  predicate Compatible(a: Row, b: Row) {
    !SameEntry(VersionedIndex, a.key, b.key) && !SameEntry(ScoIndex, a.key, b.key) && a.rowId < b.rowId
  }

  ghost predicate Indexed(t: Table) {
    && (forall i, j | 0 <= i < j < |t.rows| :: Compatible(t.rows[i], t.rows[j]))
    && (forall i | 0 <= i < |t.rows| :: t.rows[i].rowId < t.nextId)
  }

  // INSERT of one row with ON CONFLICT DO NOTHING; an identity is drawn either way.
  function InsertOne(t: Table, ix: Index, r: NewRow): Table {
    if Conflicts(t, ix, r.key) then t.(nextId := t.nextId + 1)
    else Table(t.rows + [Row(t.nextId, r.key, r.content)], t.nextId + 1)
  }

  // A statement is a left fold over its rows.
  function InsertAll(t: Table, ix: Index, rows: seq<NewRow>): Table
    decreases |rows|
  {
    if rows == [] then t else InsertOne(InsertAll(t, ix, rows[..|rows| - 1]), ix, rows[|rows| - 1])
  }

  function OfIndex(rows: seq<NewRow>, ix: Index): seq<NewRow> {
    if rows == [] then []
    else OfIndex(rows[..|rows| - 1], ix) + if Covers(ix, rows[|rows| - 1].key) then [rows[|rows| - 1]] else []
  }

  // Versioned rows first, then the rows without `modified`.
  function BulkInsert(t: Table, rows: seq<NewRow>): Table {
    InsertAll(InsertAll(t, VersionedIndex, OfIndex(rows, VersionedIndex)), ScoIndex, OfIndex(rows, ScoIndex))
  }

  lemma {:induction false} InsertAllJoins(t: Table, ix: Index, a: seq<NewRow>, b: seq<NewRow>)
    ensures InsertAll(t, ix, a + b) == InsertAll(InsertAll(t, ix, a), ix, b)
    decreases |b|
  {
    if b == [] {
      assert a + b == a;
    } else {
      assert (a + b)[..|a + b| - 1] == a + b[..|b| - 1];
      InsertAllJoins(t, ix, a, b[..|b| - 1]);
    }
  }

  lemma {:induction false} InsertAllGrows(t: Table, ix: Index, rows: seq<NewRow>)
    ensures t.rows <= InsertAll(t, ix, rows).rows
    ensures |InsertAll(t, ix, rows).rows| <= |t.rows| + |rows|
    decreases |rows|
  {
    if rows != [] {
      InsertAllGrows(t, ix, rows[..|rows| - 1]);
    }
  }

  function RowsOf(objects: seq<map<string, Json>>, source: string,
                  parse: string -> Option<Time>): Result<seq<NewRow>, Fault> {
    if objects == [] then Ok([])
    else
      match RowsOf(objects[..|objects| - 1], source, parse)
      case Err(f) => Err(f)
      case Ok(rows) =>
        match RowOf(objects[|objects| - 1], source, parse)
        case Err(f) => Err(f)
        case Ok(r) => Ok(rows + [r])
  }

  // The rows are the objects' own, in their order, and there are rows if and only if every object makes one.
  lemma {:induction false} RowsOfEach(objects: seq<map<string, Json>>, source: string, parse: string -> Option<Time>)
    ensures RowsOf(objects, source, parse).Ok?
      <==> forall i | 0 <= i < |objects| :: RowOf(objects[i], source, parse).Ok?
    ensures RowsOf(objects, source, parse).Ok? ==>
      var rows := RowsOf(objects, source, parse).value;
      |rows| == |objects| && forall i | 0 <= i < |rows| :: RowOf(objects[i], source, parse) == Ok(rows[i])
  {
    if objects != [] {
      var n := |objects| - 1;
      RowsOfEach(objects[..n], source, parse);
      assert forall i | 0 <= i < n :: objects[..n][i] == objects[i];
    }
  }

  // ---- The repository object ----

  class StixObjectRepository {
    var rows: seq<Row>
    var nextId: nat
    var connectorState: map<(string, string), Json>   // by instance and key

    ghost function View(): Table reads this { Table(rows, nextId) }

    constructor ()
      ensures View() == Table([], 0) && connectorState == map[]
    {
      rows, nextId, connectorState := [], 0, map[];
    }

    method HasConflict(ix: Index, k: Key) returns (found: bool)
      ensures found == Conflicts(View(), ix, k)
    {
      found := exists i | 0 <= i < |rows| :: SameEntry(ix, rows[i].key, k);
    }

    // One INSERT statement; the RETURNING clause lists the identities of the rows inserted. A row
    // that fails the check constraint aborts the statement.
    method Execute(chunk: seq<NewRow>, ix: Index) returns (returned: Result<seq<nat>, Fault>)
      modifies this`rows, this`nextId
      ensures nextId >= old(nextId) && (returned.Ok? <==> AllAdmissible(chunk))
      ensures returned.Ok? ==> View() == InsertAll(old(View()), ix, chunk) && |returned.value| == |rows| - |old(rows)|
    {
      var ids: seq<nat> := [];
      for i := 0 to |chunk|
        invariant View() == InsertAll(old(View()), ix, chunk[..i]) && |ids| == |rows| - |old(rows)|
        invariant nextId >= old(nextId) && forall k | 0 <= k < i :: Admissible(chunk[k])
      {
        if !Admissible(chunk[i]) {
          return Err(CheckViolated);
        }
        assert chunk[..i + 1][..i] == chunk[..i];
        var taken := HasConflict(ix, chunk[i].key);
        if !taken {
          rows := rows + [Row(nextId, chunk[i].key, chunk[i].content)];
          ids := ids + [nextId];
        }
        nextId := nextId + 1;
      }
      assert chunk[..|chunk|] == chunk;
      returned := Ok(ids);
    }

    method InsertBatches(batch: seq<NewRow>, batchSize: nat, ix: Index) returns (inserted: Result<nat, Fault>)
      requires batchSize >= 1
      modifies this`rows, this`nextId
      ensures nextId >= old(nextId) && (inserted.Ok? <==> AllAdmissible(batch))
      ensures inserted.Ok? ==> View() == InsertAll(old(View()), ix, batch) && inserted.value == |rows| - |old(rows)|
    {
      var total: nat := 0;
      var start := 0;
      while start < |batch|
        invariant start <= |batch|
        invariant View() == InsertAll(old(View()), ix, batch[..start]) && total == |rows| - |old(rows)|
        invariant nextId >= old(nextId) && AllAdmissible(batch[..start])
      {
        var stop := if start + batchSize <= |batch| then start + batchSize else |batch|;
        var chunk := batch[start..stop];
        NextChunk(old(View()), ix, batch, start, stop);
        InsertAllGrows(View(), ix, chunk);
        var result := Execute(chunk, ix);
        if result.Err? {
          return Err(result.error);
        }
        total := total + |result.value|;
        start := stop;
      }
      assert batch[..|batch|] == batch;
      inserted := Ok(total);
    }

    // The loop over the objects: every row is built before anything is inserted.
    method PartitionRows(objects: seq<map<string, Json>>, source: string, parse: string -> Option<Time>)
      returns (parts: Result<(seq<NewRow>, seq<NewRow>), Fault>)
      ensures parts.Ok? == RowsOf(objects, source, parse).Ok?
      ensures parts.Ok? ==>
        var all := RowsOf(objects, source, parse).value;
        && parts.value == (OfIndex(all, VersionedIndex), OfIndex(all, ScoIndex))
        && |parts.value.0| + |parts.value.1| == |objects|
    {
      var versioned, scos: seq<NewRow> := [], [];
      ghost var done: seq<NewRow> := [];
      for i := 0 to |objects|
        invariant RowsOf(objects[..i], source, parse) == Ok(done)
        invariant versioned == OfIndex(done, VersionedIndex) && scos == OfIndex(done, ScoIndex)
        invariant |versioned| + |scos| == i
      {
        RowsOfNext(objects, source, parse, i);
        var row := RowOf(objects[i], source, parse);
        if row.Err? {
          RowsOfFails(objects, source, parse, i + 1);
          return Err(row.error);
        }
        OfIndexNext(done, row.value);
        done := done + [row.value];
        if row.value.key.modified == None {
          scos := scos + [row.value];
        } else {
          versioned := versioned + [row.value];
        }
      }
      assert objects[..|objects|] == objects;
      parts := Ok((versioned, scos));
    }

    // Returns (accepted, duplicates).
    method BulkInsertDedupe(objects: seq<map<string, Json>>, source: string, batchSize: int,
                            parse: string -> Option<Time>)
      returns (counts: Result<(nat, int), Fault>)
      modifies this`rows, this`nextId
      ensures nextId >= old(nextId)
      ensures counts.Ok? <==> batchSize >= 1 && RowsOf(objects, source, parse).Ok?
                              && AllAdmissible(RowsOf(objects, source, parse).value)
      ensures counts.Ok? ==> View() == BulkInsert(old(View()), RowsOf(objects, source, parse).value)
      ensures counts.Ok? ==> counts.value.0 == |rows| - |old(rows)| && counts.value.0 + counts.value.1 == |objects|
    {
      if batchSize < 1 {
        return Err(BadBatchSize);
      }
      var parts := PartitionRows(objects, source, parse);
      if parts.Err? {
        return Err(parts.error);
      }
      var (versioned, scos) := parts.value;
      PartitionAdmissible(RowsOf(objects, source, parse).value);
      var first := InsertBatches(versioned, batchSize, VersionedIndex);
      if first.Err? {
        return Err(first.error);
      }
      var second := InsertBatches(scos, batchSize, ScoIndex);
      if second.Err? {
        return Err(second.error);
      }
      counts := Ok((first.value + second.value, (|versioned| - first.value) + (|scos| - second.value)));
    }

    // DELETE of the instances' state and of every row that came from them; returns the row count.
    method Purge(instances: seq<string>) returns (removed: nat)
      modifies this
      ensures View() == Table(Kept(old(rows), instances), old(nextId)) && removed == |old(rows)| - |rows|
      ensures connectorState == map k | k in old(connectorState) && k.0 !in instances :: old(connectorState)[k]
    {
      if instances == [] {
        KeptAll(rows);
        return 0;
      }
      connectorState := map k | k in connectorState && k.0 !in instances :: connectorState[k];
      KeptIsShorter(rows, instances);
      removed := |rows| - |Kept(rows, instances)|;
      rows := Kept(rows, instances);
    }
  }

  lemma {:induction false} RowsOfFails(objects: seq<map<string, Json>>, source: string,
                                       parse: string -> Option<Time>, n: nat)
    requires n <= |objects| && RowsOf(objects[..n], source, parse).Err?
    ensures RowsOf(objects, source, parse).Err?
    decreases |objects|
  {
    if n < |objects| {
      assert objects[..|objects| - 1][..n] == objects[..n];
      RowsOfFails(objects[..|objects| - 1], source, parse, n);
    } else {
      assert objects[..n] == objects;
    }
  }

  lemma RowsOfNext(objects: seq<map<string, Json>>, source: string, parse: string -> Option<Time>, i: nat)
    requires i < |objects| && RowsOf(objects[..i], source, parse).Ok?
    ensures RowsOf(objects[..i + 1], source, parse) ==
      match RowOf(objects[i], source, parse)
      case Err(f) => Err(f)
      case Ok(r) => Ok(RowsOf(objects[..i], source, parse).value + [r])
  {
    assert objects[..i + 1][..i] == objects[..i];
  }

  lemma OfIndexNext(rows: seq<NewRow>, r: NewRow)
    ensures OfIndex(rows + [r], VersionedIndex)
         == OfIndex(rows, VersionedIndex) + if r.key.modified.Some? then [r] else []
    ensures OfIndex(rows + [r], ScoIndex) == OfIndex(rows, ScoIndex) + if r.key.modified.Some? then [] else [r]
  {
    assert (rows + [r])[..|rows|] == rows;
  }

  lemma {:induction false} PartitionAdmissible(rows: seq<NewRow>)
    ensures AllAdmissible(rows)
      <==> AllAdmissible(OfIndex(rows, VersionedIndex)) && AllAdmissible(OfIndex(rows, ScoIndex))
    decreases |rows|
  {
    if rows != [] {
      var n := |rows| - 1;
      PartitionAdmissible(rows[..n]);
      AllAdmissibleAppend(rows[..n], rows[n]);
      AllAdmissibleAppend(OfIndex(rows[..n], VersionedIndex), rows[n]);
      AllAdmissibleAppend(OfIndex(rows[..n], ScoIndex), rows[n]);
      assert rows == rows[..n] + [rows[n]];
      assert OfIndex(rows[..n], VersionedIndex) + [] == OfIndex(rows[..n], VersionedIndex);
      assert OfIndex(rows[..n], ScoIndex) + [] == OfIndex(rows[..n], ScoIndex);
    }
  }

  lemma AllAdmissibleAppend(rows: seq<NewRow>, r: NewRow)
    ensures AllAdmissible(rows + [r]) <==> AllAdmissible(rows) && Admissible(r)
  {
    var all := rows + [r];
    assert all[|rows|] == r;
    assert forall i | 0 <= i < |rows| :: all[i] == rows[i];
  }

  // One more chunk of a batch: the statements so far add up to one statement over the prefix.
  lemma NextChunk(t: Table, ix: Index, batch: seq<NewRow>, start: nat, stop: nat)
    requires start <= stop <= |batch|
    ensures InsertAll(t, ix, batch[..stop]) == InsertAll(InsertAll(t, ix, batch[..start]), ix, batch[start..stop])
    ensures AllAdmissible(batch[..stop]) <==> AllAdmissible(batch[..start]) && AllAdmissible(batch[start..stop])
    ensures AllAdmissible(batch) ==> AllAdmissible(batch[..stop])
  {
    var chunk := batch[start..stop];
    assert batch[..start] + chunk == batch[..stop];
    InsertAllJoins(t, ix, batch[..start], chunk);
    forall i | start <= i < stop ensures batch[..stop][i] == chunk[i - start] {}
    if AllAdmissible(batch[..stop]) {
      forall i | 0 <= i < |chunk| ensures Admissible(chunk[i]) { assert chunk[i] == batch[..stop][start + i]; }
      forall i | 0 <= i < start ensures Admissible(batch[..start][i]) { assert batch[..start][i] == batch[..stop][i]; }
    }
    if AllAdmissible(batch[..start]) && AllAdmissible(chunk) {
      forall i | 0 <= i < stop ensures Admissible(batch[..stop][i]) {
        if i < start {
          assert batch[..stop][i] == batch[..start][i];
        } else {
          assert batch[..stop][i] == chunk[i - start];
        }
      }
    }
  }

  function Kept(rows: seq<Row>, instances: seq<string>): seq<Row> {
    if rows == [] then []
    else (if rows[0].content.source in instances then [] else [rows[0]]) + Kept(rows[1..], instances)
  }

  lemma {:induction false} KeptAll(rows: seq<Row>)
    ensures Kept(rows, []) == rows
  {
    if rows != [] {
      KeptAll(rows[1..]);
    }
  }

  lemma {:induction false} KeptIsShorter(rows: seq<Row>, instances: seq<string>)
    ensures |Kept(rows, instances)| <= |rows|
  {
    if rows != [] {
      KeptIsShorter(rows[1..], instances);
    }
  }
}
