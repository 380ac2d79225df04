/** The upsert loader (src/load/load_sql.py). A database is a map from table name to
    table; a table holds its schema and its rows keyed by the tuple of values in the
    columns of its unique constraint. `load_data` turns a batch of records into one
    `INSERT ... ON CONFLICT (unique_keys)` statement: DO UPDATE of every table column
    that is neither a unique key nor `created_at`, or DO NOTHING when no such column
    is left. */
module LoadSql {
  import opened Wrappers
  import opened Rows

  type Key = seq<Value>

  /** `columns` in table order, the default each column takes when a record leaves it
      out, and the columns of the table's unique constraint in constraint order. */
  datatype Schema = Schema(columns: seq<string>, defaults: map<string, Value>, key: seq<string>)

  datatype Table = Table(schema: Schema, rows: map<Key, Record>)

  type Database = map<string, Table>

  datatype LoadError =
    | NoSuchTable(name: string)     // table reflection fails
    | UnconsumedColumns             // a record names a column the table does not have
    | NoMatchingConstraint          // no unique constraint on exactly `unique_keys`
    | RowAffectedTwice              // DO UPDATE meets the same key twice in one statement

  datatype Outcome = Outcome(result: Result<nat, LoadError>, db: Database)

  predicate SchemaOk(s: Schema) {
    && (forall c :: c in s.columns ==> c in s.defaults)
    && (forall c :: c in s.defaults ==> c in s.columns)
    && (forall c :: c in s.key ==> c in s.defaults)
  }

  /** Every stored row has exactly the table's columns and is filed under its own key. */
  predicate WellFormed(t: Table) {
    && SchemaOk(t.schema)
    && forall k :: k in t.rows ==> t.rows[k].Keys == t.schema.defaults.Keys && KeyOf(t.schema, t.rows[k]) == k
  }

  /** `df.empty`: a DataFrame built from the records has no rows, or no columns. */
  predicate EmptyFrame(batch: seq<Record>) {
    forall i :: 0 <= i < |batch| ==> batch[i] == map[]
  }

  function Project(rec: Record, cols: seq<string>): (k: Key)
    ensures |k| == |cols|
    ensures forall i :: 0 <= i < |cols| ==> k[i] == (if cols[i] in rec then rec[cols[i]] else Null)
  {
    if cols == [] then [] else [if cols[0] in rec then rec[cols[0]] else Null] + Project(rec, cols[1..])
  }

  function KeyOf(s: Schema, rec: Record): Key {
    Project(rec, s.key)
  }

  /** Records that agree on the key columns have the same key. */
  lemma KeyOfAgree(s: Schema, a: Record, b: Record)
    requires forall c :: c in s.key ==> c in a && c in b && a[c] == b[c]
    ensures KeyOf(s, a) == KeyOf(s, b)
  {
  }

  /** The row the statement proposes for one record: the record's values, and the
      column default for every table column the record leaves out. */
  function Proposed(s: Schema, rec: Record): (p: Record)
    ensures p.Keys == s.defaults.Keys
    ensures forall c :: c in rec && c in s.defaults ==> p[c] == rec[c]
    ensures forall c :: c !in rec && c in s.defaults ==> p[c] == s.defaults[c]
  {
    map c | c in s.defaults :: if c in rec then rec[c] else s.defaults[c]
  }

  function BatchKey(s: Schema, rec: Record): Key {
    KeyOf(s, Proposed(s, rec))
  }

  /** The keys the batch proposes, as a set. */
  function KeySet(s: Schema, batch: seq<Record>): (ks: set<Key>)
    ensures forall i :: 0 <= i < |batch| ==> BatchKey(s, batch[i]) in ks
    ensures forall k :: k in ks ==> exists i :: 0 <= i < |batch| && BatchKey(s, batch[i]) == k
  {
    if batch == [] then {} else {BatchKey(s, batch[0])} + KeySet(s, batch[1..])
  }

  predicate DistinctKeys(s: Schema, batch: seq<Record>) {
    forall i, j :: 0 <= i < j < |batch| ==> BatchKey(s, batch[i]) != BatchKey(s, batch[j])
  }

  /** Every column that names a table column and is known to the statement. */
  predicate ColumnsKnown(s: Schema, batch: seq<Record>) {
    forall i :: 0 <= i < |batch| ==> batch[i].Keys <= s.defaults.Keys
  }

  /** `update_cols`: the table's columns, in table order, that are neither among the
      unique keys nor `created_at`. */
  function UpdateColumns(columns: seq<string>, uniqueKeys: seq<string>): (upd: seq<string>)
    ensures forall c :: c in upd <==> c in columns && c !in uniqueKeys && c != "created_at"
    ensures |upd| <= |columns|
  {
    if columns == [] then []
    else
      var rest := UpdateColumns(columns[1..], uniqueKeys);
      if columns[0] !in uniqueKeys && columns[0] != "created_at" then [columns[0]] + rest else rest
  }

  function AsSet(cols: seq<string>): (r: set<string>)
    ensures forall c :: c in r <==> c in cols
  {
    set c | c in cols
  }

  /** `SET c = excluded.c` for every update column `c`; the other columns keep the
      stored value. */
  function Merge(stored: Record, p: Record, upd: set<string>): (m: Record)
    ensures m.Keys == stored.Keys
    ensures forall c :: c in stored && c in upd && c in p ==> m[c] == p[c]
    ensures forall c :: c in stored && (c !in upd || c !in p) ==> m[c] == stored[c]
  {
    map c | c in stored :: if c in upd && c in p then p[c] else stored[c]
  }

  /** ON CONFLICT DO UPDATE over a batch whose keys are distinct. */
  function UpsertAll(rows: map<Key, Record>, s: Schema, batch: seq<Record>, upd: set<string>): (r: map<Key, Record>)
    ensures rows.Keys <= r.Keys
    decreases |batch|
  {
    if batch == [] then rows
    else
      var p := Proposed(s, batch[0]);
      var k := KeyOf(s, p);
      UpsertAll(rows[k := if k in rows then Merge(rows[k], p, upd) else p], s, batch[1..], upd)
  }

  datatype Applied = Applied(rows: map<Key, Record>, count: nat)

  /** ON CONFLICT DO NOTHING: rows are taken in order, and one whose key is already
      present, in the table or earlier in the batch, is skipped. */
  function InsertAbsent(rows: map<Key, Record>, s: Schema, batch: seq<Record>): (a: Applied)
    ensures a.count <= |batch|
    ensures rows.Keys <= a.rows.Keys
    decreases |batch|
  {
    if batch == [] then Applied(rows, 0)
    else
      var p := Proposed(s, batch[0]);
      var k := KeyOf(s, p);
      if k in rows then InsertAbsent(rows, s, batch[1..])
      else
        var a := InsertAbsent(rows[k := p], s, batch[1..]);
        Applied(a.rows, a.count + 1)
  }

  predicate SameKeys(uniqueKeys: seq<string>, s: Schema) {
    && (forall c :: c in uniqueKeys ==> c in s.key)
    && (forall c :: c in s.key ==> c in uniqueKeys)
  }

  /** `load_data(df, table_name, unique_keys)`: the new database and the row count. */
  function Load(db: Database, batch: seq<Record>, name: string, uniqueKeys: seq<string>): (o: Outcome)
    ensures EmptyFrame(batch) ==> o == Outcome(Success(0), db)
    ensures !EmptyFrame(batch) && name !in db ==> o == Outcome(Failure(NoSuchTable(name)), db)
    ensures o.result.Failure? ==> o.db == db
    ensures o.db.Keys == db.Keys
    ensures forall t :: t in db && t != name ==> o.db[t] == db[t]
    ensures name in db ==> o.db[name].schema == db[name].schema
  {
    if EmptyFrame(batch) then Outcome(Success(0), db)
    else if name !in db then Outcome(Failure(NoSuchTable(name)), db)
    else
      var t := db[name];
      if !ColumnsKnown(t.schema, batch) then Outcome(Failure(UnconsumedColumns), db)
      else if !SameKeys(uniqueKeys, t.schema) then Outcome(Failure(NoMatchingConstraint), db)
      else
        var upd := UpdateColumns(t.schema.columns, uniqueKeys);
        if upd == [] then
          var a := InsertAbsent(t.rows, t.schema, batch);
          Outcome(Success(a.count), db[name := Table(t.schema, a.rows)])
        else if !DistinctKeys(t.schema, batch) then Outcome(Failure(RowAffectedTwice), db)
        else
          Outcome(Success(|batch|), db[name := Table(t.schema, UpsertAll(t.rows, t.schema, batch, AsSet(upd)))])
  }

  /** The loader holds the database it writes to. */
  class DataLoader {
    var db: Database

    constructor (db: Database)
      ensures this.db == db
    {
      this.db := db;
    }

    method LoadData(batch: seq<Record>, name: string, uniqueKeys: seq<string>) returns (r: Result<nat, LoadError>)
      modifies this
      ensures Outcome(r, db) == Load(old(db), batch, name, uniqueKeys)
    {
      if EmptyFrame(batch) {
        return Success(0);
      }
      if name !in db {
        return Failure(NoSuchTable(name));
      }
      var t := db[name];
      if !ColumnsKnown(t.schema, batch) {
        return Failure(UnconsumedColumns);
      }
      if !SameKeys(uniqueKeys, t.schema) {
        return Failure(NoMatchingConstraint);
      }
      var upd := UpdateColumns(t.schema.columns, uniqueKeys);
      if upd == [] {
        var a := InsertAbsent(t.rows, t.schema, batch);
        db := db[name := Table(t.schema, a.rows)];
        return Success(a.count);
      }
      if !DistinctKeys(t.schema, batch) {
        return Failure(RowAffectedTwice);
      }
      db := db[name := Table(t.schema, UpsertAll(t.rows, t.schema, batch, AsSet(upd)))];
      return Success(|batch|);
    }
  }

  // ---------------------------------------------------------------------------
  // The two conflict policies, batch by batch.

  lemma {:induction false} UpsertAllKeys(rows: map<Key, Record>, s: Schema, batch: seq<Record>, upd: set<string>)
    ensures UpsertAll(rows, s, batch, upd).Keys == rows.Keys + KeySet(s, batch)
    decreases |batch|
  {
    if batch != [] {
      var p := Proposed(s, batch[0]);
      var k := KeyOf(s, p);
      UpsertAllKeys(rows[k := if k in rows then Merge(rows[k], p, upd) else p], s, batch[1..], upd);
    }
  }

  lemma {:induction false} UpsertAllOthers(rows: map<Key, Record>, s: Schema, batch: seq<Record>, upd: set<string>, k: Key)
    requires k in rows && k !in KeySet(s, batch)
    ensures k in UpsertAll(rows, s, batch, upd) && UpsertAll(rows, s, batch, upd)[k] == rows[k]
    decreases |batch|
  {
    UpsertAllKeys(rows, s, batch, upd);
    if batch != [] {
      var p := Proposed(s, batch[0]);
      var kp := KeyOf(s, p);
      assert kp == BatchKey(s, batch[0]);
      UpsertAllOthers(rows[kp := if kp in rows then Merge(rows[kp], p, upd) else p], s, batch[1..], upd, k);
    }
  }

  /** With distinct keys, the i-th record's key ends up holding the merge of the stored
      row with the proposed row, or the proposed row when the key was new. */
  lemma {:induction false} UpsertAllAt(rows: map<Key, Record>, s: Schema, batch: seq<Record>, upd: set<string>, i: nat)
    requires DistinctKeys(s, batch) && i < |batch|
    ensures var p := Proposed(s, batch[i]); var k := KeyOf(s, p);
      k in UpsertAll(rows, s, batch, upd) &&
      UpsertAll(rows, s, batch, upd)[k] == (if k in rows then Merge(rows[k], p, upd) else p)
    decreases |batch|
  {
    var p0 := Proposed(s, batch[0]);
    var k0 := KeyOf(s, p0);
    var rows' := rows[k0 := if k0 in rows then Merge(rows[k0], p0, upd) else p0];
    if i == 0 {
      forall j | 0 <= j < |batch[1..]|
        ensures BatchKey(s, batch[1..][j]) != k0
      {
        assert batch[1..][j] == batch[j + 1];
      }
      UpsertAllOthers(rows', s, batch[1..], upd, k0);
    } else {
      assert batch[1..][i - 1] == batch[i];
      assert DistinctKeys(s, batch[1..]) by {
        forall a, b | 0 <= a < b < |batch[1..]|
          ensures BatchKey(s, batch[1..][a]) != BatchKey(s, batch[1..][b])
        {
          assert batch[1..][a] == batch[a + 1] && batch[1..][b] == batch[b + 1];
        }
      }
      assert BatchKey(s, batch[i]) != BatchKey(s, batch[0]);
      UpsertAllAt(rows', s, batch[1..], upd, i - 1);
    }
  }

  lemma {:induction false} InsertAbsentKeys(rows: map<Key, Record>, s: Schema, batch: seq<Record>)
    ensures InsertAbsent(rows, s, batch).rows.Keys == rows.Keys + KeySet(s, batch)
    decreases |batch|
  {
    if batch != [] {
      var p := Proposed(s, batch[0]);
      var k := KeyOf(s, p);
      if k in rows {
        InsertAbsentKeys(rows, s, batch[1..]);
      } else {
        InsertAbsentKeys(rows[k := p], s, batch[1..]);
      }
    }
  }

  /** The DO NOTHING count is the number of rows inserted. */
  lemma {:induction false} InsertAbsentCount(rows: map<Key, Record>, s: Schema, batch: seq<Record>)
    ensures |InsertAbsent(rows, s, batch).rows| == |rows| + InsertAbsent(rows, s, batch).count
    decreases |batch|
  {
    if batch != [] {
      var p := Proposed(s, batch[0]);
      var k := KeyOf(s, p);
      if k in rows {
        InsertAbsentCount(rows, s, batch[1..]);
      } else {
        InsertAbsentCount(rows[k := p], s, batch[1..]);
        assert |rows[k := p]| == |rows| + 1;
      }
    }
  }

  /** DO NOTHING never changes a stored row. */
  lemma {:induction false} InsertAbsentKeeps(rows: map<Key, Record>, s: Schema, batch: seq<Record>, k: Key)
    requires k in rows
    ensures k in InsertAbsent(rows, s, batch).rows && InsertAbsent(rows, s, batch).rows[k] == rows[k]
    decreases |batch|
  {
    InsertAbsentKeys(rows, s, batch);
    if batch != [] {
      var p := Proposed(s, batch[0]);
      var kp := KeyOf(s, p);
      if kp in rows {
        InsertAbsentKeeps(rows, s, batch[1..], k);
      } else {
        InsertAbsentKeeps(rows[kp := p], s, batch[1..], k);
      }
    }
  }

  /** A key that is new to the table is filled by the proposed row of the first
      record in the batch that carries it. */
  lemma {:induction false} InsertAbsentFirst(rows: map<Key, Record>, s: Schema, batch: seq<Record>, i: nat)
    requires i < |batch| && BatchKey(s, batch[i]) !in rows
    requires forall j :: 0 <= j < i ==> BatchKey(s, batch[j]) != BatchKey(s, batch[i])
    ensures BatchKey(s, batch[i]) in InsertAbsent(rows, s, batch).rows
    ensures InsertAbsent(rows, s, batch).rows[BatchKey(s, batch[i])] == Proposed(s, batch[i])
    decreases |batch|
  {
    var p0 := Proposed(s, batch[0]);
    var k0 := KeyOf(s, p0);
    if i == 0 {
      InsertAbsentKeeps(rows[k0 := p0], s, batch[1..], k0);
    } else {
      assert batch[1..][i - 1] == batch[i];
      assert BatchKey(s, batch[0]) != BatchKey(s, batch[i]);
      forall j | 0 <= j < i - 1
        ensures BatchKey(s, batch[1..][j]) != BatchKey(s, batch[1..][i - 1])
      {
        assert batch[1..][j] == batch[j + 1];
      }
      if k0 in rows {
        InsertAbsentFirst(rows, s, batch[1..], i - 1);
      } else {
        InsertAbsentFirst(rows[k0 := p0], s, batch[1..], i - 1);
      }
    }
  }

  /** DO NOTHING applied to a batch whose keys are all present changes nothing. */
  lemma {:induction false} InsertAbsentNone(rows: map<Key, Record>, s: Schema, batch: seq<Record>)
    requires KeySet(s, batch) <= rows.Keys
    ensures InsertAbsent(rows, s, batch) == Applied(rows, 0)
    decreases |batch|
  {
    if batch != [] {
      assert BatchKey(s, batch[0]) in KeySet(s, batch);
      forall k | k in KeySet(s, batch[1..])
        ensures k in rows
      {
        var j :| 0 <= j < |batch[1..]| && BatchKey(s, batch[1..][j]) == k;
        assert batch[1..][j] == batch[j + 1];
      }
      InsertAbsentNone(rows, s, batch[1..]);
    }
  }

  // ---------------------------------------------------------------------------
  // Well-formedness.

  predicate RowsOk(s: Schema, rows: map<Key, Record>) {
    forall k :: k in rows ==> rows[k].Keys == s.defaults.Keys && KeyOf(s, rows[k]) == k
  }

  predicate NoKeyUpdated(s: Schema, upd: set<string>) {
    forall c :: c in s.key ==> c !in upd
  }

  lemma MergeKeepsKey(s: Schema, stored: Record, p: Record, upd: set<string>)
    requires NoKeyUpdated(s, upd)
    requires forall c :: c in s.key ==> c in stored
    ensures KeyOf(s, Merge(stored, p, upd)) == KeyOf(s, stored)
  {
    KeyOfAgree(s, Merge(stored, p, upd), stored);
  }

  lemma {:induction false} UpsertAllOk(rows: map<Key, Record>, s: Schema, batch: seq<Record>, upd: set<string>)
    requires SchemaOk(s) && RowsOk(s, rows) && NoKeyUpdated(s, upd)
    ensures RowsOk(s, UpsertAll(rows, s, batch, upd))
    decreases |batch|
  {
    if batch != [] {
      var p := Proposed(s, batch[0]);
      var k := KeyOf(s, p);
      if k in rows {
        MergeKeepsKey(s, rows[k], p, upd);
      }
      UpsertAllOk(rows[k := if k in rows then Merge(rows[k], p, upd) else p], s, batch[1..], upd);
    }
  }

  lemma {:induction false} InsertAbsentOk(rows: map<Key, Record>, s: Schema, batch: seq<Record>)
    requires RowsOk(s, rows)
    ensures RowsOk(s, InsertAbsent(rows, s, batch).rows)
    decreases |batch|
  {
    if batch != [] {
      var p := Proposed(s, batch[0]);
      var k := KeyOf(s, p);
      if k in rows {
        InsertAbsentOk(rows, s, batch[1..]);
      } else {
        InsertAbsentOk(rows[k := p], s, batch[1..]);
      }
    }
  }

  /** The update columns never include a column of the unique constraint. */
  lemma UpdateSkipsKeys(s: Schema, uniqueKeys: seq<string>)
    requires SameKeys(uniqueKeys, s)
    ensures NoKeyUpdated(s, AsSet(UpdateColumns(s.columns, uniqueKeys)))
  {
  }

  /** A load keeps every table well formed. */
  lemma LoadKeepsWellFormed(db: Database, batch: seq<Record>, name: string, uniqueKeys: seq<string>)
    requires name in db && WellFormed(db[name])
    ensures WellFormed(Load(db, batch, name, uniqueKeys).db[name])
  {
    var t := db[name];
    if !EmptyFrame(batch) && ColumnsKnown(t.schema, batch) && SameKeys(uniqueKeys, t.schema) {
      var upd := UpdateColumns(t.schema.columns, uniqueKeys);
      if upd == [] {
        InsertAbsentOk(t.rows, t.schema, batch);
      } else if DistinctKeys(t.schema, batch) {
        UpdateSkipsKeys(t.schema, uniqueKeys);
        UpsertAllOk(t.rows, t.schema, batch, AsSet(upd));
      }
    }
  }

  // ---------------------------------------------------------------------------
  // What one load does to the target table.

  /** The table after a load holds exactly the keys it held before and the keys the
      batch proposed. */
  lemma LoadKeys(db: Database, batch: seq<Record>, name: string, uniqueKeys: seq<string>)
    requires !EmptyFrame(batch) && Load(db, batch, name, uniqueKeys).result.Success?
    ensures name in db
    ensures Load(db, batch, name, uniqueKeys).db[name].rows.Keys == db[name].rows.Keys + KeySet(db[name].schema, batch)
  {
    var t := db[name];
    var upd := UpdateColumns(t.schema.columns, uniqueKeys);
    if upd == [] {
      InsertAbsentKeys(t.rows, t.schema, batch);
    } else {
      UpsertAllKeys(t.rows, t.schema, batch, AsSet(upd));
    }
  }

  /** A stored row whose key the batch does not propose is left as it was. */
  lemma LoadLeavesOthers(db: Database, batch: seq<Record>, name: string, uniqueKeys: seq<string>, k: Key)
    requires name in db && k in db[name].rows && k !in KeySet(db[name].schema, batch)
    ensures k in Load(db, batch, name, uniqueKeys).db[name].rows
    ensures Load(db, batch, name, uniqueKeys).db[name].rows[k] == db[name].rows[k]
  {
    var t := db[name];
    if !EmptyFrame(batch) && ColumnsKnown(t.schema, batch) && SameKeys(uniqueKeys, t.schema) {
      var upd := UpdateColumns(t.schema.columns, uniqueKeys);
      if upd == [] {
        InsertAbsentKeeps(t.rows, t.schema, batch, k);
      } else if DistinctKeys(t.schema, batch) {
        UpsertAllOthers(t.rows, t.schema, batch, AsSet(upd), k);
      }
    }
  }

  /** When every column is a key or `created_at`, DO NOTHING applies: no stored row
      changes, and the count is the number of rows the table gained. */
  lemma LoadDoNothing(db: Database, batch: seq<Record>, name: string, uniqueKeys: seq<string>)
    requires name in db && UpdateColumns(db[name].schema.columns, uniqueKeys) == []
    ensures var o := Load(db, batch, name, uniqueKeys);
      && (forall k :: k in db[name].rows ==> k in o.db[name].rows && o.db[name].rows[k] == db[name].rows[k])
      && (o.result.Success? ==> o.result.value + |db[name].rows| == |o.db[name].rows|)
  {
    var t := db[name];
    if !EmptyFrame(batch) && ColumnsKnown(t.schema, batch) && SameKeys(uniqueKeys, t.schema) {
      InsertAbsentKeys(t.rows, t.schema, batch);
      InsertAbsentCount(t.rows, t.schema, batch);
      forall k | k in t.rows
        ensures k in InsertAbsent(t.rows, t.schema, batch).rows && InsertAbsent(t.rows, t.schema, batch).rows[k] == t.rows[k]
      {
        InsertAbsentKeeps(t.rows, t.schema, batch, k);
      }
    }
  }

  /** Under DO UPDATE, a record whose key is stored overwrites every update column
      with its proposed value and keeps the key columns and `created_at`; a record
      whose key is new is inserted as proposed. The count is the batch size. */
  lemma LoadDoUpdate(db: Database, batch: seq<Record>, name: string, uniqueKeys: seq<string>, i: nat)
    requires name in db && WellFormed(db[name])
    requires UpdateColumns(db[name].schema.columns, uniqueKeys) != []
    requires !EmptyFrame(batch) && Load(db, batch, name, uniqueKeys).result.Success? && i < |batch|
    ensures Load(db, batch, name, uniqueKeys).result.value == |batch|
    ensures var t := db[name]; var p := Proposed(t.schema, batch[i]); var k := KeyOf(t.schema, p);
      var rows' := Load(db, batch, name, uniqueKeys).db[name].rows;
      && k in rows'
      && (k !in t.rows ==> rows'[k] == p)
      && (k in t.rows ==> rows'[k].Keys == t.rows[k].Keys)
      && (k in t.rows ==> forall c :: c in t.rows[k] ==>
            rows'[k][c] == (if c in uniqueKeys || c == "created_at" then t.rows[k][c] else p[c]))
  {
    var t := db[name];
    var upd := UpdateColumns(t.schema.columns, uniqueKeys);
    UpsertAllAt(t.rows, t.schema, batch, AsSet(upd), i);
  }

  lemma MergeTwice(stored: Record, p: Record, u: set<string>)
    ensures Merge(Merge(stored, p, u), p, u) == Merge(stored, p, u)
  {
  }

  lemma MergeSelf(p: Record, u: set<string>)
    ensures Merge(p, p, u) == p
  {
  }

  lemma UpsertAllTwiceAt(rows: map<Key, Record>, s: Schema, batch: seq<Record>, u: set<string>, k: Key)
    requires DistinctKeys(s, batch)
    requires k in UpsertAll(UpsertAll(rows, s, batch, u), s, batch, u)
    ensures k in UpsertAll(rows, s, batch, u)
    ensures UpsertAll(UpsertAll(rows, s, batch, u), s, batch, u)[k] == UpsertAll(rows, s, batch, u)[k]
  {
    var once := UpsertAll(rows, s, batch, u);
    UpsertAllKeys(rows, s, batch, u);
    UpsertAllKeys(once, s, batch, u);
    if k in KeySet(s, batch) {
      var i :| 0 <= i < |batch| && BatchKey(s, batch[i]) == k;
      var p := Proposed(s, batch[i]);
      UpsertAllAt(once, s, batch, u, i);
      UpsertAllAt(rows, s, batch, u, i);
      if k in rows {
        MergeTwice(rows[k], p, u);
      } else {
        MergeSelf(p, u);
      }
    } else {
      UpsertAllOthers(once, s, batch, u, k);
    }
  }

  /** DO UPDATE of a batch with distinct keys, applied twice, is applied once. */
  lemma UpsertAllTwice(rows: map<Key, Record>, s: Schema, batch: seq<Record>, u: set<string>)
    requires DistinctKeys(s, batch)
    ensures UpsertAll(UpsertAll(rows, s, batch, u), s, batch, u) == UpsertAll(rows, s, batch, u)
  {
    var once := UpsertAll(rows, s, batch, u);
    var twice := UpsertAll(once, s, batch, u);
    UpsertAllKeys(rows, s, batch, u);
    UpsertAllKeys(once, s, batch, u);
    forall k | k in twice
      ensures twice[k] == once[k]
    {
      UpsertAllTwiceAt(rows, s, batch, u, k);
    }
  }

  /** Loading the same batch a second time leaves the database as the first load
      left it. */
  lemma LoadIdempotent(db: Database, batch: seq<Record>, name: string, uniqueKeys: seq<string>)
    requires name in db
    ensures var once := Load(db, batch, name, uniqueKeys).db;
      Load(once, batch, name, uniqueKeys).db == once
  {
    var t := db[name];
    var once := Load(db, batch, name, uniqueKeys);
    if !EmptyFrame(batch) && ColumnsKnown(t.schema, batch) && SameKeys(uniqueKeys, t.schema) && once.result.Success? {
      var s := t.schema;
      var upd := UpdateColumns(s.columns, uniqueKeys);
      if upd == [] {
        var a := InsertAbsent(t.rows, s, batch);
        InsertAbsentKeys(t.rows, s, batch);
        InsertAbsentNone(a.rows, s, batch);
      } else {
        UpsertAllTwice(t.rows, s, batch, AsSet(upd));
      }
    }
  }
}
