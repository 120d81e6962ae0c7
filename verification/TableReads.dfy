/** Reading tables, the invariant of the stored rows, and the applicator as it runs on a transaction. */
module TableReads {
  import opened RelosCore
  import opened KeyCodec
  import opened LocalStore
  import opened Table

  // ---- get and scan ----

  method Get(txn: ReadTxn, table: Name, key: seq<Value>) returns (r: Result<Option<Row>>)
    ensures RowKey(table, key) !in txn.snapshot ==> r == Ok(None)
    ensures RowKey(table, key) in txn.snapshot && txn.snapshot[RowKey(table, key)].RowCell? ==>
              r == Ok(Some(txn.snapshot[RowKey(table, key)].row))
    ensures r.Err? ==> r.error == Serialization
    ensures forall db: Database :: Represents(txn.snapshot, db) ==>
              r == Ok(if table in db && key in db[table].rows then Some(db[table].rows[key]) else None)
  {
    var cell := txn.Get(RowKey(table, key));
    match cell {
      case None => r := Ok(None);
      case Some(RowCell(row)) => r := Ok(Some(row));
      case Some(_) => r := Err(Serialization);
    }
    forall db: Database | Represents(txn.snapshot, db)
      ensures r == Ok(if table in db && key in db[table].rows then Some(db[table].rows[key]) else None)
    {
      assert HasRow(txn.snapshot, db, table, key);
    }
  }

  /** Builds the list of rows behind the table's prefix, in key order. */
  method Scan(txn: ReadTxn, table: Name) returns (r: Result<seq<Row>>)
    ensures var ks := ScanKeys(txn.snapshot, RowPrefix(table));
            r.Ok? ==> |r.value| == |ks| && forall i :: 0 <= i < |ks| ==> ks[i] in txn.snapshot && txn.snapshot[ks[i]] == RowCell(r.value[i])
    ensures r.Err? ==> r.error == Serialization && exists k :: k in txn.snapshot && RowPrefix(table) <= k && !txn.snapshot[k].RowCell?
  {
    var prefix := RowPrefix(table);
    ScanExact(txn.snapshot, prefix);
    var entries := ScanPrefix(txn.snapshot, prefix);
    var rows: seq<Row> := [];
    for i := 0 to |entries|
      invariant |rows| == i
      invariant forall j :: 0 <= j < i ==> entries[j].1 == RowCell(rows[j])
    {
      if !entries[i].1.RowCell? {
        assert entries[i].0 in ScanKeys(txn.snapshot, prefix);
        return Err(Serialization);
      }
      rows := rows + [entries[i].1.row];
    }
    return Ok(rows);
  }

  /** The scan of t meets rows of t only, exactly when no other table with rows continues its name. */
  lemma ScanOwnRowsIff(st: Data, db: Database, t: Name)
    requires Represents(st, db)
    ensures (forall k :: k in ScanKeys(st, RowPrefix(t)) ==> exists pk :: k == RowKey(t, pk)) <==> Detached(db, t)
  {
    var ks := ScanKeys(st, RowPrefix(t));
    ScanExact(st, RowPrefix(t));
    if Detached(db, t) {
      forall k | k in ks ensures exists pk :: k == RowKey(t, pk) {
        var _ := ScannedRow(st, db, t, k);
      }
    } else {
      var u :| u in db && t + [SLASH] <= u && db[u].rows != map[];
      var pk :| pk in db[u].rows;
      assert HasRow(st, db, u, pk);
      PrefixCovers(t, u, pk);
      assert RowKey(u, pk) in ks;
      if exists qk :: RowKey(u, pk) == RowKey(t, qk) {
        var qk :| RowKey(u, pk) == RowKey(t, qk);
        RowKeyInjective(u, pk, t, qk);
        LongerName(t, u);
      }
    }
  }

  lemma LongerName(t: Name, u: Name)
    requires t + [SLASH] <= u
    ensures t != u
  {
  }

  lemma ScannedRow(st: Data, db: Database, t: Name, k: Key) returns (pk: seq<Value>)
    requires Represents(st, db) && Detached(db, t) && k in st && RowPrefix(t) <= k
    ensures k == RowKey(t, pk) && t in db && pk in db[t].rows && st[k] == RowCell(db[t].rows[pk])
  {
    assert KnownKey(k);
    KeyKindsDisjoint(t, t, []);
    forall n ensures k != SchemaKey(n) {
      KeyKindsDisjoint(n, t, []);
    }
    var u, qk :| k == RowKey(u, qk);
    PrefixCovers(t, u, qk);
    assert HasRow(st, db, u, qk);
    pk := qk;
  }

  /** Key i of the scan is the key of row pks[i] of t. */
  ghost predicate ListsRow(st: Data, db: Database, t: Name, ks: seq<Key>, pks: seq<seq<Value>>, i: nat)
    requires i < |ks| && i < |pks|
  {
    && ks[i] == RowKey(t, pks[i]) && t in db && pks[i] in db[t].rows
    && ks[i] in st && st[ks[i]] == RowCell(db[t].rows[pks[i]])
  }

  lemma ScannedRows(st: Data, db: Database, t: Name, ks: seq<Key>) returns (pks: seq<seq<Value>>)
    requires Represents(st, db) && Detached(db, t)
    requires forall k :: k in ks ==> k in st && RowPrefix(t) <= k
    ensures |pks| == |ks| && forall i :: 0 <= i < |ks| ==> ListsRow(st, db, t, ks, pks, i)
  {
    pks := [];
    for n := 0 to |ks|
      invariant |pks| == n
      invariant forall i :: 0 <= i < n ==> ListsRow(st, db, t, ks, pks, i)
    {
      assert ks[n] in ks;
      var pk := ScannedRow(st, db, t, ks[n]);
      var longer := pks + [pk];
      forall i | 0 <= i < n + 1 ensures ListsRow(st, db, t, ks, longer, i) {
        if i < n { assert ListsRow(st, db, t, ks, pks, i); }
      }
      pks := longer;
    }
  }

  /** Then the scan lists every row of t once, in key order. */
  lemma ScanListsTable(st: Data, db: Database, t: Name) returns (pks: seq<seq<Value>>)
    requires Represents(st, db) && Detached(db, t)
    ensures var ks := ScanKeys(st, RowPrefix(t));
            && |pks| == |ks|
            && (forall i :: 0 <= i < |ks| ==> ListsRow(st, db, t, ks, pks, i))
            && (forall i, j :: 0 <= i < j < |pks| ==> pks[i] != pks[j])
            && (forall pk :: t in db && pk in db[t].rows ==> pk in pks)
  {
    var ks := ScanKeys(st, RowPrefix(t));
    ScanExact(st, RowPrefix(t));
    pks := ScannedRows(st, db, t, ks);
    forall i, j | 0 <= i < j < |pks| ensures pks[i] != pks[j] {
      assert ListsRow(st, db, t, ks, pks, i) && ListsRow(st, db, t, ks, pks, j);
      assert ks[i] != ks[j];
    }
    forall pk | t in db && pk in db[t].rows ensures pk in pks {
      assert HasRow(st, db, t, pk);
      PrefixCovers(t, t, pk);
      var i :| 0 <= i < |ks| && ks[i] == RowKey(t, pk);
      assert ListsRow(st, db, t, ks, pks, i);
      RowKeyInjective(t, pk, t, pks[i]);
    }
  }

  // ---- The invariant of the stored rows, for all names ----

  ghost predicate SchemaOk(st: Data, t: Name) {
    SchemaKey(t) in st ==> st[SchemaKey(t)].SchemaCell? && st[SchemaKey(t)].schema.name == t
  }

  /** The row's table has a schema, the row has as many values as the schema has columns, and it sits
      under the key made of its own primary-key values. */
  ghost predicate RowOk(st: Data, t: Name, pk: seq<Value>) {
    RowKey(t, pk) in st ==>
      && SchemaKey(t) in st && st[SchemaKey(t)].SchemaCell? && st[RowKey(t, pk)].RowCell?
      && |st[RowKey(t, pk)].row.values| == |st[SchemaKey(t)].schema.columns|
      && PkOf(st[SchemaKey(t)].schema, st[RowKey(t, pk)].row) == Ok(pk)
  }

  ghost predicate TableInv(st: Data) {
    (forall t :: SchemaOk(st, t)) && (forall t, pk :: RowOk(st, t, pk))
  }

  lemma CreateKeepsInv(st: Data, schema: TableSchema)
    requires TableInv(st)
    ensures TableInv(ApplyCreate(st, schema).value.0)
  {
    var n := schema.name;
    if SchemaKey(n) !in st {
      var st' := st[SchemaKey(n) := SchemaCell(schema)];
      forall t ensures SchemaOk(st', t) {
        assert SchemaOk(st, t);
        if SchemaKey(t) == SchemaKey(n) { SchemaKeyInjective(t, n); }
      }
      forall t, pk ensures RowOk(st', t, pk) {
        assert RowOk(st, t, pk);
        KeyKindsDisjoint(n, t, pk);
      }
    }
  }

  lemma DropKeepsInv(st: Data, n: Name)
    requires TableInv(st)
    ensures TableInv(ApplyDrop(st, n).value.0)
  {
    if SchemaKey(n) in st {
      var st' := ApplyDrop(st, n).value.0;
      forall t ensures SchemaOk(st', t) {
        assert SchemaOk(st, t);
      }
      forall t, pk ensures RowOk(st', t, pk) {
        assert RowOk(st, t, pk);
        PrefixCovers(n, t, pk);
        KeyKindsDisjoint(t, n, pk);
        if SchemaKey(t) == SchemaKey(n) { SchemaKeyInjective(t, n); }
      }
    }
  }

  lemma PutKeepsInv(st: Data, n: Name, row: Row)
    requires TableInv(st) && ApplyPut(st, n, row).Ok?
    ensures TableInv(ApplyPut(st, n, row).value.0)
  {
    assert SchemaOk(st, n);
    var st' := ApplyPut(st, n, row).value.0;
    if st' != st {
      var key := PkOf(st[SchemaKey(n)].schema, row).value;
      forall t ensures SchemaOk(st', t) {
        assert SchemaOk(st, t);
        KeyKindsDisjoint(t, n, key);
      }
      forall t, pk ensures RowOk(st', t, pk) {
        assert RowOk(st, t, pk);
        KeyKindsDisjoint(t, n, key);
        if RowKey(t, pk) == RowKey(n, key) { RowKeyInjective(t, pk, n, key); }
      }
    }
  }

  lemma DeleteKeepsInv(st: Data, n: Name, key: seq<Value>)
    requires TableInv(st) && ApplyDelete(st, n, key).Ok?
    ensures TableInv(ApplyDelete(st, n, key).value.0)
  {
    var st' := ApplyDelete(st, n, key).value.0;
    if st' != st {
      forall t ensures SchemaOk(st', t) {
        assert SchemaOk(st, t);
      }
      forall t, pk ensures RowOk(st', t, pk) {
        assert RowOk(st, t, pk);
        KeyKindsDisjoint(t, n, key);
      }
    }
  }

  /** In every store reached by commands on any table names, slashes or not, the invariant holds and
      nothing stored ever fails to decode. */
  lemma {:induction false} TableInvariant(st: Data, cmds: seq<TableCommand>)
    requires TableInv(st)
    ensures TableInv(RunTable(st, cmds).state)
    ensures RunTable(st, cmds).failed.Some? ==> RunTable(st, cmds).failed.value == InvalidOperation
    decreases |cmds|
  {
    if cmds != [] {
      CommandKeepsInv(st, cmds[0]);
      if ApplyCommand(st, cmds[0]).Ok? {
        TableInvariant(ApplyCommand(st, cmds[0]).value.0, cmds[1..]);
      }
    }
  }

  lemma CommandKeepsInv(st: Data, cmd: TableCommand)
    requires TableInv(st)
    ensures ApplyCommand(st, cmd).Ok? ==> TableInv(ApplyCommand(st, cmd).value.0)
    ensures ApplyCommand(st, cmd).Err? ==> ApplyCommand(st, cmd) == Err(InvalidOperation)
  {
    match cmd
    case CreateTable(schema) => CreateKeepsInv(st, schema);
    case DropTable(t) => DropKeepsInv(st, t);
    case Put(t, row) =>
      assert SchemaOk(st, t);
      if ApplyPut(st, t, row).Ok? { PutKeepsInv(st, t, row); }
      else { KeyExtracts(st[SchemaKey(t)].schema.columns, st[SchemaKey(t)].schema.primaryKey, row); }
    case Delete(t, key) =>
      assert SchemaOk(st, t);
      DeleteKeepsInv(st, t, key);
  }

  // ---- The applicator on a transaction ----

  method ExtractPrimaryKey(schema: TableSchema, row: Row) returns (r: Result<seq<Value>>)
    ensures r == PkOf(schema, row)
    ensures r.Ok? ==> |r.value| == |schema.primaryKey|
    ensures r.Ok? ==> forall i :: 0 <= i < |schema.primaryKey| ==> HasValue(schema.columns, schema.primaryKey[i], row, r.value[i])
  {
    var pk: seq<Value> := [];
    var names := schema.primaryKey;
    assert names[0..] == names && forall ws: seq<Value> :: pk + ws == ws;
    for n := 0 to |names|
      invariant PkOf(schema, row) == Prepend(pk, ExtractPk(schema.columns, names[n..], row))
    {
      var idx := ColumnIndex(schema.columns, names[n]);
      assert names[n..][0] == names[n] && names[n..][1..] == names[n + 1..];
      if idx.None? {
        return Err(InvalidOperation);
      }
      if idx.value >= |row.values| {
        return Err(InvalidOperation);
      }
      var rest := ExtractPk(schema.columns, names[n + 1..], row);
      assert rest.Ok? ==> pk + ([row.values[idx.value]] + rest.value) == pk + [row.values[idx.value]] + rest.value;
      pk := pk + [row.values[idx.value]];
    }
    assert pk + [] == pk;
    PrimaryKeyIs(schema.columns, schema.primaryKey, row, pk);
    return Ok(pk);
  }

  function Prepend(vs: seq<Value>, r: Result<seq<Value>>): Result<seq<Value>> {
    match r
    case Ok(ws) => Ok(vs + ws)
    case Err(e) => Err(e)
  }

  /** Deletes the schema, then every row behind the table's prefix one at a time. */
  method DropTableIn(txn: WriteTxn, table: Name) returns (r: Result<ReturnValue>)
    modifies txn
    ensures r.Ok? && ApplyDrop(old(txn.working), table) == Ok((txn.working, r.value))
    ensures txn.committed == old(txn.committed)
  {
    var schema := txn.Get(SchemaKey(table));
    if schema.None? {
      return Ok(Data(TableError));
    }
    txn.Delete(SchemaKey(table));
    ghost var start := txn.working;
    var prefix := RowPrefix(table);
    ScanExact(txn.working, prefix);
    var rows := txn.PrefixScan(prefix);
    for i := 0 to |rows|
      invariant txn.working.Keys <= start.Keys
      invariant forall k :: k in txn.working ==> txn.working[k] == start[k]
      invariant forall k :: k in start && !(prefix <= k) ==> k in txn.working
      invariant forall j :: 0 <= j < i ==> rows[j].0 !in txn.working
      invariant txn.committed == old(txn.committed)
    {
      assert rows[i].0 in ScanKeys(start, prefix);
      txn.Delete(rows[i].0);
    }
    forall k | k in start && prefix <= k ensures k !in txn.working {
      var ks := ScanKeys(start, prefix);
      var i :| 0 <= i < |ks| && ks[i] == k;
      assert rows[i].0 == k;
    }
    assert txn.working == ApplyDrop(old(txn.working), table).value.0;
    return Ok(Data(TableOk));
  }

  method PutIn(txn: WriteTxn, table: Name, row: Row) returns (r: Result<ReturnValue>)
    modifies txn
    ensures match ApplyPut(old(txn.working), table, row)
            case Ok((st, reply)) => r == Ok(reply) && txn.working == st
            case Err(e) => r == Err(e) && txn.working == old(txn.working)
    ensures txn.committed == old(txn.committed)
  {
    var cell := txn.Get(SchemaKey(table));
    if cell.None? {
      return Ok(Data(TableError));
    }
    if !cell.value.SchemaCell? {
      return Err(Serialization);
    }
    var schema := cell.value.schema;
    if |row.values| != |schema.columns| {
      return Ok(Data(TableError));
    }
    var pk := ExtractPrimaryKey(schema, row);
    if pk.Err? {
      return Err(pk.error);
    }
    txn.Put(RowKey(table, pk.value), RowCell(row));
    return Ok(Data(TableOk));
  }

  /** One command inside a transaction; on an error the caller drops the transaction. */
  method ApplyIn(txn: WriteTxn, payload: Payload) returns (r: Result<ReturnValue>)
    modifies txn
    ensures !payload.CommandPayload? ==> r == Err(Serialization) && txn.working == old(txn.working)
    ensures payload.CommandPayload? ==>
              match ApplyCommand(old(txn.working), payload.cmd)
              case Ok((st, reply)) => r == Ok(reply) && txn.working == st
              case Err(e) => r == Err(e) && txn.working == old(txn.working)
    ensures txn.committed == old(txn.committed)
  {
    if !payload.CommandPayload? {
      return Err(Serialization);
    }
    match payload.cmd {
      case CreateTable(schema) =>
        var cell := txn.Get(SchemaKey(schema.name));
        if cell.Some? {
          return Ok(Data(TableError));
        }
        txn.Put(SchemaKey(schema.name), SchemaCell(schema));
        return Ok(Data(TableOk));
      case DropTable(table) =>
        r := DropTableIn(txn, table);
      case Put(table, row) =>
        r := PutIn(txn, table, row);
      case Delete(table, key) =>
        var cell := txn.Get(SchemaKey(table));
        if cell.None? {
          return Ok(Data(TableError));
        }
        if !cell.value.SchemaCell? {
          return Err(Serialization);
        }
        txn.Delete(RowKey(table, key));
        return Ok(Data(TableOk));
    }
  }
}
