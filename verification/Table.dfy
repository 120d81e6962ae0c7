/** The table applicator on the flat store, and the relational database it stands for. */
module Table {
  import opened RelosCore
  import opened KeyCodec
  import opened LocalStore

  // ---- Commands on the flat store ----

  function LoadSchema(st: Data, table: Name): Result<Option<TableSchema>> {
    if SchemaKey(table) !in st then Ok(None)
    else if st[SchemaKey(table)].SchemaCell? then Ok(Some(st[SchemaKey(table)].schema))
    else Err(Serialization)
  }

  /** The index of the first column with this name. */
  function ColumnIndex(columns: seq<ColumnDef>, name: Name): (r: Option<nat>)
    ensures r.Some? ==> r.value < |columns| && columns[r.value].name == name
  {
    if columns == [] then None
    else if columns[0].name == name then Some(0)
    else match ColumnIndex(columns[1..], name)
         case Some(i) => Some(i + 1)
         case None => None
  }

  /** The primary-key values of a row, for the named key columns. */
  function ExtractPk(columns: seq<ColumnDef>, names: seq<Name>, row: Row): Result<seq<Value>> {
    if names == [] then Ok([])
    else match ColumnIndex(columns, names[0])
         case None => Err(InvalidOperation)
         case Some(i) =>
           if i >= |row.values| then Err(InvalidOperation)
           else match ExtractPk(columns, names[1..], row)
                case Ok(vs) => Ok([row.values[i]] + vs)
                case Err(e) => Err(e)
  }

  function PkOf(schema: TableSchema, row: Row): Result<seq<Value>> {
    ExtractPk(schema.columns, schema.primaryKey, row)
  }

  /** Column j is the first with this name. */
  ghost predicate IsColumn(columns: seq<ColumnDef>, name: Name, j: nat) {
    j < |columns| && columns[j].name == name && forall i :: 0 <= i < j ==> columns[i].name != name
  }

  lemma {:induction false} ColumnIndexIsFirst(columns: seq<ColumnDef>, name: Name)
    ensures forall j: nat :: IsColumn(columns, name, j) <==> ColumnIndex(columns, name) == Some(j)
    ensures ColumnIndex(columns, name).None? <==> forall j :: 0 <= j < |columns| ==> columns[j].name != name
  {
    if columns != [] {
      var rest := columns[1..];
      assert forall j :: 0 < j < |columns| ==> columns[j] == rest[j - 1];
      ColumnIndexIsFirst(rest, name);
      forall j: nat ensures IsColumn(columns, name, j) <==> ColumnIndex(columns, name) == Some(j) {
        if columns[0].name != name && j > 0 {
          assert IsColumn(columns, name, j) <==> IsColumn(rest, name, j - 1);
        }
      }
    }
  }

  /** v is the row's value in the first column with this name. */
  ghost predicate HasValue(columns: seq<ColumnDef>, name: Name, row: Row, v: Value) {
    exists j: nat :: IsColumn(columns, name, j) && j < |row.values| && row.values[j] == v
  }

  /** The primary key is, in the order in which the key columns are named, the row's value in each. */
  lemma {:induction false} PrimaryKeyIs(columns: seq<ColumnDef>, names: seq<Name>, row: Row, vs: seq<Value>)
    ensures ExtractPk(columns, names, row) == Ok(vs) <==>
            |vs| == |names| && forall i :: 0 <= i < |names| ==> HasValue(columns, names[i], row, vs[i])
    decreases |names|
  {
    if names == [] {
      assert vs == [] <==> |vs| == 0;
    } else {
      ColumnIndexIsFirst(columns, names[0]);
      if vs != [] {
        PrimaryKeyIs(columns, names[1..], row, vs[1..]);
        assert vs == [vs[0]] + vs[1..];
        assert forall i :: 0 < i < |names| ==> names[i] == names[1..][i - 1];
        assert forall i :: 0 < i < |vs| ==> vs[i] == vs[1..][i - 1];
        FirstAndRest(columns, names, row, vs);
      }
    }
  }

  lemma FirstAndRest(columns: seq<ColumnDef>, names: seq<Name>, row: Row, vs: seq<Value>)
    requires names != [] && vs != []
    ensures (|vs| == |names| && forall i :: 0 <= i < |names| ==> HasValue(columns, names[i], row, vs[i])) <==>
            (HasValue(columns, names[0], row, vs[0]) && |vs[1..]| == |names[1..]|
             && forall i :: 0 <= i < |names[1..]| ==> HasValue(columns, names[1..][i], row, vs[1..][i]))
  {
    if HasValue(columns, names[0], row, vs[0]) && |vs[1..]| == |names[1..]|
       && forall i :: 0 <= i < |names[1..]| ==> HasValue(columns, names[1..][i], row, vs[1..][i])
    {
      forall i | 0 <= i < |names| ensures HasValue(columns, names[i], row, vs[i]) {
        if i > 0 { assert HasValue(columns, names[1..][i - 1], row, vs[1..][i - 1]); }
      }
    }
    if |vs| == |names| && forall i :: 0 <= i < |names| ==> HasValue(columns, names[i], row, vs[i]) {
      forall i | 0 <= i < |names[1..]| ensures HasValue(columns, names[1..][i], row, vs[1..][i]) {
        assert HasValue(columns, names[i + 1], row, vs[i + 1]);
      }
    }
  }

  type Step<S> = Result<(S, ReturnValue)>

  function Done<S>(s: S): Step<S> { Ok((s, Data(TableOk))) }

  function Refused<S>(s: S): Step<S> { Ok((s, Data(TableError))) }

  function ApplyCreate(st: Data, schema: TableSchema): Step<Data> {
    if SchemaKey(schema.name) in st then Refused(st)
    else Done(st[SchemaKey(schema.name) := SchemaCell(schema)])
  }

  function ApplyDrop(st: Data, table: Name): Step<Data> {
    if SchemaKey(table) !in st then Refused(st)
    else Done(map k | k in st && k != SchemaKey(table) && !(RowPrefix(table) <= k) :: st[k])
  }

  function ApplyPut(st: Data, table: Name, row: Row): Step<Data> {
    match LoadSchema(st, table)
    case Err(e) => Err(e)
    case Ok(None) => Refused(st)
    case Ok(Some(schema)) =>
      if |row.values| != |schema.columns| then Refused(st)
      else match PkOf(schema, row)
           case Err(e) => Err(e)
           case Ok(pk) => Done(st[RowKey(table, pk) := RowCell(row)])
  }

  function ApplyDelete(st: Data, table: Name, key: seq<Value>): Step<Data> {
    match LoadSchema(st, table)
    case Err(e) => Err(e)
    case Ok(None) => Refused(st)
    case Ok(Some(_)) => Done(st - {RowKey(table, key)})
  }

  function ApplyCommand(st: Data, cmd: TableCommand): Step<Data> {
    match cmd
    case CreateTable(schema) => ApplyCreate(st, schema)
    case DropTable(table) => ApplyDrop(st, table)
    case Put(table, row) => ApplyPut(st, table, row)
    case Delete(table, key) => ApplyDelete(st, table, key)
  }

  // ---- The relational database ----

  datatype Relation = Relation(schema: TableSchema, rows: map<seq<Value>, Row>)

  type Database = map<Name, Relation>

  function RelCommand(db: Database, cmd: TableCommand): Step<Database> {
    match cmd
    case CreateTable(schema) =>
      if schema.name in db then Refused(db) else Done(db[schema.name := Relation(schema, map[])])
    case DropTable(table) =>
      if table !in db then Refused(db) else Done(db - {table})
    case Put(table, row) =>
      if table !in db then Refused(db)
      else if |row.values| != |db[table].schema.columns| then Refused(db)
      else (match PkOf(db[table].schema, row)
            case Err(e) => Err(e)
            case Ok(pk) => Done(db[table := db[table].(rows := db[table].rows[pk := row])]))
    case Delete(table, key) =>
      if table !in db then Refused(db)
      else Done(db[table := db[table].(rows := db[table].rows - {key})])
  }

  /** Every key column that the schema names is one of its columns. */
  ghost predicate KeyColumnsKnown(schema: TableSchema) {
    forall i :: 0 <= i < |schema.primaryKey| ==> HasColumn(schema.columns, schema.primaryKey[i])
  }

  ghost predicate HasColumn(columns: seq<ColumnDef>, name: Name) {
    exists j :: 0 <= j < |columns| && columns[j].name == name
  }

  /** The command does what it says: a create of a new table, a drop of or delete from an existing one, a
      put of a row of the right width into one whose key columns exist. */
  ghost predicate Acceptable(db: Database, cmd: TableCommand) {
    match cmd
    case CreateTable(schema) => schema.name !in db
    case DropTable(table) => table in db
    case Put(table, row) => table in db && |row.values| == |db[table].schema.columns| && KeyColumnsKnown(db[table].schema)
    case Delete(table, _) => table in db
  }

  /** A command is answered Ok exactly when it is acceptable, fails exactly when it puts a row of the right
      width into a table with an unknown key column, and is refused, changing nothing, otherwise. */
  lemma AnswerIff(db: Database, cmd: TableCommand)
    ensures var r := RelCommand(db, cmd);
            && (r.Ok? && r.value.1 == RelosCore.Data(TableOk) <==> Acceptable(db, cmd))
            && (r.Err? <==> cmd.Put? && cmd.table in db && |cmd.row.values| == |db[cmd.table].schema.columns|
                            && !KeyColumnsKnown(db[cmd.table].schema))
            && (r.Err? ==> r.error == InvalidOperation)
            && (r.Ok? && r.value.1 != RelosCore.Data(TableOk) ==> r.value == (db, RelosCore.Data(TableError)))
  {
    if cmd.Put? && cmd.table in db && |cmd.row.values| == |db[cmd.table].schema.columns| {
      KeyExtracts(db[cmd.table].schema.columns, db[cmd.table].schema.primaryKey, cmd.row);
    }
  }

  /** On a row of the right width the key can be extracted exactly if every key column is a column. */
  lemma {:induction false} KeyExtracts(columns: seq<ColumnDef>, names: seq<Name>, row: Row)
    requires |row.values| == |columns|
    ensures ExtractPk(columns, names, row).Ok? <==> forall i :: 0 <= i < |names| ==> HasColumn(columns, names[i])
    ensures ExtractPk(columns, names, row).Err? ==> ExtractPk(columns, names, row).error == InvalidOperation
    decreases |names|
  {
    if names != [] {
      ColumnIndexIsFirst(columns, names[0]);
      KeyExtracts(columns, names[1..], row);
      AllNames(columns, names);
    }
  }

  lemma AllNames(columns: seq<ColumnDef>, names: seq<Name>)
    requires names != []
    ensures (forall i :: 0 <= i < |names| ==> HasColumn(columns, names[i])) <==>
            (HasColumn(columns, names[0]) && forall i :: 0 <= i < |names[1..]| ==> HasColumn(columns, names[1..][i]))
  {
    assert forall i :: 0 <= i < |names[1..]| ==> names[1..][i] == names[i + 1];
    if HasColumn(columns, names[0]) && forall i :: 0 <= i < |names[1..]| ==> HasColumn(columns, names[1..][i]) {
      forall i | 0 <= i < |names| ensures HasColumn(columns, names[i]) {
        if i > 0 { assert names[i] == names[1..][i - 1]; }
      }
    }
  }

  ghost predicate HasSchema(st: Data, db: Database, t: Name) {
    if t in db then SchemaKey(t) in st && st[SchemaKey(t)] == SchemaCell(db[t].schema)
    else SchemaKey(t) !in st
  }

  ghost predicate HasRow(st: Data, db: Database, t: Name, pk: seq<Value>) {
    if t in db && pk in db[t].rows then RowKey(t, pk) in st && st[RowKey(t, pk)] == RowCell(db[t].rows[pk])
    else RowKey(t, pk) !in st
  }

  ghost predicate KnownKey(k: Key) {
    k == CURSOR_KEY || (exists t :: k == SchemaKey(t)) || (exists t, pk :: k == RowKey(t, pk))
  }

  /** The flat store holds exactly the schemas and rows of the database, and the cursor. */
  ghost predicate Represents(st: Data, db: Database) {
    && (forall t :: HasSchema(st, db, t))
    && (forall t, pk :: HasRow(st, db, t, pk))
    && (forall k :: k in st ==> KnownKey(k))
  }

  /** No other table with rows continues this name after a slash. */
  ghost predicate Detached(db: Database, t: Name) {
    forall u :: u in db && t + [SLASH] <= u ==> db[u].rows == map[]
  }

  // ---- Each command does to the store what it does to the database ----

  lemma CreateSimulates(st: Data, db: Database, schema: TableSchema)
    requires Represents(st, db)
    ensures Simulates(ApplyCreate(st, schema), RelCommand(db, CreateTable(schema)))
  {
    var n := schema.name;
    assert HasSchema(st, db, n);
    if n !in db {
      var st', db' := st[SchemaKey(n) := SchemaCell(schema)], db[n := Relation(schema, map[])];
      forall t ensures HasSchema(st', db', t) {
        assert HasSchema(st, db, t);
        if t != n && SchemaKey(t) == SchemaKey(n) { SchemaKeyInjective(t, n); }
      }
      forall t, pk ensures HasRow(st', db', t, pk) {
        assert HasRow(st, db, t, pk);
        KeyKindsDisjoint(n, t, pk);
      }
    }
  }

  /** Same answer, and related states unless both fail. */
  ghost predicate Simulates(r: Step<Data>, q: Step<Database>) {
    match q
    case Ok((db, reply)) => r.Ok? && r.value.1 == reply && Represents(r.value.0, db)
    case Err(e) => r == Err(e)
  }

  lemma SetRowSimulates(st: Data, db: Database, t: Name, pk: seq<Value>, row: Row)
    requires Represents(st, db) && t in db
    ensures Represents(st[RowKey(t, pk) := RowCell(row)], db[t := db[t].(rows := db[t].rows[pk := row])])
  {
    var st', db' := st[RowKey(t, pk) := RowCell(row)], db[t := db[t].(rows := db[t].rows[pk := row])];
    forall u ensures HasSchema(st', db', u) {
      assert HasSchema(st, db, u);
      KeyKindsDisjoint(u, t, pk);
    }
    forall u, qk ensures HasRow(st', db', u, qk) {
      assert HasRow(st, db, u, qk);
      if RowKey(u, qk) == RowKey(t, pk) { RowKeyInjective(u, qk, t, pk); }
    }
  }

  lemma DeleteRowSimulates(st: Data, db: Database, t: Name, pk: seq<Value>)
    requires Represents(st, db) && t in db
    ensures Represents(st - {RowKey(t, pk)}, db[t := db[t].(rows := db[t].rows - {pk})])
  {
    var st', db' := st - {RowKey(t, pk)}, db[t := db[t].(rows := db[t].rows - {pk})];
    forall u ensures HasSchema(st', db', u) {
      assert HasSchema(st, db, u);
      KeyKindsDisjoint(u, t, pk);
    }
    forall u, qk ensures HasRow(st', db', u, qk) {
      assert HasRow(st, db, u, qk);
      if RowKey(u, qk) == RowKey(t, pk) { RowKeyInjective(u, qk, t, pk); }
    }
  }

  /** A row of u is removed by dropping t exactly when u is t or continues t after a slash. */
  lemma DropSimulatesIff(st: Data, db: Database, t: Name)
    requires Represents(st, db) && t in db
    ensures ApplyDrop(st, t).Ok? && Represents(ApplyDrop(st, t).value.0, db - {t}) <==> Detached(db, t)
  {
    assert HasSchema(st, db, t);
    var st', db' := ApplyDrop(st, t).value.0, db - {t};
    if Detached(db, t) {
      forall u ensures HasSchema(st', db', u) {
        assert HasSchema(st, db, u);
        KeyKindsDisjoint(u, t, []);
        if SchemaKey(u) == SchemaKey(t) { SchemaKeyInjective(u, t); }
      }
      forall u, pk ensures HasRow(st', db', u, pk) {
        assert HasRow(st, db, u, pk);
        PrefixCovers(t, u, pk);
        KeyKindsDisjoint(t, u, pk);
      }
    } else {
      var u :| u in db && t + [SLASH] <= u && db[u].rows != map[];
      var pk :| pk in db[u].rows;
      PrefixCovers(t, u, pk);
      assert HasRow(st, db, u, pk);
      assert !HasRow(st', db', u, pk);
    }
  }

  lemma CommandSimulates(st: Data, db: Database, cmd: TableCommand)
    requires Represents(st, db)
    requires cmd.DropTable? && cmd.table in db ==> Detached(db, cmd.table)
    ensures Simulates(ApplyCommand(st, cmd), RelCommand(db, cmd))
  {
    match cmd
    case CreateTable(schema) => CreateSimulates(st, db, schema);
    case DropTable(t) =>
      assert HasSchema(st, db, t);
      if t in db { DropSimulatesIff(st, db, t); }
    case Put(t, row) =>
      assert HasSchema(st, db, t);
      if t in db && PkOf(db[t].schema, row).Ok? {
        SetRowSimulates(st, db, t, PkOf(db[t].schema, row).value, row);
      }
    case Delete(t, key) =>
      assert HasSchema(st, db, t);
      if t in db { DeleteRowSimulates(st, db, t, key); }
  }

  // ---- Whole command sequences ----

  datatype Outcome<S> = Outcome(state: S, replies: seq<ReturnValue>, failed: Option<Error>)

  /** Runs commands one after the other and stops at the first that fails. */
  function RunTable(st: Data, cmds: seq<TableCommand>): Outcome<Data>
    decreases |cmds|
  {
    if cmds == [] then Outcome(st, [], None)
    else match ApplyCommand(st, cmds[0])
         case Err(e) => Outcome(st, [], Some(e))
         case Ok((st', reply)) => var o := RunTable(st', cmds[1..]); o.(replies := [reply] + o.replies)
  }

  function RunRelational(db: Database, cmds: seq<TableCommand>): Outcome<Database>
    decreases |cmds|
  {
    if cmds == [] then Outcome(db, [], None)
    else match RelCommand(db, cmds[0])
         case Err(e) => Outcome(db, [], Some(e))
         case Ok((db', reply)) => var o := RunRelational(db', cmds[1..]); o.(replies := [reply] + o.replies)
  }

  function TableOf(cmd: TableCommand): Name {
    match cmd
    case CreateTable(schema) => schema.name
    case DropTable(t) => t
    case Put(t, _) => t
    case Delete(t, _) => t
  }

  ghost predicate SlashFreeCommands(cmds: seq<TableCommand>) {
    forall i :: 0 <= i < |cmds| ==> SlashFree(TableOf(cmds[i]))
  }

  ghost predicate SlashFreeTables(db: Database) {
    forall t :: t in db ==> SlashFree(t)
  }

  lemma NotUnder(t: Name, u: Name)
    requires SlashFree(u)
    ensures !(t + [SLASH] <= u)
  {
    assert (t + [SLASH])[|t|] == SLASH;
  }

  lemma SlashFreeDetached(db: Database, t: Name)
    requires SlashFreeTables(db)
    ensures Detached(db, t)
  {
    forall u | u in db ensures !(t + [SLASH] <= u) {
      NotUnder(t, u);
    }
  }

  /** For table names without a slash, the flat store simulates the relational database over every
      sequence of commands: same replies, same failure, and the final store represents the final database. */
  lemma {:induction false} RelationalRefinement(st: Data, db: Database, cmds: seq<TableCommand>)
    requires Represents(st, db) && SlashFreeTables(db) && SlashFreeCommands(cmds)
    ensures var o, q := RunTable(st, cmds), RunRelational(db, cmds);
            && o.replies == q.replies && o.failed == q.failed
            && Represents(o.state, q.state) && SlashFreeTables(q.state)
    decreases |cmds|
  {
    if cmds != [] {
      assert SlashFree(TableOf(cmds[0]));
      SlashFreeDetached(db, TableOf(cmds[0]));
      CommandSimulates(st, db, cmds[0]);
      if RelCommand(db, cmds[0]).Ok? {
        forall i | 0 <= i < |cmds[1..]| ensures SlashFree(TableOf(cmds[1..][i])) {
          assert cmds[1..][i] == cmds[i + 1];
        }
        RelationalRefinement(ApplyCommand(st, cmds[0]).value.0, RelCommand(db, cmds[0]).value.0, cmds[1..]);
      }
    }
  }

  lemma EmptyRepresents()
    ensures Represents(map[], map[])
  {
  }

  /** With a slash in a name the simulation can fail: dropping a removes the row of a/b. */
  lemma SlashBreaksDrop(row: Row) returns (cmds: seq<TableCommand>)
    requires |row.values| == 0
    ensures RunTable(map[], cmds).failed == None == RunRelational(map[], cmds).failed
    ensures !Represents(RunTable(map[], cmds).state, RunRelational(map[], cmds).state)
  {
    var a, ab: Name := [97], [97, 47, 98];
    var sa, sab := TableSchema(a, [], []), TableSchema(ab, [], []);
    cmds := [CreateTable(sa), CreateTable(sab), Put(ab, row), DropTable(a)];
    EmptyRepresents();
    var db1: Database, st1: Data := map[a := Relation(sa, map[])], ApplyCommand(map[], cmds[0]).value.0;
    CommandSimulates(map[], map[], cmds[0]);
    CommandSimulates(st1, db1, cmds[1]);
    var db2, st2 := db1[ab := Relation(sab, map[])], ApplyCommand(st1, cmds[1]).value.0;
    CommandSimulates(st2, db2, cmds[2]);
    var db3, st3 := db2[ab := Relation(sab, map[[] := row])], ApplyCommand(st2, cmds[2]).value.0;
    assert HasSchema(st3, db3, a);
    assert [97] + [SLASH] <= ab && [] in db3[ab].rows;
    DropSimulatesIff(st3, db3, a);
    RunFour(map[], cmds, st1, st2, st3);
    RelFour(map[], cmds, db1, db2, db3);
  }

  lemma RunFour(st: Data, cmds: seq<TableCommand>, st1: Data, st2: Data, st3: Data)
    requires |cmds| == 4
    requires ApplyCommand(st, cmds[0]).Ok? && ApplyCommand(st, cmds[0]).value.0 == st1
    requires ApplyCommand(st1, cmds[1]).Ok? && ApplyCommand(st1, cmds[1]).value.0 == st2
    requires ApplyCommand(st2, cmds[2]).Ok? && ApplyCommand(st2, cmds[2]).value.0 == st3
    requires ApplyCommand(st3, cmds[3]).Ok?
    ensures RunTable(st, cmds).failed == None && RunTable(st, cmds).state == ApplyCommand(st3, cmds[3]).value.0
  {
    var st4 := ApplyCommand(st3, cmds[3]).value.0;
    assert RunTable(st4, cmds[4..]) == Outcome(st4, [], None);
    assert cmds[3..][1..] == cmds[4..] && cmds[2..][1..] == cmds[3..] && cmds[1..][1..] == cmds[2..];
    assert RunTable(st3, cmds[3..]).state == st4 && RunTable(st3, cmds[3..]).failed == None;
    assert RunTable(st2, cmds[2..]).state == st4 && RunTable(st2, cmds[2..]).failed == None;
    assert RunTable(st1, cmds[1..]).state == st4 && RunTable(st1, cmds[1..]).failed == None;
  }

  lemma RelFour(db: Database, cmds: seq<TableCommand>, db1: Database, db2: Database, db3: Database)
    requires |cmds| == 4
    requires RelCommand(db, cmds[0]).Ok? && RelCommand(db, cmds[0]).value.0 == db1
    requires RelCommand(db1, cmds[1]).Ok? && RelCommand(db1, cmds[1]).value.0 == db2
    requires RelCommand(db2, cmds[2]).Ok? && RelCommand(db2, cmds[2]).value.0 == db3
    requires RelCommand(db3, cmds[3]).Ok?
    ensures RunRelational(db, cmds).failed == None && RunRelational(db, cmds).state == RelCommand(db3, cmds[3]).value.0
  {
    var db4 := RelCommand(db3, cmds[3]).value.0;
    assert RunRelational(db4, cmds[4..]) == Outcome(db4, [], None);
    assert cmds[3..][1..] == cmds[4..] && cmds[2..][1..] == cmds[3..] && cmds[1..][1..] == cmds[2..];
    assert RunRelational(db3, cmds[3..]).state == db4 && RunRelational(db3, cmds[3..]).failed == None;
    assert RunRelational(db2, cmds[2..]).state == db4 && RunRelational(db2, cmds[2..]).failed == None;
    assert RunRelational(db1, cmds[1..]).state == db4 && RunRelational(db1, cmds[1..]).failed == None;
  }
}
