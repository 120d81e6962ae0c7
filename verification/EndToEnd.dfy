/** The whole stack: what a replica's store holds is the relational database made by the commands of
    the shared log up to the replica's cursor, however they were batched and whatever crashed. */
module EndToEnd {
  import opened RelosCore
  import opened KeyCodec
  import opened LocalStore
  import opened Table
  import opened TableReads
  import opened Engine
  import opened Batching

  // ---- The table applicator behind the batching one ----

  function TableApply(st: LocalStore.Data, p: Payload): Step<LocalStore.Data> {
    if p.CommandPayload? then ApplyCommand(st, p.cmd) else Err(Serialization)
  }

  function TableApp(): Applicator {
    (st, e: Entry, pos) => TableApply(st, e.payload)
  }

  lemma TablePayloadOnly()
    ensures PayloadOnly(TableApp())
  {
  }

  function CommandOf(p: Payload): seq<TableCommand> {
    if p.CommandPayload? then [p.cmd] else []
  }

  /** The commands among payloads, in order. */
  function Commands(ps: seq<Payload>): seq<TableCommand> {
    if ps == [] then [] else CommandOf(ps[0]) + Commands(ps[1..])
  }

  ghost predicate AllCommands(ps: seq<Payload>) {
    forall i :: 0 <= i < |ps| ==> ps[i].CommandPayload?
  }

  /** The commands that the first n entries of the log carry. */
  function History(log: seq<Entry>, n: nat): seq<TableCommand>
    requires n <= |log|
  {
    Commands(Unbatched(log[..n]))
  }

  /** The relational database after the first n entries. */
  function DatabaseAt(log: seq<Entry>, n: nat): Database
    requires n <= |log|
  {
    RunRelational(map[], History(log, n)).state
  }

  lemma {:induction false} CommandsConcat(a: seq<Payload>, b: seq<Payload>)
    ensures Commands(a + b) == Commands(a) + Commands(b)
    decreases |a|
  {
    if a == [] {
      assert a + b == b;
    } else {
      assert (a + b)[1..] == a[1..] + b && (a + b)[0] == a[0];
      CommandsConcat(a[1..], b);
      assert Commands(a + b) == CommandOf(a[0]) + (Commands(a[1..]) + Commands(b));
    }
  }

  lemma HistoryStep(log: seq<Entry>, n: nat)
    requires 0 < n <= |log|
    ensures History(log, n) == History(log, n - 1) + Commands(Contents(log[n - 1]))
  {
    assert log[..n] == log[..n - 1] + [log[n - 1]];
    UnbatchedConcat(log[..n - 1], [log[n - 1]]);
    UnbatchedOne(log[n - 1]);
    CommandsConcat(Unbatched(log[..n - 1]), Contents(log[n - 1]));
  }

  /** Commands applied one by one are the table run. */
  lemma {:induction false} OneByOneIsRun(st: LocalStore.Data, ps: seq<Payload>)
    requires OneByOne(TableApp(), st, ps).Ok?
    ensures AllCommands(ps)
    ensures RunTable(st, Commands(ps)).failed == None
    ensures RunTable(st, Commands(ps)).state == OneByOne(TableApp(), st, ps).value
    decreases |ps|
  {
    if ps != [] {
      var st' := TableApply(st, ps[0]).value.0;
      OneByOneIsRun(st', ps[1..]);
      assert Commands(ps)[1..] == Commands(ps[1..]);
      forall i | 0 <= i < |ps| ensures ps[i].CommandPayload? {
        assert i > 0 ==> ps[1..][i - 1] == ps[i];
      }
    }
  }

  lemma {:induction false} RunRelationalConcat(db: Database, a: seq<TableCommand>, b: seq<TableCommand>)
    requires RunRelational(db, a).failed == None
    ensures var o := RunRelational(RunRelational(db, a).state, b);
            RunRelational(db, a + b).state == o.state && RunRelational(db, a + b).failed == o.failed
    decreases |a|
  {
    if a == [] {
      assert a + b == b;
    } else {
      assert (a + b)[1..] == a[1..] + b;
      RunRelationalConcat(RelCommand(db, a[0]).value.0, a[1..], b);
    }
  }

  // ---- The cursor is invisible to the tables ----

  lemma CursorInvisible(st: LocalStore.Data, c: LogPos, db: Database)
    requires Represents(st, db)
    ensures Represents(st[CURSOR_KEY := CursorCell(c)], db)
  {
    var st' := st[CURSOR_KEY := CursorCell(c)];
    forall t ensures HasSchema(st', db, t) {
      assert HasSchema(st, db, t);
      KeyKindsDisjoint(t, t, []);
    }
    forall t, pk ensures HasRow(st', db, t, pk) {
      assert HasRow(st, db, t, pk);
      KeyKindsDisjoint(t, t, pk);
    }
  }

  lemma CursorKeepsInv(st: LocalStore.Data, c: LogPos)
    requires TableInv(st)
    ensures TableInv(st[CURSOR_KEY := CursorCell(c)])
  {
    var st' := st[CURSOR_KEY := CursorCell(c)];
    forall t ensures SchemaOk(st', t) {
      assert SchemaOk(st, t);
      KeyKindsDisjoint(t, t, []);
    }
    forall t, pk ensures RowOk(st', t, pk) {
      assert RowOk(st, t, pk);
      KeyKindsDisjoint(t, t, pk);
    }
  }

  // ---- One entry ----

  /** An entry that applies is a well-made batch or a plain entry, and its effect is that of its
      commands in order. */
  lemma EntryApplied(st: LocalStore.Data, e: Entry, pos: LogPos)
    requires Batched(TableApp())(st, e, pos).Ok?
    ensures WellMade(e) && AllCommands(Contents(e))
    ensures RunTable(st, Commands(Contents(e))).failed == None
    ensures RunTable(st, Commands(Contents(e))).state == Batched(TableApp())(st, e, pos).value.0
  {
    TablePayloadOnly();
    EntryIsItsContents(TableApp(), st, e, pos);
    OneByOneIsRun(st, Contents(e));
  }

  /** Applying one entry, with its cursor, does to the store what its commands do to the database. */
  lemma EntrySimulates(st: LocalStore.Data, db: Database, e: Entry, pos: LogPos)
    requires Represents(st, db) && SlashFreeTables(db) && SlashFreeCommands(Commands(Contents(e)))
    requires ApplyEntry(Batched(TableApp()), st, e, pos).Ok?
    ensures AllCommands(Contents(e))
    ensures var o := RunRelational(db, Commands(Contents(e)));
            && o.failed == None && SlashFreeTables(o.state)
            && Represents(ApplyEntry(Batched(TableApp()), st, e, pos).value.0, o.state)
  {
    var cmds := Commands(Contents(e));
    EntryApplied(st, e, pos);
    RelationalRefinement(st, db, cmds);
    CursorInvisible(Batched(TableApp())(st, e, pos).value.0, pos + 1, RunRelational(db, cmds).state);
  }

  // ---- The store is the database of the log ----

  ghost predicate SlashFreeHistory(log: seq<Entry>, n: nat)
    requires n <= |log|
  {
    SlashFreeCommands(History(log, n))
  }

  /** The store at n represents the database at n, to which every payload so far was a command that
      did not fail. */
  ghost predicate Tracks(st: LocalStore.Data, log: seq<Entry>, n: nat)
    requires n <= |log|
  {
    && AllCommands(Unbatched(log[..n]))
    && RunRelational(map[], History(log, n)).failed == None
    && Represents(st, DatabaseAt(log, n))
    && SlashFreeTables(DatabaseAt(log, n))
  }

  lemma SlashFreeStep(log: seq<Entry>, n: nat)
    requires 0 < n <= |log| && SlashFreeHistory(log, n)
    ensures SlashFreeHistory(log, n - 1) && SlashFreeCommands(Commands(Contents(log[n - 1])))
  {
    HistoryStep(log, n);
    SplitSlashFree(History(log, n - 1), Commands(Contents(log[n - 1])));
  }

  lemma TracksStep(st: LocalStore.Data, st': LocalStore.Data, log: seq<Entry>, n: nat)
    requires 0 < n <= |log| && Tracks(st, log, n - 1) && AllCommands(Contents(log[n - 1]))
    requires var o := RunRelational(DatabaseAt(log, n - 1), Commands(Contents(log[n - 1])));
             o.failed == None && SlashFreeTables(o.state) && Represents(st', o.state)
    ensures Tracks(st', log, n)
  {
    HistoryStep(log, n);
    RunRelationalConcat(map[], History(log, n - 1), Commands(Contents(log[n - 1])));
    AllCommandsStep(log, n);
  }

  lemma TracksNothing(log: seq<Entry>)
    ensures Tracks(map[], log, 0)
  {
  }

  lemma TracksEntry(st: LocalStore.Data, log: seq<Entry>, n: nat)
    requires 0 < n <= |log| && Tracks(st, log, n - 1) && SlashFreeCommands(Commands(Contents(log[n - 1])))
    requires ApplyEntry(Batched(TableApp()), st, log[n - 1], n).Ok?
    ensures Tracks(ApplyEntry(Batched(TableApp()), st, log[n - 1], n).value.0, log, n)
  {
    EntrySimulates(st, DatabaseAt(log, n - 1), log[n - 1], n);
    TracksStep(st, ApplyEntry(Batched(TableApp()), st, log[n - 1], n).value.0, log, n);
  }

  /** Replaying the log through the batching and the table applicator represents, entry after entry,
      the relational database made by the commands in it. Nothing is assumed of the log but that table
      names have no slash. */
  lemma {:induction false} ReplayIsDatabase(log: seq<Entry>, n: nat)
    requires n <= |log| && SlashFreeHistory(log, n) && Replay(Batched(TableApp()), log, n).Some?
    ensures Tracks(Replay(Batched(TableApp()), log, n).value, log, n)
  {
    if n == 0 {
      TracksNothing(log);
    } else {
      SlashFreeStep(log, n);
      ReplayIsDatabase(log, n - 1);
      TracksEntry(Replay(Batched(TableApp()), log, n - 1).value, log, n);
    }
  }

  lemma SplitSlashFree(a: seq<TableCommand>, b: seq<TableCommand>)
    requires SlashFreeCommands(a + b)
    ensures SlashFreeCommands(a) && SlashFreeCommands(b)
  {
    assert forall i :: 0 <= i < |a| ==> a[i] == (a + b)[i];
    assert forall i :: 0 <= i < |b| ==> b[i] == (a + b)[|a| + i];
  }

  lemma AllCommandsStep(log: seq<Entry>, n: nat)
    requires 0 < n <= |log| && AllCommands(Unbatched(log[..n - 1])) && AllCommands(Contents(log[n - 1]))
    ensures AllCommands(Unbatched(log[..n]))
  {
    assert log[..n] == log[..n - 1] + [log[n - 1]];
    UnbatchedConcat(log[..n - 1], [log[n - 1]]);
    UnbatchedOne(log[n - 1]);
  }

  /** Whatever the table names: every replayed store keeps the invariant of its rows. */
  lemma {:induction false} ReplayKeepsInv(log: seq<Entry>, n: nat)
    requires n <= |log| && Replay(Batched(TableApp()), log, n).Some?
    ensures TableInv(Replay(Batched(TableApp()), log, n).value)
  {
    if n > 0 {
      var st := Replay(Batched(TableApp()), log, n - 1).value;
      ReplayKeepsInv(log, n - 1);
      EntryApplied(st, log[n - 1], n);
      TableInvariant(st, Commands(Contents(log[n - 1])));
      CursorKeepsInv(Batched(TableApp())(st, log[n - 1], n).value.0, n + 1);
    }
  }

  // ---- Acknowledged writes are read ----

  /** The command neither writes nor removes the row of t under key, nor drops the table. */
  predicate LeavesRow(cmd: TableCommand, schema: TableSchema, t: Name, key: seq<Value>) {
    match cmd
    case CreateTable(_) => true
    case DropTable(u) => u != t
    case Put(u, row) => u != t || |row.values| != |schema.columns| || PkOf(schema, row) != Ok(key)
    case Delete(u, k) => u != t || k != key
  }

  /** It is exactly the commands that leave the row and the table alone in every database they run in. */
  lemma LeavesRowIff(cmd: TableCommand, schema: TableSchema, t: Name, key: seq<Value>)
    ensures LeavesRow(cmd, schema, t, key) <==> forall db: Database :: Unmoved(db, cmd, schema, t, key)
  {
    if !LeavesRow(cmd, schema, t, key) {
      var row := Row([]);
      var rows: map<seq<Value>, Row> := if cmd.Delete? then map[key := row] else map[];
      var db: Database := map[t := Relation(schema, rows)];
      assert !Unmoved(db, cmd, schema, t, key);
    }
  }

  ghost predicate Unmoved(db: Database, cmd: TableCommand, schema: TableSchema, t: Name, key: seq<Value>) {
    t in db && db[t].schema == schema && RelCommand(db, cmd).Ok? ==>
      var db' := RelCommand(db, cmd).value.0;
      t in db' && db'[t].schema == schema && RowIn(db', t, key) == RowIn(db, t, key)
  }

  /** What db holds of t under key. */
  function RowIn(db: Database, t: Name, key: seq<Value>): Option<Row> {
    if t in db && key in db[t].rows then Some(db[t].rows[key]) else None
  }

  /** Commands that leave a row alone leave it in the database. */
  lemma {:induction false} RowStays(db: Database, cmds: seq<TableCommand>, t: Name, key: seq<Value>)
    requires t in db && RunRelational(db, cmds).failed == None
    requires forall i :: 0 <= i < |cmds| ==> LeavesRow(cmds[i], db[t].schema, t, key)
    ensures var db' := RunRelational(db, cmds).state;
            t in db' && db'[t].schema == db[t].schema && RowIn(db', t, key) == RowIn(db, t, key)
    decreases |cmds|
  {
    if cmds != [] {
      assert LeavesRow(cmds[0], db[t].schema, t, key);
      var db1 := RelCommand(db, cmds[0]).value.0;
      forall i | 0 <= i < |cmds[1..]| ensures LeavesRow(cmds[1..][i], db1[t].schema, t, key) {
        assert cmds[1..][i] == cmds[i + 1];
      }
      RowStays(db1, cmds[1..], t, key);
    }
  }

  /** The commands of the entries from n + 1 to m. */
  function Between(log: seq<Entry>, n: nat, m: nat): seq<TableCommand>
    requires n <= m <= |log|
  {
    Commands(Unbatched(log[n..m]))
  }

  lemma HistorySplit(log: seq<Entry>, n: nat, m: nat)
    requires n <= m <= |log|
    ensures History(log, m) == History(log, n) + Between(log, n, m)
  {
    assert log[..m] == log[..n] + log[n..m];
    UnbatchedConcat(log[..n], log[n..m]);
    CommandsConcat(Unbatched(log[..n]), Unbatched(log[n..m]));
  }

  /** The commands from n + 1 to m leave the row of t under key alone. */
  ghost predicate RowLeftAlone(log: seq<Entry>, n: nat, m: nat, schema: TableSchema, t: Name, key: seq<Value>)
    requires n <= m <= |log|
  {
    forall i :: 0 <= i < |Between(log, n, m)| ==> LeavesRow(Between(log, n, m)[i], schema, t, key)
  }

  /** What the database has under a key after n entries it still has after m, if no command between
      writes or removes that row or drops its table. */
  lemma RowSeenLater(log: seq<Entry>, n: nat, m: nat, t: Name, key: seq<Value>)
    requires n <= m <= |log| && RunRelational(map[], History(log, m)).failed == None
    requires t in DatabaseAt(log, n) && RowLeftAlone(log, n, m, DatabaseAt(log, n)[t].schema, t, key)
    ensures RowIn(DatabaseAt(log, m), t, key) == RowIn(DatabaseAt(log, n), t, key)
  {
    HistorySplit(log, n, m);
    RunRelationalFailed(map[], History(log, n), Between(log, n, m));
    RunRelationalConcat(map[], History(log, n), Between(log, n, m));
    RowStays(DatabaseAt(log, n), Between(log, n, m), t, key);
  }

  /** A row put by any command of the log, alone or inside a batch, is in the database at every later
      point up to which no command overwrites or removes it. */
  lemma WriteIsRead(log: seq<Entry>, m: nat, before: seq<TableCommand>, t: Name, row: Row, key: seq<Value>, after: seq<TableCommand>)
    requires m <= |log| && History(log, m) == before + [Put(t, row)] + after
    requires RunRelational(map[], History(log, m)).failed == None
    requires var db := RunRelational(map[], before).state;
             && t in db && |row.values| == |db[t].schema.columns| && PkOf(db[t].schema, row) == Ok(key)
             && forall i :: 0 <= i < |after| ==> LeavesRow(after[i], db[t].schema, t, key)
    ensures RowIn(DatabaseAt(log, m), t, key) == Some(row)
  {
    var put := [Put(t, row)];
    RunRelationalFailed(map[], before + put, after);
    RunRelationalConcat(map[], before + put, after);
    RunRelationalFailed(map[], before, put);
    RunRelationalConcat(map[], before, put);
    RunOne(RunRelational(map[], before).state, Put(t, row));
    RowStays(RunRelational(map[], before + put).state, after, t, key);
  }

  lemma HistoryPrefix(log: seq<Entry>, log': seq<Entry>, n: nat)
    requires n <= |log| && log <= log'
    ensures History(log', n) == History(log, n)
  {
    assert log'[..n] == log[..n];
  }

  lemma SlashFreeEarlier(log: seq<Entry>, n: nat, m: nat)
    requires n <= m <= |log| && SlashFreeHistory(log, m)
    ensures SlashFreeHistory(log, n)
  {
    HistorySplit(log, n, m);
    SplitSlashFree(History(log, n), Between(log, n, m));
  }

  lemma RunOne(db: Database, cmd: TableCommand)
    requires RelCommand(db, cmd).Ok?
    ensures RunRelational(db, [cmd]).state == RelCommand(db, cmd).value.0
  {
  }

  lemma OneCommand(e: Entry, cmd: TableCommand)
    requires e == Plain(CommandPayload(cmd))
    ensures Commands(Contents(e)) == [cmd]
  {
  }

  /** A run that does not fail has no prefix that fails. */
  lemma {:induction false} RunRelationalFailed(db: Database, a: seq<TableCommand>, b: seq<TableCommand>)
    requires RunRelational(db, a + b).failed == None
    ensures RunRelational(db, a).failed == None
    decreases |a|
  {
    if a != [] {
      assert (a + b)[1..] == a[1..] + b && (a + b)[0] == a[0];
      RunRelationalFailed(RelCommand(db, a[0]).value.0, a[1..], b);
    }
  }
}
