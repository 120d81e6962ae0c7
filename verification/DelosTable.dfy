/** The table as its clients see it: writes go through the log, reads sync and then look locally. */
module DelosTable {
  import opened RelosCore
  import opened KeyCodec
  import opened LocalStore
  import opened Table
  import TableReads
  import opened Engine
  import opened Batching
  import opened EndToEnd

  /** The replayed store represents the database at its cursor. */
  lemma StoreRepresents(log: seq<Entry>, st: LocalStore.Data)
    requires Replayed(Batched(TableApp()), log, st) && SlashFreeHistory(log, StoredCursor(st).value - 1)
    ensures Represents(st, DatabaseAt(log, StoredCursor(st).value - 1))
    ensures SlashFreeTables(DatabaseAt(log, StoredCursor(st).value - 1))
  {
    ReplayIsDatabase(log, StoredCursor(st).value - 1);
  }

  lemma DatabaseAfter(log: seq<Entry>, cmd: TableCommand, at: LogPos)
    requires 1 <= at <= |log| && log[at - 1] == Plain(CommandPayload(cmd))
    requires RunRelational(map[], History(log, at - 1)).failed == None && RelCommand(DatabaseAt(log, at - 1), cmd).Ok?
    ensures DatabaseAt(log, at) == RelCommand(DatabaseAt(log, at - 1), cmd).value.0
  {
    OneCommand(log[at - 1], cmd);
    HistoryStep(log, at);
    RunRelationalConcat(map[], History(log, at - 1), [cmd]);
    RunOne(DatabaseAt(log, at - 1), cmd);
  }

  lemma PlainApplied(st: LocalStore.Data, cmd: TableCommand, at: LogPos)
    requires ApplyEntry(Batched(TableApp()), st, Plain(CommandPayload(cmd)), at).Ok?
    ensures ApplyCommand(st, cmd).Ok?
    ensures ApplyCommand(st, cmd).value.1 == ApplyEntry(Batched(TableApp()), st, Plain(CommandPayload(cmd)), at).value.1
  {
  }

  lemma SameAnswer(st: LocalStore.Data, db: Database, cmd: TableCommand)
    requires Represents(st, db) && SlashFreeTables(db) && ApplyCommand(st, cmd).Ok?
    ensures RelCommand(db, cmd).Ok? && RelCommand(db, cmd).value.1 == ApplyCommand(st, cmd).value.1
  {
    SlashFreeDetached(db, TableOf(cmd));
    CommandSimulates(st, db, cmd);
  }

  lemma SlashFreeBefore(log: seq<Entry>, at: LogPos)
    requires 1 <= at <= |log| && SlashFreeHistory(log, at)
    ensures SlashFreeHistory(log, at - 1)
  {
    SlashFreeStep(log, at);
  }

  lemma AnswerAt(st: LocalStore.Data, log: seq<Entry>, cmd: TableCommand, at: LogPos)
    requires 1 <= at <= |log| && log[at - 1] == Plain(CommandPayload(cmd)) && Tracks(st, log, at - 1)
    requires ApplyCommand(st, cmd).Ok?
    ensures RelCommand(DatabaseAt(log, at - 1), cmd) == Ok((DatabaseAt(log, at), ApplyCommand(st, cmd).value.1))
  {
    SameAnswer(st, DatabaseAt(log, at - 1), cmd);
    DatabaseAfter(log, cmd, at);
  }

  /** A command that the engine answered for, at position at, did to the database what it does to a
      database, and the answer is the database's. */
  lemma CommandAnswered(log: seq<Entry>, cmd: TableCommand, at: LogPos, rv: ReturnValue)
    requires ResultAt(Batched(TableApp()), log, Plain(CommandPayload(cmd)), at, rv) && SlashFreeHistory(log, at - 1)
    ensures RelCommand(DatabaseAt(log, at - 1), cmd) == Ok((DatabaseAt(log, at), rv))
  {
    var st := Replay(Batched(TableApp()), log, at - 1).value;
    ReplayIsDatabase(log, at - 1);
    PlainApplied(st, cmd, at);
    AnswerAt(st, log, cmd, at);
  }

  /** A command is never answered with a bare success. */
  lemma NeverSuccess(log: seq<Entry>, cmd: TableCommand, at: LogPos, rv: ReturnValue)
    requires ResultAt(Batched(TableApp()), log, Plain(CommandPayload(cmd)), at, rv)
    ensures rv.Data?
  {
  }

  lemma AnswerMeans(log: seq<Entry>, cmd: TableCommand, at: LogPos, rv: ReturnValue)
    requires ResultAt(Batched(TableApp()), log, Plain(CommandPayload(cmd)), at, rv)
    ensures rv.Data?
    ensures SlashFreeHistory(log, at) ==> RelCommand(DatabaseAt(log, at - 1), cmd) == Ok((DatabaseAt(log, at), rv))
  {
    NeverSuccess(log, cmd, at, rv);
    if SlashFreeHistory(log, at) {
      SlashFreeBefore(log, at);
      CommandAnswered(log, cmd, at, rv);
    }
  }

  /** rows are the rows of t, one for each key in keys, which lists every key of t once. */
  ghost predicate ListsTable(db: Database, t: Name, keys: seq<seq<Value>>, rows: seq<Row>) {
    && |keys| == |rows|
    && (forall i :: 0 <= i < |keys| ==> RowIn(db, t, keys[i]) == Some(rows[i]))
    && (forall i, j :: 0 <= i < j < |keys| ==> keys[i] != keys[j])
    && (forall key :: t in db && key in db[t].rows ==> key in keys)
  }

  /** What a successful scan returned lists the table. */
  lemma ScanIsTable(st: LocalStore.Data, db: Database, t: Name, rows: seq<Row>) returns (keys: seq<seq<Value>>)
    requires Represents(st, db) && SlashFreeTables(db)
    requires var ks := ScanKeys(st, RowPrefix(t));
             |rows| == |ks| && forall i :: 0 <= i < |ks| ==> ks[i] in st && st[ks[i]] == RowCell(rows[i])
    ensures ListsTable(db, t, keys, rows)
  {
    SlashFreeDetached(db, t);
    keys := TableReads.ScanListsTable(st, db, t);
    var ks := ScanKeys(st, RowPrefix(t));
    forall i | 0 <= i < |keys| ensures RowIn(db, t, keys[i]) == Some(rows[i]) {
      assert TableReads.ListsRow(st, db, t, ks, keys, i);
    }
  }

  lemma ScanOfLog(log: seq<Entry>, st: LocalStore.Data, t: Name, rows: seq<Row>) returns (keys: seq<seq<Value>>)
    requires Replayed(Batched(TableApp()), log, st) && SlashFreeHistory(log, StoredCursor(st).value - 1)
    requires var ks := ScanKeys(st, RowPrefix(t));
             |rows| == |ks| && forall i :: 0 <= i < |ks| ==> ks[i] in st && st[ks[i]] == RowCell(rows[i])
    ensures ListsTable(DatabaseAt(log, StoredCursor(st).value - 1), t, keys, rows)
  {
    StoreRepresents(log, st);
    keys := ScanIsTable(st, DatabaseAt(log, StoredCursor(st).value - 1), t, rows);
  }

  /** t exists after entry `at` and the commands up to m leave its row under key alone. */
  ghost predicate Undisturbed(log: seq<Entry>, at: LogPos, m: nat, t: Name, key: seq<Value>)
    requires at <= m <= |log|
  {
    t in DatabaseAt(log, at) && RowLeftAlone(log, at, m, DatabaseAt(log, at)[t].schema, t, key)
  }

  /** cmd, at position `at`, puts a row of t whose primary key is key. */
  ghost predicate Puts(log: seq<Entry>, at: LogPos, cmd: TableCommand, t: Name, key: seq<Value>)
    requires 1 <= at <= |log|
  {
    cmd.Put? && cmd.table == t && t in DatabaseAt(log, at - 1) && PkOf(DatabaseAt(log, at - 1)[t].schema, cmd.row) == Ok(key)
  }

  /** The database accepted cmd at position `at`. */
  ghost predicate Accepted(log: seq<Entry>, at: LogPos, cmd: TableCommand)
    requires 1 <= at <= |log|
  {
    SlashFreeHistory(log, at) ==> RelCommand(DatabaseAt(log, at - 1), cmd) == Ok((DatabaseAt(log, at), RelosCore.Data(TableOk)))
  }

  /** row is what cmd, at position `at`, left under key, if no command up to m disturbed it. */
  ghost predicate Seen(log: seq<Entry>, at: LogPos, m: nat, cmd: TableCommand, t: Name, key: seq<Value>, row: Option<Row>)
    requires 1 <= at <= m <= |log|
  {
    Undisturbed(log, at, m, t, key) ==>
      && row == RowIn(DatabaseAt(log, at), t, key)
      && (Puts(log, at, cmd, t, key) ==> row == Some(cmd.row))
      && (cmd == Delete(t, key) ==> row == None)
  }

  lemma AcceptedStill(log: seq<Entry>, log': seq<Entry>, at: LogPos, cmd: TableCommand)
    requires 1 <= at <= |log| && log <= log' && Accepted(log, at, cmd)
    ensures Accepted(log', at, cmd)
  {
    HistoryPrefix(log, log', at);
    HistoryPrefix(log, log', at - 1);
  }

  lemma UndisturbedSame(log: seq<Entry>, at: LogPos, m: nat, t: Name, key: seq<Value>)
    requires at <= m <= |log| && RunRelational(map[], History(log, m)).failed == None && Undisturbed(log, at, m, t, key)
    ensures RowIn(DatabaseAt(log, m), t, key) == RowIn(DatabaseAt(log, at), t, key)
  {
    RowSeenLater(log, at, m, t, key);
  }

  lemma AcceptedIsSeen(log: seq<Entry>, at: LogPos, m: nat, cmd: TableCommand, t: Name, key: seq<Value>)
    requires 1 <= at <= m <= |log| && RunRelational(map[], History(log, m)).failed == None
    requires RelCommand(DatabaseAt(log, at - 1), cmd) == Ok((DatabaseAt(log, at), RelosCore.Data(TableOk)))
    ensures Seen(log, at, m, cmd, t, key, RowIn(DatabaseAt(log, m), t, key))
  {
    if Undisturbed(log, at, m, t, key) {
      UndisturbedSame(log, at, m, t, key);
      LeavesBehind(DatabaseAt(log, at - 1), cmd, DatabaseAt(log, at), t, key);
    }
  }

  lemma NeverFailed(log: seq<Entry>, m: nat)
    requires m <= |log| && SlashFreeHistory(log, m) && Replay(Batched(TableApp()), log, m).Some?
    ensures RunRelational(map[], History(log, m)).failed == None
  {
    ReplayIsDatabase(log, m);
  }

  /** What an accepted command left is in the database that any later read of the log reaches. */
  lemma AcceptedLater(log: seq<Entry>, log': seq<Entry>, cmd: TableCommand, at: LogPos, m: nat, t: Name, key: seq<Value>)
    requires 1 <= at <= |log| && log <= log' && Accepted(log, at, cmd)
    requires at <= m <= |log'| && Replay(Batched(TableApp()), log', m).Some? && SlashFreeHistory(log', m)
    ensures Seen(log', at, m, cmd, t, key, RowIn(DatabaseAt(log', m), t, key))
  {
    AcceptedStill(log, log', at, cmd);
    SlashFreeEarlier(log', at, m);
    NeverFailed(log', m);
    AcceptedIsSeen(log', at, m, cmd, t, key);
  }

  /** What an accepted put or delete leaves under its key. */
  lemma LeavesBehind(db: Database, cmd: TableCommand, db': Database, t: Name, key: seq<Value>)
    requires RelCommand(db, cmd) == Ok((db', RelosCore.Data(TableOk)))
    ensures cmd.Put? && cmd.table == t && t in db && PkOf(db[t].schema, cmd.row) == Ok(key) ==> RowIn(db', t, key) == Some(cmd.row)
    ensures cmd == Delete(t, key) ==> RowIn(db', t, key) == None
  {
  }

  /** Everything behind a table's prefix is a row. */
  lemma ScanDecodes(log: seq<Entry>, st: LocalStore.Data, t: Name)
    requires Replayed(Batched(TableApp()), log, st) && SlashFreeHistory(log, StoredCursor(st).value - 1)
    ensures forall k :: k in st && RowPrefix(t) <= k ==> st[k].RowCell?
  {
    StoreRepresents(log, st);
    var db := DatabaseAt(log, StoredCursor(st).value - 1);
    SlashFreeDetached(db, t);
    forall k | k in st && RowPrefix(t) <= k ensures st[k].RowCell? {
      var _ := TableReads.ScannedRow(st, db, t, k);
    }
  }

  method GetSnapshot(ghost log: seq<Entry>, ghost c: LogPos, txn: ReadTxn, table: Name, key: seq<Value>) returns (r: Result<Option<Row>>)
    requires Replayed(Batched(TableApp()), log, txn.snapshot) && StoredCursor(txn.snapshot) == Ok(c)
    ensures SlashFreeHistory(log, c - 1) ==> r == Ok(RowIn(DatabaseAt(log, c - 1), table, key))
  {
    if SlashFreeHistory(log, c - 1) {
      StoreRepresents(log, txn.snapshot);
    }
    r := TableReads.Get(txn, table, key);
  }

  method ScanSnapshot(ghost log: seq<Entry>, ghost c: LogPos, txn: ReadTxn, table: Name)
    returns (r: Result<seq<Row>>, ghost keys: seq<seq<Value>>)
    requires Replayed(Batched(TableApp()), log, txn.snapshot) && StoredCursor(txn.snapshot) == Ok(c)
    ensures SlashFreeHistory(log, c - 1) ==> r.Ok? && ListsTable(DatabaseAt(log, c - 1), table, keys, r.value)
  {
    keys := [];
    r := TableReads.Scan(txn, table);
    if SlashFreeHistory(log, c - 1) {
      ScanDecodes(log, txn.snapshot, table);
      keys := ScanOfLog(log, txn.snapshot, table, r.value);
    }
  }

  /** row is what the database of the first m entries has of t under key. */
  ghost predicate AnswersGet(log: seq<Entry>, m: nat, t: Name, key: seq<Value>, row: Option<Row>)
    requires m <= |log|
  {
    SlashFreeHistory(log, m) ==> row == RowIn(DatabaseAt(log, m), t, key)
  }

  lemma SeenByGet(log: seq<Entry>, log': seq<Entry>, at: LogPos, m: nat, cmd: TableCommand, t: Name, key: seq<Value>, row: Option<Row>)
    requires log <= log' && 1 <= at <= |log| && at <= m <= |log'| && Accepted(log, at, cmd)
    requires Replay(Batched(TableApp()), log', m).Some? && AnswersGet(log', m, t, key, row)
    ensures SlashFreeHistory(log', m) ==> Seen(log', at, m, cmd, t, key, row)
  {
    if SlashFreeHistory(log', m) { AcceptedLater(log, log', cmd, at, m, t, key); }
  }

  class DelosTable {
    const engine: BaseEngine

    constructor (engine: BaseEngine)
      ensures this.engine == engine
    {
      this.engine := engine;
    }

    ghost predicate Valid()
      reads this, engine, engine.log, engine.store
    {
      engine.Valid() && engine.app == Batched(TableApp())
    }

    /** create_table, drop_table, put and delete. When it succeeds the command sits at `at` in the log
        and was accepted by the database made by everything before it. */
    method ProposeAndCheck(cmd: TableCommand) returns (ok: Result<()>, ghost at: LogPos)
      requires Valid()
      modifies engine, engine.log, engine.store
      ensures Valid() && old(engine.log.entries) <= engine.log.entries && engine.cursor >= old(engine.cursor)
      ensures ok.Ok? ==> |old(engine.log.entries)| < at <= |engine.log.entries| && engine.cursor == at + 1
      ensures ok.Ok? ==> engine.log.entries[at - 1] == Plain(CommandPayload(cmd))
      ensures ok.Ok? ==> Accepted(engine.log.entries, at, cmd)
      ensures ok.Err? && SlashFreeHistory(engine.log.entries, engine.cursor - 1) ==>
                || engine.log.lastAppend == Err(ok.error)
                || (engine.cursor <= at && ApplyError(engine.app, engine.store.data, engine.log.lastRead, engine.cursor) == Some(ok.error))
                || (ok.error == InvalidOperation && engine.cursor == at + 1 && at >= 1
                    && RelCommand(DatabaseAt(engine.log.entries, at - 1), cmd) == Ok((DatabaseAt(engine.log.entries, engine.cursor - 1), RelosCore.Data(TableError))))
    {
      var ret;
      ret, at := engine.HandlePropose(Plain(CommandPayload(cmd)));
      if ret.Err? {
        return Err(ret.error), at;
      }
      AnswerMeans(engine.log.entries, cmd, at, ret.value);
      match ret.value {
        case Data(TableOk) => return Ok(()), at;
        case Data(TableError) => return Err(InvalidOperation), at;
        case Success => return Ok(()), at;
      }
    }

    /** The local half of a read. */
    method LocalGet(table: Name, key: seq<Value>) returns (r: Result<Option<Row>>)
      requires Valid()
      ensures SlashFreeHistory(engine.log.entries, engine.cursor - 1) ==>
                r == Ok(RowIn(DatabaseAt(engine.log.entries, engine.cursor - 1), table, key))
    {
      ghost var log, c := engine.log.entries, engine.cursor;
      assert Replayed(Batched(TableApp()), log, engine.store.data) && StoredCursor(engine.store.data) == Ok(c);
      var txn := new ReadTxn(engine.store);
      r := GetSnapshot(log, c, txn, table, key);
      assert engine.log.entries == log && engine.cursor == c;
    }

    /** Catches up with the log and answers from the database reached. */
    method Get(table: Name, key: seq<Value>) returns (r: Result<Option<Row>>)
      requires Valid()
      modifies engine, engine.log, engine.store
      ensures Valid() && old(engine.log.entries) <= engine.log.entries && engine.cursor >= old(engine.cursor)
      ensures r.Ok? ==> AnswersGet(engine.log.entries, engine.cursor - 1, table, key, r.value)
      ensures r.Ok? ==> engine.log.lastTail.Ok? && engine.cursor >= engine.log.lastTail.value
      ensures r.Err? && SlashFreeHistory(engine.log.entries, engine.cursor - 1) ==>
                || engine.log.lastTail == Err(r.error)
                || (engine.log.lastTail.Ok? && engine.cursor < engine.log.lastTail.value
                    && ApplyError(engine.app, engine.store.data, engine.log.lastRead, engine.cursor) == Some(r.error))
    {
      var synced := engine.HandleSync();
      if synced.Err? {
        return Err(synced.error);
      }
      r := LocalGet(table, key);
    }

    method LocalScan(table: Name) returns (r: Result<seq<Row>>, ghost keys: seq<seq<Value>>)
      requires Valid()
      ensures SlashFreeHistory(engine.log.entries, engine.cursor - 1) ==>
                r.Ok? && ListsTable(DatabaseAt(engine.log.entries, engine.cursor - 1), table, keys, r.value)
    {
      ghost var log, c := engine.log.entries, engine.cursor;
      assert Replayed(Batched(TableApp()), log, engine.store.data) && StoredCursor(engine.store.data) == Ok(c);
      var txn := new ReadTxn(engine.store);
      r, keys := ScanSnapshot(log, c, txn, table);
      assert engine.log.entries == log && engine.cursor == c;
    }

    /** Catches up with the log and lists every row of the table once. */
    method Scan(table: Name) returns (r: Result<seq<Row>>, ghost keys: seq<seq<Value>>)
      requires Valid()
      modifies engine, engine.log, engine.store
      ensures Valid() && old(engine.log.entries) <= engine.log.entries && engine.cursor >= old(engine.cursor)
      ensures r.Ok? && SlashFreeHistory(engine.log.entries, engine.cursor - 1) ==> ListsTable(DatabaseAt(engine.log.entries, engine.cursor - 1), table, keys, r.value)
      ensures r.Ok? ==> engine.log.lastTail.Ok? && engine.cursor >= engine.log.lastTail.value
      ensures r.Err? && SlashFreeHistory(engine.log.entries, engine.cursor - 1) ==>
                || engine.log.lastTail == Err(r.error)
                || (engine.log.lastTail.Ok? && engine.cursor < engine.log.lastTail.value
                    && ApplyError(engine.app, engine.store.data, engine.log.lastRead, engine.cursor) == Some(r.error))
    {
      keys := [];
      var synced := engine.HandleSync();
      if synced.Err? {
        return Err(synced.error), keys;
      }
      r, keys := LocalScan(table);
    }

    /** A write answered Ok, any other requests on this replica, then a get answered Ok: the get returns
        what the write left under the key, unless a command in between overwrote or removed it. */
    method WriteThenGet(cmd: TableCommand, others: seq<Request>, table: Name, key: seq<Value>)
      returns (ok: Result<()>, got: Result<Option<Row>>, ghost at: LogPos)
      requires Valid()
      modifies engine, engine.log, engine.store
      ensures Valid()
      ensures ok.Ok? ==> 1 <= at < engine.cursor && engine.log.entries[at - 1] == Plain(CommandPayload(cmd))
      ensures ok.Ok? && got.Ok? && SlashFreeHistory(engine.log.entries, engine.cursor - 1) ==>
                Seen(engine.log.entries, at, engine.cursor - 1, cmd, table, key, got.value)
    {
      ok, at := ProposeAndCheck(cmd);
      ghost var log := engine.log.entries;
      var _, _ := engine.Serve(others);
      got := GetAfter(log, ok.Ok?, at, cmd, table, key);
    }

    /** A get, given that cmd may have been accepted at `at` when the log was as given. */
    method GetAfter(ghost log: seq<Entry>, ghost accepted: bool, ghost at: LogPos, ghost cmd: TableCommand, table: Name, key: seq<Value>)
      returns (got: Result<Option<Row>>)
      requires Valid() && log <= engine.log.entries
      requires accepted ==> 1 <= at <= |log| && at < engine.cursor && Accepted(log, at, cmd)
      modifies engine, engine.log, engine.store
      ensures Valid() && old(engine.log.entries) <= engine.log.entries && engine.cursor >= old(engine.cursor)
      ensures accepted && got.Ok? && SlashFreeHistory(engine.log.entries, engine.cursor - 1) ==> Seen(engine.log.entries, at, engine.cursor - 1, cmd, table, key, got.value)
    {
      got := Get(table, key);
      if accepted && got.Ok? {
        SeenByGet(log, engine.log.entries, at, engine.cursor - 1, cmd, table, key, got.value);
      }
    }
  }
}
