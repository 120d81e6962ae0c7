/** The base engine: replaying the shared log into the local store, one transaction per entry. */
module Engine {
  import opened RelosCore
  import opened KeyCodec
  import opened LocalStore

  /** An applicator turns the contents of a transaction, an entry and its position into new contents
      and a return value, or fails. */
  type Applicator = (Data, Entry, LogPos) -> Result<(Data, ReturnValue)>

  /** The persisted cursor: the next position to apply. */
  function StoredCursor(st: Data): Result<LogPos> {
    if CURSOR_KEY !in st then Ok(LOG_POS_BEGIN)
    else if st[CURSOR_KEY].CursorCell? then Ok(st[CURSOR_KEY].pos)
    else Err(StoreError)
  }

  /** The effect and the cursor in one transaction. */
  function ApplyEntry(app: Applicator, st: Data, e: Entry, pos: LogPos): Result<(Data, ReturnValue)> {
    match app(st, e, pos)
    case Ok((st', rv)) => Ok((st'[CURSOR_KEY := CursorCell(pos + 1)], rv))
    case Err(err) => Err(err)
  }

  /** Why applying what a read at position c answered fails: the read failed or found nothing, or the
      applicator refuses. None if it does not. */
  function ApplyError(app: Applicator, st: Data, read: Result<Option<Entry>>, c: LogPos): Option<Error> {
    match read
    case Err(err) => Some(err)
    case Ok(None) => Some(Internal)
    case Ok(Some(e)) =>
      match app(st, e, c)
      case Err(err) => Some(err)
      case Ok(_) => None
  }

  /** The store after the first n entries of the log, if each of them applies. */
  function Replay(app: Applicator, log: seq<Entry>, n: nat): Option<Data>
    requires n <= |log|
  {
    if n == 0 then Some(map[])
    else match Replay(app, log, n - 1)
         case None => None
         case Some(st) =>
           match ApplyEntry(app, st, log[n - 1], n)
           case Ok((st', _)) => Some(st')
           case Err(_) => None
  }

  lemma {:induction false} ReplayPrefix(app: Applicator, log: seq<Entry>, log': seq<Entry>, n: nat)
    requires n <= |log| && log <= log'
    ensures Replay(app, log, n) == Replay(app, log', n)
  {
    if n > 0 { ReplayPrefix(app, log, log', n - 1); }
  }

  /** State i + 1 is state i with entry i + 1 applied at position i + 1, and the next cursor committed with it. */
  ghost predicate PassesOn(app: Applicator, log: seq<Entry>, states: seq<Data>, i: nat)
    requires i + 1 < |states| && i < |log|
  {
    var r := app(states[i], log[i], i + 1);
    r.Ok? && states[i + 1] == r.value.0[CURSOR_KEY := CursorCell(i + 2)]
  }

  /** The states that the applicator goes through. */
  ghost predicate Passes(app: Applicator, log: seq<Entry>, states: seq<Data>) {
    1 <= |states| <= |log| + 1 && states[0] == map[] && forall i :: 0 <= i < |states| - 1 ==> PassesOn(app, log, states, i)
  }

  lemma {:induction false} PassesTo(app: Applicator, log: seq<Entry>, n: nat) returns (states: seq<Data>)
    requires n <= |log| && Replay(app, log, n).Some?
    ensures Passes(app, log, states) && |states| == n + 1 && states[n] == Replay(app, log, n).value
  {
    if n == 0 {
      states := [map[]];
    } else {
      var front := PassesTo(app, log, n - 1);
      states := front + [Replay(app, log, n).value];
      forall i | 0 <= i < |states| - 1 ensures PassesOn(app, log, states, i) {
        if i < n - 1 { assert PassesOn(app, log, front, i); }
      }
    }
  }

  lemma {:induction false} PassedIsReplayed(app: Applicator, log: seq<Entry>, states: seq<Data>, n: nat)
    requires Passes(app, log, states) && n < |states|
    ensures Replay(app, log, n) == Some(states[n])
  {
    if n > 0 {
      PassedIsReplayed(app, log, states, n - 1);
      assert PassesOn(app, log, states, n - 1);
    }
  }

  /** Replaying n entries is applying entry 1 at position 1, then entry 2 at position 2, and so on, each once. */
  lemma ReplayPasses(app: Applicator, log: seq<Entry>, n: nat, st: Data)
    requires n <= |log|
    ensures Replay(app, log, n) == Some(st) <==> exists states :: Passes(app, log, states) && |states| == n + 1 && states[n] == st
  {
    if Replay(app, log, n) == Some(st) {
      var states := PassesTo(app, log, n);
      assert states[n] == st;
    }
    forall states | Passes(app, log, states) && |states| == n + 1 && states[n] == st ensures Replay(app, log, n) == Some(st) {
      PassedIsReplayed(app, log, states, n);
    }
  }

  /** The store is the log replayed up to its own cursor: every earlier entry once, no later one. */
  ghost predicate Replayed(app: Applicator, log: seq<Entry>, st: Data) {
    && StoredCursor(st).Ok?
    && 1 <= StoredCursor(st).value <= |log| + 1
    && Replay(app, log, StoredCursor(st).value - 1) == Some(st)
  }

  lemma EmptyReplayed(app: Applicator, log: seq<Entry>)
    ensures Replayed(app, log, map[])
  {
  }

  lemma ReplayedLater(app: Applicator, log: seq<Entry>, log': seq<Entry>, st: Data)
    requires Replayed(app, log, st) && log <= log'
    ensures Replayed(app, log', st)
  {
    ReplayPrefix(app, log, log', StoredCursor(st).value - 1);
  }

  /** Applying the entry at the cursor moves the store, and its cursor, exactly one entry on. */
  lemma ApplyReplayed(app: Applicator, log: seq<Entry>, st: Data)
    requires Replayed(app, log, st) && StoredCursor(st).value <= |log|
    requires ApplyEntry(app, st, log[StoredCursor(st).value - 1], StoredCursor(st).value).Ok?
    ensures var c := StoredCursor(st).value;
            var st' := ApplyEntry(app, st, log[c - 1], c).value.0;
            Replayed(app, log, st') && StoredCursor(st') == Ok(c + 1)
  {
  }

  /** rv is the result of applying entry, which sits at position at, to the state made by all earlier
      entries of the log. */
  ghost predicate ResultAt(app: Applicator, log: seq<Entry>, entry: Entry, at: LogPos, rv: ReturnValue) {
    && 1 <= at <= |log| && log[at - 1] == entry
    && Replay(app, log, at - 1).Some?
    && ApplyEntry(app, Replay(app, log, at - 1).value, entry, at).Ok?
    && ApplyEntry(app, Replay(app, log, at - 1).value, entry, at).value.1 == rv
  }

  lemma ResultLater(app: Applicator, log: seq<Entry>, log': seq<Entry>, entry: Entry, at: LogPos, rv: ReturnValue)
    requires ResultAt(app, log, entry, at, rv) && log <= log'
    ensures ResultAt(app, log', entry, at, rv)
  {
    ReplayPrefix(app, log, log', at - 1);
  }

  /** Applying the entry at the cursor gives its result. */
  lemma ResultHere(app: Applicator, log: seq<Entry>, log': seq<Entry>, st: Data, at: LogPos, st': Data, rv: ReturnValue)
    requires Replayed(app, log, st) && StoredCursor(st) == Ok(at) && log <= log' && at <= |log'|
    requires ApplyEntry(app, st, log'[at - 1], at) == Ok((st', rv))
    ensures ResultAt(app, log', log'[at - 1], at, rv)
  {
    ReplayPrefix(app, log, log', at - 1);
  }

  /** Stores at the same cursor of the same log are equal. */
  lemma SameCursorSameStore(app: Applicator, log: seq<Entry>, st: Data, log': seq<Entry>, st': Data)
    requires Replayed(app, log, st) && Replayed(app, log', st') && (log <= log' || log' <= log)
    requires StoredCursor(st) == StoredCursor(st')
    ensures st == st'
  {
    var n := StoredCursor(st).value - 1;
    if log <= log' {
      ReplayPrefix(app, log, log', n);
    } else {
      ReplayPrefix(app, log', log, n);
    }
  }

  // ---- The shared log as the engine sees it ----

  /** Other replicas append whenever they like, and any call may fail. Appends get a position after
      everything that was there before, reads answer with the entry at the position if at all, and a
      tail may lag behind. */
  class SharedLog {
    var entries: seq<Entry>
    /** What the last append, tail check and read answered. */
    ghost var lastAppend: Result<LogPos>
    ghost var lastTail: Result<LogPos>
    ghost var lastRead: Result<Option<Entry>>

    constructor ()
      ensures entries == []
    {
      entries := [];
    }

    method Others()
      modifies this`entries
      ensures old(entries) <= entries
    {
      var more: seq<Entry> := *;
      entries := entries + more;
    }

    method Append(e: Entry) returns (r: Result<LogPos>)
      modifies this`entries, this`lastAppend
      ensures old(entries) <= entries && lastAppend == r
      ensures r.Ok? ==> |old(entries)| < r.value <= |entries| && entries[r.value - 1] == e
    {
      Others();
      var fails: bool := *;
      if fails {
        lastAppend := Err(Internal);
        return Err(Internal);
      }
      entries := entries + [e];
      r := Ok(|entries|);
      lastAppend := r;
      Others();
    }

    method CheckTail() returns (r: Result<LogPos>)
      modifies this`entries, this`lastTail
      ensures old(entries) <= entries && lastTail == r
      ensures r.Ok? ==> 1 <= r.value <= |entries| + 1
    {
      Others();
      var fails: bool, lag: nat := *, *;
      r := if fails then Err(Internal) else if lag <= |entries| then Ok(lag + 1) else Ok(|entries| + 1);
      lastTail := r;
    }

    method Read(pos: LogPos) returns (r: Result<Option<Entry>>)
      modifies this`entries, this`lastRead
      ensures old(entries) <= entries && lastRead == r
      ensures r.Ok? && r.value.Some? ==> 1 <= pos <= |entries| && r.value.value == entries[pos - 1]
    {
      Others();
      var fails: bool, hole: bool := *, *;
      r := if fails then Err(Trimmed(pos)) else Ok(if 1 <= pos <= |entries| && !hole then Some(entries[pos - 1]) else None);
      lastRead := r;
    }
  }

  // ---- The engine ----

  datatype Request = Propose(entry: Entry) | Sync

  datatype Reply = Proposed(result: Result<ReturnValue>) | Synced(tail: Result<LogPos>)

  predicate Succeeded(reply: Reply) {
    reply.Proposed? && reply.result.Ok?
  }

  class BaseEngine {
    const log: SharedLog
    const store: MemoryStore
    const app: Applicator
    var cursor: LogPos

    /** The store is the replayed log and the cursor in memory is the one in the store. */
    ghost predicate Valid()
      reads this, log, store
    {
      Replayed(app, log.entries, store.data) && StoredCursor(store.data) == Ok(cursor)
    }

    constructor (log: SharedLog, store: MemoryStore, app: Applicator, cursor: LogPos)
      ensures this.log == log && this.store == store && this.app == app && this.cursor == cursor
    {
      this.log, this.store, this.app, this.cursor := log, store, app, cursor;
    }

    /** Start-up: continue from the persisted cursor, refusing a cursor that does not decode. A store
        left behind by an earlier engine at any point gives a valid engine. */
    static method Recover(log: SharedLog, store: MemoryStore, app: Applicator) returns (r: Result<BaseEngine>)
      ensures r.Err? <==> StoredCursor(store.data).Err?
      ensures r.Err? ==> r.error == StoreError
      ensures r.Ok? ==> fresh(r.value) && r.value.log == log && r.value.store == store && r.value.app == app
      ensures r.Ok? ==> r.value.cursor == StoredCursor(store.data).value
      ensures r.Ok? && Replayed(app, log.entries, store.data) ==> r.value.Valid()
    {
      var cell := if CURSOR_KEY in store.data then Some(store.data[CURSOR_KEY]) else None;
      match cell {
        case None =>
          var engine := new BaseEngine(log, store, app, LOG_POS_BEGIN);
          return Ok(engine);
        case Some(CursorCell(pos)) =>
          var engine := new BaseEngine(log, store, app, pos);
          return Ok(engine);
        case Some(_) =>
          return Err(StoreError);
      }
    }

    /** Reads one entry, applies it and commits effect and cursor together; on any error the store
        and the cursor are as before. */
    method ApplyOne() returns (r: Result<ReturnValue>)
      requires Valid()
      modifies log`entries, log`lastRead, store
      ensures old(log.entries) <= log.entries && cursor == old(cursor)
      ensures Replayed(app, log.entries, store.data)
      ensures r.Err? <==> ApplyError(app, old(store.data), log.lastRead, cursor).Some?
      ensures r.Err? ==> ApplyError(app, old(store.data), log.lastRead, cursor) == Some(r.error)
      ensures r.Err? ==> store.data == old(store.data) && Valid()
      ensures r.Ok? ==> cursor <= |log.entries| && StoredCursor(store.data) == Ok(cursor + 1)
      ensures r.Ok? ==> ApplyEntry(app, old(store.data), log.entries[cursor - 1], cursor) == Ok((store.data, r.value))
    {
      var read := log.Read(cursor);
      ReplayedLater(app, old(log.entries), log.entries, store.data);
      if read.Err? {
        return Err(read.error);
      }
      if read.value.None? {
        return Err(Internal);
      }
      if app(store.data, read.value.value, cursor).Ok? { ApplyReplayed(app, log.entries, store.data); }
      r := InTransaction(read.value.value);
    }

    /** One transaction: the applicator's effect and the next cursor, or nothing. */
    method InTransaction(e: Entry) returns (r: Result<ReturnValue>)
      modifies store
      ensures match app(old(store.data), e, cursor)
              case Err(err) => r == Err(err) && store.data == old(store.data)
              case Ok((st, rv)) => r == Ok(rv) && store.data == st[CURSOR_KEY := CursorCell(cursor + 1)]
    {
      var txn := new WriteTxn(store);
      var applied := app(txn.working, e, cursor);
      if applied.Err? {
        return Err(applied.error);
      }
      txn.working := applied.value.0;
      txn.Put(CURSOR_KEY, CursorCell(cursor + 1));
      txn.Commit();
      return Ok(applied.value.1);
    }

    /** Appends the entry and plays forward until it is applied. A successful answer is the result of
        applying this very entry to the state made by all earlier entries of the log. */
    method HandlePropose(entry: Entry) returns (r: Result<ReturnValue>, ghost at: LogPos)
      requires Valid()
      modifies this, log, store
      ensures Valid()
      ensures old(log.entries) <= log.entries && cursor >= old(cursor)
      ensures r.Err? ==>
                || log.lastAppend == Err(r.error)
                || (log.lastAppend == Ok(at) && cursor <= at && ApplyError(app, store.data, log.lastRead, cursor) == Some(r.error))
      ensures r.Ok? ==> log.lastAppend == Ok(at)
      ensures r.Ok? ==> |old(log.entries)| < at && cursor == at + 1 && ResultAt(app, log.entries, entry, at, r.value)
    {
      at := 0;
      var target := log.Append(entry);
      ReplayedLater(app, old(log.entries), log.entries, store.data);
      if target.Err? {
        return Err(target.error), at;
      }
      at := target.value;
      var result := Success;
      while cursor <= target.value
        invariant Valid() && log.lastAppend == Ok(at)
        invariant old(log.entries) <= log.entries && old(cursor) <= cursor <= target.value + 1
        invariant |old(log.entries)| < at == target.value <= |log.entries| && log.entries[at - 1] == entry
        invariant cursor == at + 1 ==> ResultAt(app, log.entries, entry, at, result)
        decreases target.value + 1 - cursor
      {
        var rv := Advance();
        if rv.Err? {
          return Err(rv.error), at;
        }
        if cursor == target.value + 1 {
          result := rv.value;
        }
      }
      return Ok(result), at;
    }

    /** Applies the entry at the cursor and moves on; the answer is that entry's result. */
    method Advance() returns (r: Result<ReturnValue>)
      requires Valid()
      modifies this`cursor, log`entries, log`lastRead, store
      ensures Valid() && old(log.entries) <= log.entries
      ensures r.Err? ==> cursor == old(cursor) && ApplyError(app, store.data, log.lastRead, cursor) == Some(r.error)
      ensures r.Ok? ==> cursor == old(cursor) + 1 && old(cursor) <= |log.entries|
      ensures r.Ok? ==> ResultAt(app, log.entries, log.entries[old(cursor) - 1], old(cursor), r.value)
    {
      ghost var before, was := log.entries, store.data;
      r := ApplyOne();
      if r.Ok? {
        ResultHere(app, before, log.entries, was, cursor, store.data, r.value);
        cursor := cursor + 1;
      }
    }

    /** Plays forward to the tail; a successful answer t means the store covers every entry below t. */
    method HandleSync() returns (r: Result<LogPos>)
      requires Valid()
      modifies this, log, store
      ensures Valid()
      ensures old(log.entries) <= log.entries && cursor >= old(cursor)
      ensures r.Ok? ==> log.lastTail == r && 1 <= r.value <= |log.entries| + 1
      ensures r.Ok? ==> cursor == if old(cursor) > r.value then old(cursor) else r.value
      ensures r.Err? ==>
                || log.lastTail == r
                || (log.lastTail.Ok? && cursor < log.lastTail.value && ApplyError(app, store.data, log.lastRead, cursor) == Some(r.error))
    {
      var tail := log.CheckTail();
      ReplayedLater(app, old(log.entries), log.entries, store.data);
      if tail.Err? {
        return Err(tail.error);
      }
      while cursor < tail.value
        invariant Valid() && log.lastTail == tail
        invariant old(log.entries) <= log.entries && cursor >= old(cursor)
        invariant cursor > old(cursor) ==> cursor <= tail.value
        invariant 1 <= tail.value <= |log.entries| + 1
        decreases tail.value - cursor
      {
        var rv := Advance();
        if rv.Err? {
          return Err(rv.error);
        }
      }
      return Ok(tail.value);
    }

    /** The apply loop: requests are served one after the other, each answered once and in order. The
        entry of a successful proposal sits at its own place in the log, after those of all earlier ones. */
    method Serve(requests: seq<Request>) returns (replies: seq<Reply>, ghost at: seq<LogPos>)
      requires Valid()
      modifies this, log, store
      ensures Valid()
      ensures old(log.entries) <= log.entries && cursor >= old(cursor)
      ensures |replies| == |requests| == |at|
      ensures forall i :: 0 <= i < |requests| ==> Answers(requests[i], replies[i], at[i])
      ensures forall i, j :: 0 <= i < j < |requests| && Succeeded(replies[i]) && Succeeded(replies[j]) ==> at[i] < at[j]
    {
      replies, at := [], [];
      for i := 0 to |requests|
        invariant Valid()
        invariant old(log.entries) <= log.entries && cursor >= old(cursor)
        invariant |replies| == i == |at|
        invariant forall j :: 0 <= j < i ==> Answers(requests[j], replies[j], at[j])
        invariant forall j :: 0 <= j < i && Succeeded(replies[j]) ==> at[j] <= |log.entries|
        invariant forall j, k :: 0 <= j < k < i && Succeeded(replies[j]) && Succeeded(replies[k]) ==> at[j] < at[k]
      {
        ghost var before, c := log.entries, cursor;
        var reply: Reply;
        ghost var p: LogPos := 0;
        match requests[i] {
          case Propose(entry) =>
            var r;
            r, p := HandlePropose(entry);
            reply := Proposed(r);
          case Sync =>
            var r := HandleSync();
            reply := Synced(r);
        }
        forall j | 0 <= j < i ensures Answers(requests[j], replies[j], at[j]) {
          AnswersLater(before, c, requests[j], replies[j], at[j]);
        }
        replies, at := replies + [reply], at + [p];
      }
    }

    /** A good answer to a proposal is its sequential result and covered by the cursor, one to a sync is
        a tail that the cursor has reached. */
    ghost predicate Answers(q: Request, reply: Reply, at: LogPos)
      reads this, log
    {
      AnswersAt(log.entries, cursor, q, reply, at)
    }

    ghost predicate AnswersAt(entries: seq<Entry>, c: LogPos, q: Request, reply: Reply, at: LogPos)
    {
      match q
      case Propose(entry) =>
        reply.Proposed? && (reply.result.Ok? ==> at < c && ResultAt(app, entries, entry, at, reply.result.value))
      case Sync => reply.Synced? && (reply.tail.Ok? ==> 1 <= reply.tail.value <= c)
    }

    lemma AnswersLater(entries: seq<Entry>, c: LogPos, q: Request, reply: Reply, at: LogPos)
      requires AnswersAt(entries, c, q, reply, at) && entries <= log.entries && c <= cursor
      ensures Answers(q, reply, at)
    {
      if q.Propose? && reply.result.Ok? {
        ResultLater(app, entries, log.entries, q.entry, at, reply.result.value);
      }
    }
  }
}
