/** The in-memory ordered store: snapshots, write transactions and the prefix scan. */
module LocalStore {
  import opened RelosCore

  type Key = Bytes

  /** Stored values, kept typed. */
  datatype Cell = CursorCell(pos: LogPos) | SchemaCell(schema: TableSchema) | RowCell(row: Row)

  type Data = map<Key, Cell>

  // ---- Key order ----

  predicate LexLe(a: Key, b: Key) {
    a == [] || (b != [] && (a[0] < b[0] || (a[0] == b[0] && LexLe(a[1..], b[1..]))))
  }

  lemma {:induction false} LexRefl(a: Key)
    ensures LexLe(a, a)
  {
    if a != [] { LexRefl(a[1..]); }
  }

  lemma {:induction false} LexTotal(a: Key, b: Key)
    ensures LexLe(a, b) || LexLe(b, a)
  {
    if a != [] && b != [] { LexTotal(a[1..], b[1..]); }
  }

  lemma {:induction false} LexAntisymmetric(a: Key, b: Key)
    requires LexLe(a, b) && LexLe(b, a)
    ensures a == b
  {
    if a != [] {
      LexAntisymmetric(a[1..], b[1..]);
      assert a == [a[0]] + a[1..] && b == [b[0]] + b[1..];
    }
  }

  lemma {:induction false} LexTransitive(a: Key, b: Key, c: Key)
    requires LexLe(a, b) && LexLe(b, c)
    ensures LexLe(a, c)
  {
    if a != [] && a[0] == b[0] == c[0] { LexTransitive(a[1..], b[1..], c[1..]); }
  }

  lemma {:induction false} PrefixIsLower(p: Key, k: Key)
    requires p <= k
    ensures LexLe(p, k)
  {
    if p != [] {
      assert p[1..] <= k[1..];
      PrefixIsLower(p[1..], k[1..]);
    }
  }

  /** Keys with a common prefix form one block: whatever lies between the prefix and such a key has it too. */
  lemma {:induction false} PrefixBlock(p: Key, j: Key, k: Key)
    requires LexLe(p, j) && LexLe(j, k) && p <= k
    ensures p <= j
  {
    if p != [] {
      assert p[0] == k[0] && p[1..] <= k[1..];
      PrefixBlock(p[1..], j[1..], k[1..]);
      assert p == [p[0]] + p[1..] && j == [j[0]] + j[1..];
    }
  }

  // ---- Iteration in key order ----

  predicate Least(k: Key, s: set<Key>) {
    k in s && forall x :: x in s ==> LexLe(k, x)
  }

  lemma {:induction false} LeastExists(s: set<Key>)
    requires s != {}
    ensures exists k :: Least(k, s)
    decreases |s|
  {
    var k :| k in s;
    if s == {k} {
      LexRefl(k);
      assert Least(k, s);
    } else {
      LeastExists(s - {k});
      var m :| Least(m, s - {k});
      LexTotal(k, m);
      LexRefl(k);
      if LexLe(k, m) {
        forall x | x in s ensures LexLe(k, x) {
          if x != k { LexTransitive(k, m, x); }
        }
        assert Least(k, s);
      } else {
        assert Least(m, s);
      }
    }
  }

  lemma LeastUnique(s: set<Key>)
    ensures forall j, k :: Least(j, s) && Least(k, s) ==> j == k
  {
    forall j, k | Least(j, s) && Least(k, s) ensures j == k {
      LexAntisymmetric(j, k);
    }
  }

  function LeastKey(s: set<Key>): (k: Key)
    requires s != {}
    ensures Least(k, s)
  {
    LeastExists(s);
    LeastUnique(s);
    var k :| Least(k, s);
    k
  }

  function SortedKeys(s: set<Key>): seq<Key> {
    if s == {} then [] else var k := LeastKey(s); [k] + SortedKeys(s - {k})
  }

  ghost predicate Ascending(ks: seq<Key>) {
    forall i, j :: 0 <= i < j < |ks| ==> LexLe(ks[i], ks[j]) && ks[i] != ks[j]
  }

  lemma {:induction false} SortedKeysCorrect(s: set<Key>)
    ensures Ascending(SortedKeys(s))
    ensures forall k :: k in SortedKeys(s) <==> k in s
    decreases |s|
  {
    if s != {} {
      var k := LeastKey(s);
      SortedKeysCorrect(s - {k});
      var ks, rest := SortedKeys(s), SortedKeys(s - {k});
      forall i, j | 0 <= i < j < |ks| ensures LexLe(ks[i], ks[j]) && ks[i] != ks[j] {
        assert ks[j] == rest[j - 1] && rest[j - 1] in s - {k};
        if i > 0 { assert ks[i] == rest[i - 1]; }
      }
    }
  }

  // ---- Prefix scan ----

  /** range(p..) */
  function RangeFrom(ks: seq<Key>, p: Key): seq<Key> {
    if ks == [] || LexLe(p, ks[0]) then ks else RangeFrom(ks[1..], p)
  }

  /** take_while(starts_with p) */
  function TakeWithPrefix(ks: seq<Key>, p: Key): seq<Key> {
    if ks == [] || !(p <= ks[0]) then [] else [ks[0]] + TakeWithPrefix(ks[1..], p)
  }

  function ScanKeys(m: Data, p: Key): seq<Key> {
    TakeWithPrefix(RangeFrom(SortedKeys(m.Keys), p), p)
  }

  function ScanPrefix(m: Data, p: Key): seq<(Key, Cell)> {
    ScanExact(m, p);
    var ks := ScanKeys(m, p);
    seq(|ks|, i requires 0 <= i < |ks| => (ks[i], m[ks[i]]))
  }

  lemma {:induction false} RangeFromKeeps(ks: seq<Key>, p: Key)
    requires Ascending(ks)
    ensures Ascending(RangeFrom(ks, p))
    ensures forall k :: k in RangeFrom(ks, p) ==> k in ks && LexLe(p, k)
    ensures forall k :: k in ks && p <= k ==> k in RangeFrom(ks, p)
  {
    if ks == [] {
    } else if LexLe(p, ks[0]) {
      forall k | k in ks ensures LexLe(p, k) {
        var i :| 0 <= i < |ks| && ks[i] == k;
        if i > 0 { LexTransitive(p, ks[0], ks[i]); }
      }
    } else {
      RangeFromKeeps(ks[1..], p);
      forall k | k in ks && p <= k ensures k in RangeFrom(ks, p) {
        PrefixIsLower(p, k);
        assert k != ks[0];
        assert k in ks[1..];
      }
    }
  }

  lemma {:induction false} TakeWithPrefixKeeps(ks: seq<Key>, p: Key)
    requires Ascending(ks) && forall k :: k in ks ==> LexLe(p, k)
    ensures Ascending(TakeWithPrefix(ks, p))
    ensures forall k :: k in TakeWithPrefix(ks, p) <==> k in ks && p <= k
  {
    if ks == [] {
    } else if !(p <= ks[0]) {
      forall k | k in ks ensures !(p <= k) {
        var i :| 0 <= i < |ks| && ks[i] == k;
        if i > 0 && p <= k { PrefixBlock(p, ks[0], k); }
      }
    } else {
      TakeWithPrefixKeeps(ks[1..], p);
      var out, rest := TakeWithPrefix(ks, p), TakeWithPrefix(ks[1..], p);
      forall i, j | 0 <= i < j < |out| ensures LexLe(out[i], out[j]) && out[i] != out[j] {
        assert out[j] == rest[j - 1] && rest[j - 1] in ks[1..];
        if i > 0 { assert out[i] == rest[i - 1]; }
      }
    }
  }

  /** The scan visits, in ascending order, exactly the keys that start with the prefix. */
  lemma ScanExact(m: Data, p: Key)
    ensures Ascending(ScanKeys(m, p))
    ensures forall k :: k in ScanKeys(m, p) <==> k in m && p <= k
  {
    SortedKeysCorrect(m.Keys);
    RangeFromKeeps(SortedKeys(m.Keys), p);
    TakeWithPrefixKeeps(RangeFrom(SortedKeys(m.Keys), p), p);
  }

  // ---- Store and transactions ----

  class MemoryStore {
    var data: Data

    constructor ()
      ensures data == map[]
    {
      data := map[];
    }
  }

  /** A read snapshot: a copy of the store's data when it began. */
  class ReadTxn {
    const snapshot: Data

    constructor (store: MemoryStore)
      ensures snapshot == store.data
    {
      snapshot := store.data;
    }

    method Get(key: Key) returns (r: Option<Cell>)
      ensures r == if key in snapshot then Some(snapshot[key]) else None
    {
      r := if key in snapshot then Some(snapshot[key]) else None;
    }
  }

  /** A write transaction: a working copy that replaces the store's data on commit. */
  class WriteTxn {
    const store: MemoryStore
    var working: Data
    var committed: bool

    constructor (store: MemoryStore)
      ensures this.store == store && working == store.data && !committed
    {
      this.store := store;
      working := store.data;
      committed := false;
    }

    method Get(key: Key) returns (r: Option<Cell>)
      ensures r == if key in working then Some(working[key]) else None
    {
      r := if key in working then Some(working[key]) else None;
    }

    method PrefixScan(prefix: Key) returns (r: seq<(Key, Cell)>)
      ensures r == ScanPrefix(working, prefix)
    {
      r := ScanPrefix(working, prefix);
    }

    method Put(key: Key, value: Cell)
      modifies this
      ensures working == old(working)[key := value] && committed == old(committed)
    {
      working := working[key := value];
    }

    method Delete(key: Key)
      modifies this
      ensures working == old(working) - {key} && committed == old(committed)
    {
      working := working - {key};
    }

    /** The store takes the whole working copy. */
    method Commit()
      modifies this, store
      ensures store.data == old(working) && committed
    {
      store.data, working := working, store.data;
      committed := true;
    }

    /** The store is left alone. */
    method Rollback()
      modifies this
      ensures working == map[] && committed
    {
      working := map[];
      committed := true;
    }
  }
}
