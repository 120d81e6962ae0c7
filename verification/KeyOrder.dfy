/** What keys look like and how they sort: keys can be read back, base 16 keeps the order of bytes, and so a
    scan visits rows in the order of their serialized keys. */
module KeyOrder {
  import opened RelosCore
  import opened KeyCodec
  import opened LocalStore

  // ---- Spelling ----

  function Ascii(s: string): Bytes {
    seq(|s|, i requires 0 <= i < |s| => if s[i] as int < 256 then s[i] as int else 0)
  }

  lemma PartsSpelled()
    ensures SCHEMA == Ascii("schema/")
    ensures DATA == Ascii("data/")
    ensures [SLASH] == Ascii("/")
  {
  }

  /** The keys, spelled out. */
  lemma KeysSpelled(table: Name, pk: seq<Value>)
    ensures SchemaKey(table) == Ascii("schema/") + table
    ensures RowPrefix(table) == Ascii("data/") + table + Ascii("/")
    ensures RowKey(table, pk) == RowPrefix(table) + EncodePrimaryKey(pk)
  {
    PartsSpelled();
  }

  lemma CursorSpelled()
    ensures CURSOR_KEY == Ascii("__cursor__")
  {
  }

  /** Key values are joined by a zero byte. */
  lemma KeyJoined(pk: seq<Value>)
    ensures |pk| == 1 ==> EncodePrimaryKey(pk) == Hex(Serialize(pk[0]))
    ensures |pk| > 1 ==> EncodePrimaryKey(pk) == Hex(Serialize(pk[0])) + [0] + EncodePrimaryKey(pk[1..])
  {
  }

  /** Base 16 in lower case, high digit first. */
  lemma HexSpelled(b: Byte)
    ensures Hex([b]) == [Ascii("0123456789abcdef")[b / 16], Ascii("0123456789abcdef")[b % 16]]
  {
    assert [b][1..] == [];
    HexDigitSpelled(b / 16);
    HexDigitSpelled(b % 16);
  }

  lemma HexDigitSpelled(d: nat)
    requires d < 16
    ensures HexDigit(d) == Ascii("0123456789abcdef")[d]
  {
  }

  // ---- Reading back ----

  function FromLittleEndian(b: Bytes): nat {
    if b == [] then 0 else b[0] + 256 * FromLittleEndian(b[1..])
  }

  lemma {:induction false} LittleEndianBack(n: nat, width: nat)
    requires n < Power256(width)
    ensures FromLittleEndian(LittleEndian(n, width)) == n
  {
    if width > 0 { LittleEndianBack(n / 256, width - 1); }
  }

  function Signed(w: Word64): Int64 {
    if w < 0x8000_0000_0000_0000 then w else w - 0x1_0000_0000_0000_0000
  }

  /** Reads a body by the variant's number. */
  function FromBody(tag: nat, body: Bytes): Option<Value> {
    if tag == 0 && |body| == 0 then Some(Null)
    else if tag == 1 && |body| == 8 then FromWord(body)
    else if tag == 4 && body == [0] then Some(BoolValue(false))
    else if tag == 4 && body == [1] then Some(BoolValue(true))
    else if tag == 5 && |body| == 8 then FromBits(body)
    else if (tag == 2 || tag == 3) && |body| >= 8 then FromText(tag == 2, body)
    else None
  }

  /** Reads a value: variant number, then the body that the variant says. */
  function Deserialize(b: Bytes): Option<Value> {
    if |b| < 4 then None else FromBody(FromLittleEndian(b[..4]), b[4..])
  }

  function FromWord(body: Bytes): Option<Value> {
    var w := FromLittleEndian(body);
    if w < 0x1_0000_0000_0000_0000 then Some(Int64Value(Signed(w))) else None
  }

  function FromBits(body: Bytes): Option<Value> {
    var w := FromLittleEndian(body);
    if w < 0x1_0000_0000_0000_0000 then Some(Float64Value(w)) else None
  }

  function FromText(utf8: bool, body: Bytes): Option<Value>
    requires |body| >= 8
  {
    var text := body[8..];
    if FromLittleEndian(body[..8]) != |text| || |text| >= 0x1_0000_0000_0000_0000 then None
    else if utf8 then Some(Utf8Value(text)) else Some(BytesValue(text))
  }

  lemma BodyBack(v: Value)
    ensures FromBody(Tag(v), Body(v)) == Some(v)
  {
    match v
    case Int64Value(i) => WordBack(Word(i));
    case Float64Value(bits) => WordBack(bits);
    case Utf8Value(text) => TextBack(text, Body(v));
    case BytesValue(bytes) => TextBack(bytes, Body(v));
    case _ =>
  }

  lemma WordBack(w: Word64)
    ensures FromLittleEndian(LittleEndian(w, 8)) == w
  {
    Power256Values();
    LittleEndianBack(w, 8);
  }

  /** A serialized value reads back as itself. */
  lemma SerializeBack(v: Value)
    ensures Deserialize(Serialize(v)) == Some(v)
  {
    Power256Values();
    LittleEndianBack(Tag(v), 4);
    assert Serialize(v)[..4] == LittleEndian(Tag(v), 4) && Serialize(v)[4..] == Body(v);
    BodyBack(v);
  }

  lemma TextBack(text: ShortBytes, body: Bytes)
    requires body == LittleEndian(|text|, 8) + text
    ensures FromLittleEndian(body[..8]) == |text| && body[8..] == text
  {
    Power256Values();
    LittleEndianBack(|text|, 8);
    assert body[..8] == LittleEndian(|text|, 8);
  }

  // ---- Order ----

  /** Lexicographic order is decided by the first difference. */
  lemma {:induction false} LexByFirstDifference(a: Key, b: Key)
    ensures LexLe(a, b) <==> a <= b || exists i :: 0 <= i < |a| && i < |b| && a[..i] == b[..i] && a[i] < b[i]
  {
    if a != [] && b != [] {
      LexByFirstDifference(a[1..], b[1..]);
      if a[0] < b[0] {
        assert a[..0] == b[..0];
      } else if a[0] == b[0] {
        LaterDifference(a, b);
      }
    }
  }

  lemma LaterDifference(a: Key, b: Key)
    requires a != [] && b != [] && a[0] == b[0]
    ensures a <= b <==> a[1..] <= b[1..]
    ensures (exists i :: 0 <= i < |a| && i < |b| && a[..i] == b[..i] && a[i] < b[i]) <==>
            (exists i :: 0 <= i < |a[1..]| && i < |b[1..]| && a[1..][..i] == b[1..][..i] && a[1..][i] < b[1..][i])
  {
    assert a == [a[0]] + a[1..] && b == [b[0]] + b[1..];
    if exists i :: 0 <= i < |a| && i < |b| && a[..i] == b[..i] && a[i] < b[i] {
      var i :| 0 <= i < |a| && i < |b| && a[..i] == b[..i] && a[i] < b[i];
      assert a[1..][..i - 1] == a[..i][1..] && b[1..][..i - 1] == b[..i][1..];
      assert a[1..][i - 1] < b[1..][i - 1];
    }
    if exists i :: 0 <= i < |a[1..]| && i < |b[1..]| && a[1..][..i] == b[1..][..i] && a[1..][i] < b[1..][i] {
      var i :| 0 <= i < |a[1..]| && i < |b[1..]| && a[1..][..i] == b[1..][..i] && a[1..][i] < b[1..][i];
      assert a[..i + 1] == [a[0]] + a[1..][..i] && b[..i + 1] == [b[0]] + b[1..][..i];
      assert a[i + 1] < b[i + 1];
    }
  }

  lemma {:induction false} LexSamePrefix(p: Key, a: Key, b: Key)
    ensures LexLe(p + a, p + b) <==> LexLe(a, b)
    decreases |p|
  {
    if p == [] {
      assert p + a == a && p + b == b;
    } else {
      assert (p + a)[1..] == p[1..] + a && (p + b)[1..] == p[1..] + b;
      LexSamePrefix(p[1..], a, b);
    }
  }

  /** Base 16 keeps the order of bytes. */
  lemma {:induction false} HexKeepsOrder(a: Bytes, b: Bytes)
    ensures LexLe(Hex(a), Hex(b)) <==> LexLe(a, b)
  {
    if a != [] && b != [] {
      HexKeepsOrder(a[1..], b[1..]);
      var x, y := Hex(a), Hex(b);
      assert x == [x[0], x[1]] + Hex(a[1..]) && y == [y[0], y[1]] + Hex(b[1..]);
      TwoDigits(x, y, Hex(a[1..]), Hex(b[1..]));
      assert a[0] == 16 * (a[0] / 16) + a[0] % 16 && b[0] == 16 * (b[0] / 16) + b[0] % 16;
    }
  }

  lemma TwoDigits(x: Key, y: Key, x': Key, y': Key)
    requires |x| >= 2 && |y| >= 2 && x[2..] == x' && y[2..] == y'
    ensures LexLe(x, y) <==> x[0] < y[0] || (x[0] == y[0] && (x[1] < y[1] || (x[1] == y[1] && LexLe(x', y'))))
  {
    assert x[1..][1..] == x' && y[1..][1..] == y';
  }

  /** Rows with one key column are visited in the order of their serialized keys. */
  lemma RowOrder(t: Name, v: Value, w: Value)
    ensures LexLe(RowKey(t, [v]), RowKey(t, [w])) <==> LexLe(Serialize(v), Serialize(w))
  {
    LexSamePrefix(RowPrefix(t), EncodePrimaryKey([v]), EncodePrimaryKey([w]));
    HexKeepsOrder(Serialize(v), Serialize(w));
  }

  /** That puts false before true and texts of equal length in byte order. */
  lemma ValueOrder(s: ShortBytes, t: ShortBytes)
    ensures LexLe(Serialize(BoolValue(false)), Serialize(BoolValue(true))) && !LexLe(Serialize(BoolValue(true)), Serialize(BoolValue(false)))
    ensures |s| == |t| ==> (LexLe(Serialize(Utf8Value(s)), Serialize(Utf8Value(t))) <==> LexLe(s, t))
    ensures |s| == |t| ==> (LexLe(Serialize(BytesValue(s)), Serialize(BytesValue(t))) <==> LexLe(s, t))
  {
    LexSamePrefix(LittleEndian(4, 4), [0], [1]);
    LexSamePrefix(LittleEndian(4, 4), [1], [0]);
    var p2, p3 := LittleEndian(2, 4), LittleEndian(3, 4);
    LexSamePrefix(p2, LittleEndian(|s|, 8) + s, LittleEndian(|t|, 8) + t);
    LexSamePrefix(p3, LittleEndian(|s|, 8) + s, LittleEndian(|t|, 8) + t);
    if |s| == |t| { LexSamePrefix(LittleEndian(|s|, 8), s, t); }
  }

  /** Integers are not visited in numeric order: 256 comes before 1. */
  lemma IntegersOutOfOrder(t: Name)
    ensures LexLe(RowKey(t, [Int64Value(256)]), RowKey(t, [Int64Value(1)])) && !LexLe(RowKey(t, [Int64Value(1)]), RowKey(t, [Int64Value(256)]))
  {
    RowOrder(t, Int64Value(256), Int64Value(1));
    RowOrder(t, Int64Value(1), Int64Value(256));
    var tag := LittleEndian(1, 4);
    LexSamePrefix(tag, LittleEndian(256, 8), LittleEndian(1, 8));
    LexSamePrefix(tag, LittleEndian(1, 8), LittleEndian(256, 8));
    assert LittleEndian(256, 8)[0] == 0 && LittleEndian(1, 8)[0] == 1;
  }
}
