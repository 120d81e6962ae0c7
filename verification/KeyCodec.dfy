/** The byte keys of the table layer, and what makes them unambiguous. */
module KeyCodec {
  import opened RelosCore

  const SLASH: Byte := 47
  const NUL: Byte := 0
  /** "schema/" */
  const SCHEMA: Bytes := [115, 99, 104, 101, 109, 97, 47]
  /** "data/" */
  const DATA: Bytes := [100, 97, 116, 97, 47]
  /** "__cursor__" */
  const CURSOR_KEY: Bytes := [95, 95, 99, 117, 114, 115, 111, 114, 95, 95]

  // ---- Values as bytes: a 32-bit tag, then a fixed-width or length-prefixed body ----

  function LittleEndian(n: nat, width: nat): (b: Bytes)
    ensures |b| == width
    decreases width
  {
    if width == 0 then [] else [n % 256] + LittleEndian(n / 256, width - 1)
  }

  function Word(i: Int64): Word64 {
    if i < 0 then i + 0x1_0000_0000_0000_0000 else i
  }

  function Tag(v: Value): Byte {
    match v
    case Null => 0
    case Int64Value(_) => 1
    case Utf8Value(_) => 2
    case BytesValue(_) => 3
    case BoolValue(_) => 4
    case Float64Value(_) => 5
  }

  function Body(v: Value): Bytes {
    match v
    case Null => []
    case Int64Value(i) => LittleEndian(Word(i), 8)
    case Utf8Value(text) => LittleEndian(|text|, 8) + text
    case BytesValue(bytes) => LittleEndian(|bytes|, 8) + bytes
    case BoolValue(b) => if b then [1] else [0]
    case Float64Value(bits) => LittleEndian(bits, 8)
  }

  function Serialize(v: Value): Bytes {
    LittleEndian(Tag(v), 4) + Body(v)
  }

  function HexDigit(d: nat): Byte
    requires d < 16
  {
    if d < 10 then 48 + d else 87 + d
  }

  function Hex(b: Bytes): (h: Bytes)
    ensures |h| == 2 * |b|
  {
    if b == [] then [] else [HexDigit(b[0] / 16), HexDigit(b[0] % 16)] + Hex(b[1..])
  }

  /** Each value in base 16, joined by NUL. */
  function EncodePrimaryKey(vs: seq<Value>): Bytes {
    if vs == [] then []
    else if |vs| == 1 then Hex(Serialize(vs[0]))
    else Hex(Serialize(vs[0])) + [NUL] + EncodePrimaryKey(vs[1..])
  }

  function SchemaKey(table: Name): Bytes {
    SCHEMA + table
  }

  function RowPrefix(table: Name): Bytes {
    DATA + table + [SLASH]
  }

  function RowKey(table: Name, pk: seq<Value>): Bytes {
    RowPrefix(table) + EncodePrimaryKey(pk)
  }

  // ---- Injectivity ----

  lemma {:induction false} LittleEndianInjective(n: nat, m: nat, width: nat)
    requires n < Power256(width) && m < Power256(width) && LittleEndian(n, width) == LittleEndian(m, width)
    ensures n == m
  {
    if width > 0 {
      var a, b := LittleEndian(n, width), LittleEndian(m, width);
      assert a[0] == b[0] && a[1..] == LittleEndian(n / 256, width - 1) && b[1..] == LittleEndian(m / 256, width - 1);
      LittleEndianInjective(n / 256, m / 256, width - 1);
    }
  }

  function Power256(width: nat): nat {
    if width == 0 then 1 else 256 * Power256(width - 1)
  }

  lemma Power256Values()
    ensures Power256(8) == 0x1_0000_0000_0000_0000 && Power256(4) == 0x1_0000_0000
  {
  }

  lemma SerializeInjective(v: Value, w: Value)
    requires Serialize(v) == Serialize(w)
    ensures v == w
  {
    Power256Values();
    assert Serialize(v)[..4] == LittleEndian(Tag(v), 4) && Serialize(w)[..4] == LittleEndian(Tag(w), 4);
    LittleEndianInjective(Tag(v), Tag(w), 4);
    assert Serialize(v)[4..] == Body(v) && Serialize(w)[4..] == Body(w);
    match v
    case Null =>
    case Int64Value(i) => LittleEndianInjective(Word(i), Word(w.i), 8);
    case Utf8Value(text) => assert text == Body(v)[8..] && w.text == Body(w)[8..];
    case BytesValue(bytes) => assert bytes == Body(v)[8..] && w.bytes == Body(w)[8..];
    case BoolValue(b) =>
    case Float64Value(bits) => LittleEndianInjective(bits, w.bits, 8);
  }

  lemma {:induction false} HexInjective(a: Bytes, b: Bytes)
    requires Hex(a) == Hex(b)
    ensures a == b
  {
    if a != [] {
      assert |b| == |a|;
      assert Hex(a)[0] == HexDigit(a[0] / 16) && Hex(a)[1] == HexDigit(a[0] % 16);
      assert Hex(b)[0] == HexDigit(b[0] / 16) && Hex(b)[1] == HexDigit(b[0] % 16);
      assert a[0] == b[0];
      assert Hex(a)[2..] == Hex(a[1..]) && Hex(b)[2..] == Hex(b[1..]);
      HexInjective(a[1..], b[1..]);
    } else {
      assert b == [];
    }
  }

  lemma {:induction false} HexAlphabet(b: Bytes)
    ensures forall i :: 0 <= i < |Hex(b)| ==> Hex(b)[i] != NUL && Hex(b)[i] != SLASH
  {
    if b != [] {
      HexAlphabet(b[1..]);
      forall i | 0 <= i < |Hex(b)| ensures Hex(b)[i] != NUL && Hex(b)[i] != SLASH {
        assert i >= 2 ==> Hex(b)[i] == Hex(b[1..])[i - 2];
      }
    }
  }

  lemma {:induction false} EncodingHasNoSlash(vs: seq<Value>)
    ensures SLASH !in EncodePrimaryKey(vs)
  {
    if vs != [] {
      HexAlphabet(Serialize(vs[0]));
      EncodingHasNoSlash(vs[1..]);
    }
  }

  /** Parts before the first NUL can be told apart. */
  lemma FirstNulSplits(x: Bytes, y: Bytes, x': Bytes, y': Bytes)
    requires x + [NUL] + y == x' + [NUL] + y' && NUL !in x && NUL !in x'
    ensures x == x' && y == y'
  {
    var s := x + [NUL] + y;
    assert s == x' + [NUL] + y';
    assert s[|x|] == NUL && s[|x'|] == NUL;
    assert forall i :: 0 <= i < |x| ==> s[i] == x[i];
    assert forall i :: 0 <= i < |x'| ==> s[i] == x'[i];
    assert x == s[..|x|] && x' == s[..|x|];
    assert y == s[|x| + 1..] && y' == s[|x| + 1..];
  }

  lemma NulSeparates(vs: seq<Value>)
    ensures vs == [] <==> EncodePrimaryKey(vs) == []
    ensures NUL in EncodePrimaryKey(vs) <==> |vs| > 1
  {
    if vs != [] {
      var x := Hex(Serialize(vs[0]));
      HexAlphabet(Serialize(vs[0]));
      if |vs| > 1 {
        assert EncodePrimaryKey(vs)[|x|] == NUL;
      }
    }
  }

  lemma {:induction false} EncodePrimaryKeyInjective(a: seq<Value>, b: seq<Value>)
    requires EncodePrimaryKey(a) == EncodePrimaryKey(b)
    ensures a == b
    decreases |a|
  {
    NulSeparates(a);
    NulSeparates(b);
    if a != [] {
      if |a| > 1 {
        HexAlphabet(Serialize(a[0]));
        HexAlphabet(Serialize(b[0]));
        FirstNulSplits(Hex(Serialize(a[0])), EncodePrimaryKey(a[1..]), Hex(Serialize(b[0])), EncodePrimaryKey(b[1..]));
        EncodePrimaryKeyInjective(a[1..], b[1..]);
      }
      assert a == [a[0]] + a[1..] && b == [b[0]] + b[1..];
      HexInjective(Serialize(a[0]), Serialize(b[0]));
      SerializeInjective(a[0], b[0]);
    }
  }

  /** Parts after the last slash can be told apart. */
  lemma LastSlashSplits(x: Bytes, y: Bytes, x': Bytes, y': Bytes)
    requires x + [SLASH] + y == x' + [SLASH] + y' && SLASH !in y && SLASH !in y'
    ensures x == x' && y == y'
  {
    var s := x + [SLASH] + y;
    assert s == x' + [SLASH] + y';
    assert s[|x|] == SLASH && s[|x'|] == SLASH;
    assert forall i :: |x| < i < |s| ==> s[i] == y[i - |x| - 1];
    assert forall i :: |x'| < i < |s| ==> s[i] == y'[i - |x'| - 1];
    assert x == s[..|x|] && x' == s[..|x|];
    assert y == s[|x| + 1..] && y' == s[|x| + 1..];
  }

  /** A row key determines its table and its primary key, whatever the names contain. */
  lemma RowKeyInjective(t: Name, pk: seq<Value>, u: Name, qk: seq<Value>)
    requires RowKey(t, pk) == RowKey(u, qk)
    ensures t == u && pk == qk
  {
    EncodingHasNoSlash(pk);
    EncodingHasNoSlash(qk);
    var x, y := EncodePrimaryKey(pk), EncodePrimaryKey(qk);
    LastSlashSplits(DATA + t, x, DATA + u, y);
    CancelPrefix(DATA, t, u);
    CancelPrefix(DATA, u, t);
    EncodePrimaryKeyInjective(pk, qk);
  }

  lemma SchemaKeyInjective(t: Name, u: Name)
    requires SchemaKey(t) == SchemaKey(u)
    ensures t == u
  {
    assert SchemaKey(t)[7..] == t && SchemaKey(u)[7..] == u;
  }

  /** Schema, row and cursor keys never coincide. */
  lemma KeyKindsDisjoint(t: Name, u: Name, pk: seq<Value>)
    ensures SchemaKey(t) != RowKey(u, pk) && SchemaKey(t) != CURSOR_KEY && RowKey(u, pk) != CURSOR_KEY
    ensures !(RowPrefix(u) <= SchemaKey(t)) && !(RowPrefix(u) <= CURSOR_KEY)
  {
    assert SchemaKey(t)[0] == 115 && RowKey(u, pk)[0] == 100 && RowPrefix(u)[0] == 100;
  }

  lemma SlashedPrefix(t: Bytes, u: Bytes, x: Bytes)
    requires SLASH !in x
    ensures t + [SLASH] <= u + [SLASH] + x <==> (u == t || t + [SLASH] <= u)
  {
    var p, k := t + [SLASH], u + [SLASH] + x;
    assert p[|t|] == SLASH && u <= k;
    if p <= k {
      assert forall i :: |u| < i < |k| ==> k[i] == x[i - |u| - 1];
      assert k[|t|] == SLASH;
      assert forall i :: 0 <= i < |t| ==> t[i] == k[i];
      if |t| == |u| {
        assert t == u;
      } else {
        assert u[..|t| + 1] == k[..|t| + 1] == p;
      }
    }
  }

  /** The scan prefix of t covers a row of u exactly when u is t or u continues t after a slash. */
  lemma PrefixCovers(t: Name, u: Name, pk: seq<Value>)
    ensures RowPrefix(t) <= RowKey(u, pk) <==> (u == t || t + [SLASH] <= u)
  {
    EncodingHasNoSlash(pk);
    var x := EncodePrimaryKey(pk);
    SlashedPrefix(t, u, x);
    assert RowKey(u, pk) == DATA + (u + [SLASH] + x) && RowPrefix(t) == DATA + (t + [SLASH]);
    CancelPrefix(DATA, t + [SLASH], u + [SLASH] + x);
  }

  lemma CancelPrefix(d: Bytes, a: Bytes, b: Bytes)
    ensures d + a <= d + b <==> a <= b
  {
    if d + a <= d + b {
      assert a == (d + a)[|d|..] && b == (d + b)[|d|..];
      assert forall i :: 0 <= i < |a| ==> a[i] == (d + a)[|d| + i] == (d + b)[|d| + i] == b[i];
    }
  }

  predicate SlashFree(t: Name) {
    SLASH !in t
  }
}
