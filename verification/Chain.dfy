/** The log chain: contiguous segments of global positions, each backed by a loglet. */
module Chain {
  import opened RelosCore

  datatype Segment = Segment(id: string, start: LogPos, end: Option<LogPos>)

  type Segments = seq<Segment>

  function NewChain(initialId: string): Segments {
    [Segment(initialId, LOG_POS_BEGIN, None)]
  }

  function ActiveSegment(c: Segments): Option<Segment> {
    if c != [] && c[|c| - 1].end.None? then Some(c[|c| - 1]) else None
  }

  predicate Covers(s: Segment, g: LogPos) {
    g >= s.start && (s.end.Some? ==> g < s.end.value)
  }

  /** The first segment that covers g. */
  function FindSegment(c: Segments, g: LogPos): Option<Segment> {
    if c == [] then None
    else if Covers(c[0], g) then Some(c[0])
    else FindSegment(c[1..], g)
  }

  function Extend(c: Segments, sealPos: LogPos, newId: string): Segments {
    var closed :=
      if c != [] && c[|c| - 1].end.None? then c[..|c| - 1] + [c[|c| - 1].(end := Some(sealPos))] else c;
    closed + [Segment(newId, sealPos, None)]
  }

  function Ids(c: Segments): set<string> {
    set i | 0 <= i < |c| :: c[i].id
  }

  function ToGlobal(start: LogPos, local: LogPos): (g: int) {
    start + local - 1
  }

  function ToLocal(start: LogPos, g: LogPos): (l: int) {
    g - start + 1
  }

  /** The chain as the source's mutable record. */
  class LogChain {
    var segments: Segments

    constructor (initialId: string)
      ensures segments == NewChain(initialId)
    {
      segments := [Segment(initialId, LOG_POS_BEGIN, None)];
    }

    method Find(g: LogPos) returns (r: Option<Segment>)
      ensures r == FindSegment(segments, g)
    {
      var i := 0;
      while i < |segments|
        invariant 0 <= i <= |segments|
        invariant FindSegment(segments, g) == FindSegment(segments[i..], g)
      {
        if Covers(segments[i], g) {
          return Some(segments[i]);
        }
        assert segments[i..][1..] == segments[i + 1..];
        i := i + 1;
      }
      return None;
    }

    method ExtendWith(sealPos: LogPos, newId: string)
      modifies this
      ensures segments == Extend(old(segments), sealPos, newId)
    {
      if segments != [] {
        var last := segments[|segments| - 1];
        if last.end.None? {
          segments := segments[|segments| - 1 := last.(end := Some(sealPos))];
        }
      }
      segments := segments + [Segment(newId, sealPos, None)];
    }
  }

  // ---- Partition ----

  /** Segment i ends where the next one starts. */
  ghost predicate Linked(c: Segments, i: nat)
    requires i + 1 < |c|
  {
    c[i].end == Some(c[i + 1].start) && c[i].start <= c[i + 1].start
  }

  /** Contiguous from position 1, only the last segment open. */
  ghost predicate Partition(c: Segments) {
    && |c| > 0
    && c[0].start == LOG_POS_BEGIN
    && c[|c| - 1].end == None
    && (forall i :: 0 <= i < |c| - 1 ==> Linked(c, i))
  }

  lemma {:induction false} PartitionOrdered(c: Segments, i: nat, j: nat)
    requires Partition(c) && i <= j < |c|
    ensures c[i].start <= c[j].start
    decreases j - i
  {
    if i < j {
      assert Linked(c, i);
      PartitionOrdered(c, i + 1, j);
    }
  }

  /** Every position from 1 on lies in exactly one segment. */
  lemma CoveredOnce(c: Segments, g: LogPos, i: nat, j: nat)
    requires Partition(c) && i < |c| && j < |c| && Covers(c[i], g) && Covers(c[j], g)
    ensures i == j
  {
    if i < j {
      assert Linked(c, i);
      PartitionOrdered(c, i + 1, j);
    } else if j < i {
      assert Linked(c, j);
      PartitionOrdered(c, j + 1, i);
    }
  }

  lemma {:induction false} FindIsFirst(c: Segments, g: LogPos, k: nat)
    requires k < |c| && Covers(c[k], g)
    requires forall i :: 0 <= i < k ==> !Covers(c[i], g)
    ensures FindSegment(c, g) == Some(c[k])
  {
    if k > 0 {
      assert !Covers(c[0], g);
      assert forall i :: 0 <= i < k - 1 ==> c[1..][i] == c[i + 1];
      FindIsFirst(c[1..], g, k - 1);
    }
  }

  lemma {:induction false} FindNothing(c: Segments, g: LogPos)
    requires forall i :: 0 <= i < |c| ==> !Covers(c[i], g)
    ensures FindSegment(c, g) == None
  {
    if c != [] {
      assert !Covers(c[0], g);
      assert forall i :: 0 <= i < |c[1..]| ==> c[1..][i] == c[i + 1];
      FindNothing(c[1..], g);
    }
  }

  lemma {:induction false} CoverExists(c: Segments, g: LogPos, j: nat) returns (k: nat)
    requires Partition(c) && j < |c| && c[j].start <= g
    ensures j <= k < |c| && Covers(c[k], g)
    decreases |c| - j
  {
    if Covers(c[j], g) {
      k := j;
    } else {
      assert Linked(c, j);
      k := CoverExists(c, g, j + 1);
    }
  }

  /** find_segment answers every position from 1 on with the one segment that holds it. */
  lemma FindSegmentUnique(c: Segments, g: LogPos) returns (k: nat)
    requires Partition(c) && g >= LOG_POS_BEGIN
    ensures k < |c| && Covers(c[k], g) && FindSegment(c, g) == Some(c[k])
    ensures forall j :: 0 <= j < |c| && Covers(c[j], g) ==> j == k
  {
    k := CoverExists(c, g, 0);
    forall j | 0 <= j < |c| && Covers(c[j], g) ensures j == k {
      CoveredOnce(c, g, j, k);
    }
    FindIsFirst(c, g, k);
  }

  lemma NothingAtZero(c: Segments)
    requires Partition(c)
    ensures FindSegment(c, 0) == None
  {
    forall i | 0 <= i < |c| ensures !Covers(c[i], 0) {
      PartitionOrdered(c, 0, i);
    }
    FindNothing(c, 0);
  }

  /** Extending keeps a partition exactly when the seal position is not before the open segment. */
  lemma ExtendPartition(c: Segments, p: LogPos, id: string)
    requires Partition(c)
    ensures Partition(Extend(c, p, id)) <==> c[|c| - 1].start <= p
    ensures |Extend(c, p, id)| == |c| + 1
    ensures OlderView(c, Extend(c, p, id))
  {
    var d := Extend(c, p, id);
    assert d[|c| - 1] == c[|c| - 1].(end := Some(p));
    assert d[|c|] == Segment(id, p, None);
    assert forall i {:trigger d[i]} :: 0 <= i < |c| - 1 ==> d[i] == c[i];
    if c[|c| - 1].start <= p {
      forall i | 0 <= i < |d| - 1 ensures Linked(d, i) {
        if i < |c| - 1 { assert Linked(c, i); }
      }
    } else {
      assert !Linked(d, |c| - 1);
    }
  }

  // ---- Older views ----

  /** c agrees with d, except that c's last segment was still open. */
  ghost predicate OlderView(c: Segments, d: Segments) {
    && 1 <= |c| <= |d|
    && (forall i {:trigger c[i]} :: 0 <= i < |c| - 1 ==> c[i] == d[i])
    && c[|c| - 1].id == d[|c| - 1].id
    && c[|c| - 1].start == d[|c| - 1].start
    && c[|c| - 1].end == None
  }

  lemma OlderViewTransitive(c: Segments, d: Segments, e: Segments)
    requires OlderView(c, d) && OlderView(d, e)
    ensures OlderView(c, e)
  {
  }

  lemma OlderViewPartition(c: Segments, d: Segments)
    requires OlderView(c, d) && Partition(d)
    ensures Partition(c)
  {
    forall i | 0 <= i < |c| - 1 ensures Linked(c, i) {
      assert Linked(d, i) && c[i] == d[i];
    }
  }

  // ---- Loglet ids ----

  function Digit(d: nat): char
    requires d < 10
  {
    "0123456789"[d]
  }

  function Decimal(n: nat): string {
    if n < 10 then [Digit(n)] else Decimal(n / 10) + [Digit(n % 10)]
  }

  function LogletId(k: nat): string {
    "loglet-" + Decimal(k)
  }

  lemma {:induction false} DecimalInjective(a: nat, b: nat)
    requires Decimal(a) == Decimal(b)
    ensures a == b
  {
    var s := Decimal(a);
    assert s[|s| - 1] == Digit(a % 10) == Digit(b % 10);
    DigitInjective(a % 10, b % 10);
    if a >= 10 && b >= 10 {
      assert Decimal(a / 10) == s[..|s| - 1] == Decimal(b / 10);
      DecimalInjective(a / 10, b / 10);
    } else {
      DecimalLength(a);
      DecimalLength(b);
    }
  }

  lemma DigitInjective(a: nat, b: nat)
    requires a < 10 && b < 10 && Digit(a) == Digit(b)
    ensures a == b
  {
  }

  lemma DecimalLength(n: nat)
    ensures |Decimal(n)| >= 1
    ensures n < 10 <==> |Decimal(n)| == 1
  {
  }

  /** Reads a decimal number. */
  function FromDecimal(s: string): int {
    if s == [] then 0 else 10 * FromDecimal(s[..|s| - 1]) + (s[|s| - 1] as int - '0' as int)
  }

  /** An id is "loglet-" and a decimal that reads back as the chain length. */
  lemma {:induction false} LogletIdReads(k: nat)
    ensures |LogletId(k)| > 7 && LogletId(k)[..7] == "loglet-" && FromDecimal(LogletId(k)[7..]) == k
  {
    assert LogletId(k)[7..] == Decimal(k);
    DecimalLength(k);
    DecimalReads(k);
  }

  lemma {:induction false} DecimalReads(n: nat)
    ensures FromDecimal(Decimal(n)) == n
  {
    var s := Decimal(n);
    assert s[|s| - 1] as int - '0' as int == n % 10;
    if n < 10 {
      assert s[..|s| - 1] == [];
    } else {
      assert s[..|s| - 1] == Decimal(n / 10);
      DecimalReads(n / 10);
    }
  }

  lemma LogletIdInjective(a: nat, b: nat)
    requires LogletId(a) == LogletId(b)
    ensures a == b
  {
    assert LogletId(a)[7..] == Decimal(a) && LogletId(b)[7..] == Decimal(b);
    DecimalInjective(a, b);
  }

  /** The ids of a chain grown from initialId: the first is given, the others are generated. */
  function IdAt(initialId: string, k: nat): string {
    if k == 0 then initialId else LogletId(k)
  }

  /** Generated ids stay distinct exactly when the initial id is not one that will be generated. */
  lemma IdsDistinct(initialId: string, len: nat)
    ensures (forall i, j :: 0 <= i < j < len ==> IdAt(initialId, i) != IdAt(initialId, j)) <==>
            (forall k :: 1 <= k < len ==> initialId != LogletId(k))
  {
    if forall k :: 1 <= k < len ==> initialId != LogletId(k) {
      forall i, j | 0 <= i < j < len ensures IdAt(initialId, i) != IdAt(initialId, j) {
        if i > 0 && LogletId(i) == LogletId(j) {
          LogletIdInjective(i, j);
        }
        assert i == 0 ==> initialId != LogletId(j);
      }
    } else {
      var k :| 1 <= k < len && initialId == LogletId(k);
      assert IdAt(initialId, 0) == IdAt(initialId, k);
    }
  }
}
