/** The global log that a chain of loglets stands for. */
module FlatLog {
  import opened RelosCore
  import opened LogletSpec
  import opened Chain

  type Registry = map<string, Loglet>

  /** A loglet that has not been created yet is empty. */
  function LogletAt(reg: Registry, id: string): Loglet {
    if id in reg then reg[id] else EMPTY
  }

  /** The entries of all segments, one after the other. */
  function Flat(c: Segments, reg: Registry): seq<Stamp> {
    if c == [] then [] else Flat(c[..|c| - 1], reg) + LogletAt(reg, c[|c| - 1].id).issued
  }

  /** Segment i is a sealed loglet that fills it exactly. */
  ghost predicate ClosedAt(c: Segments, reg: Registry, i: nat)
    requires i + 1 < |c|
  {
    var l := LogletAt(reg, c[i].id);
    l.sealed && c[i].start + |l.issued| == c[i + 1].start
  }

  /** Every segment but the last is closed. */
  ghost predicate Closed(c: Segments, reg: Registry) {
    forall i :: 0 <= i < |c| - 1 ==> ClosedAt(c, reg, i)
  }

  ghost predicate IdsFrom(c: Segments, initialId: string) {
    forall i {:trigger IdAt(initialId, i)} :: 0 <= i < |c| ==> c[i].id == IdAt(initialId, i)
  }

  /** The initial id is not one that will be generated. */
  ghost predicate SafeId(initialId: string) {
    forall k :: k >= 1 ==> initialId != LogletId(k)
  }

  ghost predicate Distinct(c: Segments) {
    forall i, j :: 0 <= i < j < |c| ==> c[i].id != c[j].id
  }

  /** The next generated id names none of the chain's segments. */
  lemma NextIdIsNew(c: Segments, initialId: string, i: nat)
    requires IdsFrom(c, initialId) && SafeId(initialId) && i < |c|
    ensures c[i].id != LogletId(|c|)
  {
    assert c[i].id == IdAt(initialId, i);
    if i > 0 && LogletId(i) == LogletId(|c|) {
      LogletIdInjective(i, |c|);
    }
  }

  lemma ExtendKeepsIds(c: Segments, p: LogPos, id: string, i: nat)
    requires i < |c|
    ensures Extend(c, p, id)[i].id == c[i].id && c[i].id in Ids(c)
  {
  }

  lemma ExtendNames(c: Segments, p: LogPos, initialId: string)
    requires IdsFrom(c, initialId) && |c| > 0
    ensures IdsFrom(Extend(c, p, LogletId(|c|)), initialId)
  {
    var d := Extend(c, p, LogletId(|c|));
    forall i {:trigger d[i]} | 0 <= i < |d| ensures d[i].id == IdAt(initialId, i) {
      if i < |c| { ExtendKeepsIds(c, p, LogletId(|c|), i); }
    }
  }

  lemma {:induction false} FlatPrefixLength(c: Segments, reg: Registry, k: nat)
    requires Partition(c) && Closed(c, reg) && k < |c|
    ensures |Flat(c[..k], reg)| == c[k].start - 1
  {
    if k > 0 {
      FlatPrefixLength(c, reg, k - 1);
      assert c[..k][..k - 1] == c[..k - 1];
      assert ClosedAt(c, reg, k - 1);
    }
  }

  lemma {:induction false} FlatPrefix(c: Segments, reg: Registry, k: nat)
    requires k <= |c|
    ensures Flat(c[..k], reg) <= Flat(c, reg)
    decreases |c| - k
  {
    if k == |c| {
      assert c[..k] == c;
    } else {
      FlatPrefix(c, reg, k + 1);
      assert c[..k + 1][..k] == c[..k];
    }
  }

  /** Local position l of segment k is global position ToGlobal(start, l). */
  lemma FlatAt(c: Segments, reg: Registry, k: nat, local: LogPos, st: Stamp)
    requires Partition(c) && Closed(c, reg) && k < |c| && Holds(LogletAt(reg, c[k].id), local, st)
    ensures 1 <= ToGlobal(c[k].start, local) <= |Flat(c, reg)|
    ensures Flat(c, reg)[ToGlobal(c[k].start, local) - 1] == st
  {
    FlatPrefixLength(c, reg, k);
    FlatPrefix(c, reg, k + 1);
    assert c[..k + 1][..k] == c[..k];
    PartitionOrdered(c, 0, k);
  }

  lemma FlatLength(c: Segments, reg: Registry)
    requires Partition(c) && Closed(c, reg)
    ensures |Flat(c, reg)| == c[|c| - 1].start - 1 + |LogletAt(reg, c[|c| - 1].id).issued|
  {
    FlatPrefixLength(c, reg, |c| - 1);
  }

  /** Flat only looks at ids and loglet contents. */
  lemma {:induction false} FlatCongruent(c: Segments, reg: Registry, c': Segments, reg': Registry)
    requires |c| == |c'|
    requires forall i :: 0 <= i < |c| ==> LogletAt(reg, c[i].id).issued == LogletAt(reg', c'[i].id).issued
    ensures Flat(c, reg) == Flat(c', reg')
  {
    if c != [] {
      FlatCongruent(c[..|c| - 1], reg, c'[..|c| - 1], reg');
    }
  }

  /** Changing the loglet of the open segment appends to the flat log what it appends to the loglet. */
  lemma LastLogletGrows(c: Segments, reg: Registry, l: Loglet)
    requires Partition(c) && Closed(c, reg) && Distinct(c)
    requires LogletAt(reg, c[|c| - 1].id).issued <= l.issued
    ensures var id := c[|c| - 1].id;
            && Closed(c, reg[id := l])
            && Flat(c, reg[id := l]) == Flat(c, reg) + l.issued[|LogletAt(reg, id).issued|..]
  {
    var id := c[|c| - 1].id;
    var reg' := reg[id := l];
    forall i | 0 <= i < |c| - 1 ensures ClosedAt(c, reg', i) {
      assert ClosedAt(c, reg, i);
    }
    var d := c[..|c| - 1];
    assert forall i :: 0 <= i < |d| ==> d[i] == c[i];
    FlatCongruent(d, reg, d, reg');
  }

  /** Closing the open segment where its sealed loglet ends and opening an empty one changes nothing. */
  lemma ExtendFlat(c: Segments, reg: Registry, p: LogPos, id: string)
    requires Partition(c) && Closed(c, reg) && Distinct(c) && LogletAt(reg, id).issued == []
    requires forall i :: 0 <= i < |c| ==> c[i].id != id
    requires var l := LogletAt(reg, c[|c| - 1].id); l.sealed && p == c[|c| - 1].start + |l.issued|
    ensures var d := Extend(c, p, id);
            Partition(d) && Closed(d, reg) && Distinct(d) && OlderView(c, d) && Flat(d, reg) == Flat(c, reg)
  {
    var d := Extend(c, p, id);
    ExtendPartition(c, p, id);
    assert d[|c|] == Segment(id, p, None) && d[|c| - 1] == c[|c| - 1].(end := Some(p));
    forall i | 0 <= i < |c| ensures d[i].id == c[i].id && d[i].start == c[i].start {
      assert i < |c| - 1 ==> d[i] == c[i];
    }
    forall i | 0 <= i < |d| - 1 ensures ClosedAt(d, reg, i) {
      if i < |c| - 1 { assert ClosedAt(c, reg, i); }
    }
    assert d[..|c|] == d[..|d| - 1];
    FlatCongruent(d[..|c|], reg, c, reg);
  }
}
