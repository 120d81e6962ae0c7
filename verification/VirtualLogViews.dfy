/** What a virtual log and its MetaStore hold together, and how each kind of step changes it. */
module VirtualLogViews {
  import opened RelosCore
  import opened LogletSpec
  import opened Chain
  import opened FlatLog
  import opened MemoryLoglet
  import opened VirtualLog

  // ---- The view as values ----

  ghost predicate ViewOk(c: Segments, reg: Registry, trims: Trims, t: LogPos) {
    && Partition(c) && Closed(c, reg) && Distinct(c) && TrimsOk(c, trims, t)
    && reg.Keys == trims.Keys == Ids(c)
  }

  /** The open segment's loglet is sealed and ends at p. */
  ghost predicate EndsAt(c: Segments, reg: Registry, p: LogPos) {
    |c| > 0 && var l := LogletAt(reg, c[|c| - 1].id); l.sealed && p == c[|c| - 1].start + |l.issued|
  }

  /** The MetaStore is at the view, or one extension ahead of it: the one whose loglet could not be created. */
  ghost predicate MetaNear(c: Segments, reg: Registry, metaChain: Segments) {
    || metaChain == c
    || (c != [] && |metaChain| == |c| + 1 && LogletAt(reg, c[|c| - 1].id).sealed
        && forall p :: EndsAt(c, reg, p) ==> metaChain == Extend(c, p, LogletId(|c|)))
  }

  lemma LastId(c: Segments)
    requires c != []
    ensures c[|c| - 1].id in Ids(c)
  {
  }

  lemma IssueView(c: Segments, reg: Registry, trims: Trims, t: LogPos, st: Stamp)
    requires ViewOk(c, reg, trims, t)
    ensures var id := c[|c| - 1].id;
            && id in reg
            && ViewOk(c, reg[id := Issue(reg[id], st)], trims, t)
            && Flat(c, reg[id := Issue(reg[id], st)]) == Flat(c, reg) + [st]
            && c[|c| - 1].start + Tail(reg[id]) - 1 == |Flat(c, reg)| + 1
  {
    LastId(c);
    var id := c[|c| - 1].id;
    LastLogletGrows(c, reg, Issue(reg[id], st));
    FlatLength(c, reg);
  }

  lemma SealView(c: Segments, reg: Registry, trims: Trims, t: LogPos, metaChain: Segments)
    requires ViewOk(c, reg, trims, t) && MetaNear(c, reg, metaChain)
    ensures var id := c[|c| - 1].id;
            && id in reg
            && ViewOk(c, reg[id := Seal(reg[id])], trims, t)
            && Flat(c, reg[id := Seal(reg[id])]) == Flat(c, reg)
            && MetaNear(c, reg[id := Seal(reg[id])], metaChain)
            && EndsAt(c, reg[id := Seal(reg[id])], |Flat(c, reg)| + 1)
            && c[|c| - 1].start + Tail(reg[id]) - 1 == |Flat(c, reg)| + 1
  {
    LastId(c);
    var id := c[|c| - 1].id;
    LastLogletGrows(c, reg, Seal(reg[id]));
    FlatLength(c, reg);
  }

  lemma ExtendIds(c: Segments, p: LogPos, id: string)
    requires c != [] && c[|c| - 1].end == None
    ensures Ids(Extend(c, p, id)) == Ids(c) + {id}
  {
    var d := Extend(c, p, id);
    assert |d| == |c| + 1 && d[|c|].id == id;
    assert forall i {:trigger d[i]} :: 0 <= i < |c| ==> d[i].id == c[i].id;
    forall x ensures x in Ids(d) <==> x in Ids(c) + {id} {
      if x in Ids(c) { var i :| 0 <= i < |c| && c[i].id == x; assert d[i].id == x; }
    }
  }

  lemma ExtendClosed(c: Segments, reg: Registry, p: LogPos, id: string)
    requires Partition(c) && Closed(c, reg) && Distinct(c) && EndsAt(c, reg, p) && id !in reg
    requires forall i :: 0 <= i < |c| ==> c[i].id != id
    ensures var d := Extend(c, p, id);
            && Partition(d) && Closed(d, reg[id := EMPTY]) && Distinct(d)
            && Flat(d, reg[id := EMPTY]) == Flat(c, reg)
  {
    var d, reg' := Extend(c, p, id), reg[id := EMPTY];
    ExtendFlat(c, reg, p, id);
    assert forall x :: LogletAt(reg', x) == LogletAt(reg, x);
    forall i | 0 <= i < |d| - 1 ensures ClosedAt(d, reg', i) {
      assert ClosedAt(d, reg, i);
    }
    FlatCongruent(d, reg, d, reg');
  }

  lemma ExtendView(c: Segments, reg: Registry, trims: Trims, t: LogPos, p: LogPos, id: string)
    requires ViewOk(c, reg, trims, t) && EndsAt(c, reg, p) && id !in Ids(c)
    ensures var d := Extend(c, p, id);
            && ViewOk(d, reg[id := EMPTY], trims[id := 1], Min(t, p))
            && Flat(d, reg[id := EMPTY]) == Flat(c, reg)
            && |d| == |c| + 1 && d[|d| - 1] == Segment(id, p, None)
  {
    assert forall i :: 0 <= i < |c| ==> c[i].id in Ids(c);
    ExtendClosed(c, reg, p, id);
    ExtendTrims(c, trims, t, p, id);
    ExtendIds(c, p, id);
  }

  lemma NextIdFresh(c: Segments, metaChain: Segments, reg: Registry, initialId: string)
    requires IdsFrom(metaChain, initialId) && SafeId(initialId) && MetaNear(c, reg, metaChain) && |c| > 0
    ensures LogletId(|c|) !in Ids(c)
  {
    forall i | 0 <= i < |c| ensures c[i].id != LogletId(|c|) {
      if metaChain != c {
        var p := c[|c| - 1].start + |LogletAt(reg, c[|c| - 1].id).issued|;
        assert EndsAt(c, reg, p);
        ExtendKeepsIds(c, p, LogletId(|c|), i);
      }
      if |metaChain| == |c| {
        NextIdIsNew(metaChain, initialId, i);
      } else {
        var d := metaChain[..|c|];
        assert forall j {:trigger d[j]} :: 0 <= j < |d| ==> d[j] == metaChain[j];
        NextIdIsNew(d, initialId, i);
      }
    }
  }

  /** Everything the virtual log and its MetaStore hold, with the flat log's trim point. */
  datatype View = View(chain: Segments, version: nat, reg: Registry, trims: Trims, trimPoint: LogPos,
                       metaChain: Segments, metaVersion: nat, initialId: string)

  ghost predicate Good(v: View) {
    && ViewOk(v.chain, v.reg, v.trims, v.trimPoint)
    && MetaNear(v.chain, v.reg, v.metaChain)
    && v.version == |v.chain| - 1 && v.metaVersion == |v.metaChain| - 1
    && SafeId(v.initialId) && IdsFrom(v.metaChain, v.initialId)
  }

  /** The flat log. */
  ghost function LogOf(v: View): seq<Stamp> {
    Flat(v.chain, v.reg)
  }

  ghost predicate HasActive(v: View) {
    ActiveSegment(v.chain).Some? && ActiveId(v) in v.reg
  }

  ghost function ActiveId(v: View): string
    requires v.chain != []
  {
    v.chain[|v.chain| - 1].id
  }

  ghost function ActiveLoglet(v: View): Loglet
    requires HasActive(v)
  {
    v.reg[ActiveId(v)]
  }

  /** The active loglet replaced. */
  ghost function WithActive(v: View, l: Loglet): View
    requires v.chain != []
  {
    v.(reg := v.reg[ActiveId(v) := l])
  }

  ghost function SealedView(v: View): View
    requires HasActive(v)
  {
    WithActive(v, Seal(ActiveLoglet(v)))
  }

  ghost function IssuedView(v: View, st: Stamp): View
    requires HasActive(v)
  {
    WithActive(v, Issue(ActiveLoglet(v), st))
  }

  lemma ActiveKnown(v: View)
    requires Good(v)
    ensures HasActive(v)
    ensures v.chain[|v.chain| - 1].start + Tail(ActiveLoglet(v)) - 1 == |LogOf(v)| + 1
  {
    LastId(v.chain);
    FlatLength(v.chain, v.reg);
  }

  /** While the open loglet takes appends the MetaStore cannot be ahead. */
  lemma NotAhead(c: Segments, reg: Registry, metaChain: Segments)
    requires MetaNear(c, reg, metaChain) && c != [] && !LogletAt(reg, c[|c| - 1].id).sealed
    ensures metaChain == c
  {
  }

  lemma IssueGood(v: View, st: Stamp)
    requires Good(v) && HasActive(v) && !ActiveLoglet(v).sealed
    ensures Good(IssuedView(v, st)) && LogOf(IssuedView(v, st)) == LogOf(v) + [st]
  {
    NotAhead(v.chain, v.reg, v.metaChain);
    IssueView(v.chain, v.reg, v.trims, v.trimPoint, st);
  }

  lemma SealGood(v: View)
    requires Good(v) && HasActive(v)
    ensures Good(SealedView(v)) && LogOf(SealedView(v)) == LogOf(v)
    ensures EndsAt(v.chain, SealedView(v).reg, |LogOf(v)| + 1)
  {
    SealView(v.chain, v.reg, v.trims, v.trimPoint, v.metaChain);
  }

  /** The MetaStore accepts the extension. */
  ghost function Proposed(v: View, p: LogPos): View {
    v.(metaChain := Extend(v.chain, p, LogletId(|v.chain|)), metaVersion := v.version + 1)
  }

  lemma CasGood(v: View, p: LogPos)
    requires Good(v) && v.metaChain == v.chain && EndsAt(v.chain, v.reg, p)
    ensures Good(Proposed(v, p)) && LogOf(Proposed(v, p)) == LogOf(v)
  {
    var d := Extend(v.chain, p, LogletId(|v.chain|));
    assert |d| == |v.chain| + 1 && d[|v.chain|].start == p;
    ExtendNames(v.chain, p, v.initialId);
  }

  /** The view catches up with the MetaStore's extension, its loglet created empty. */
  ghost function CaughtUp(v: View): View
    requires v.metaChain != []
  {
    var s := v.metaChain[|v.metaChain| - 1];
    v.(chain := v.metaChain, version := v.metaVersion, reg := v.reg[s.id := EMPTY], trims := v.trims[s.id := 1],
       trimPoint := if v.trimPoint < s.start then v.trimPoint else s.start)
  }

  /** The extension waiting in the MetaStore starts at the tail and names a loglet not yet known. */
  lemma PendingExtension(v: View)
    requires Good(v) && |v.metaChain| == |v.chain| + 1
    ensures v.metaChain[|v.chain|] == Segment(LogletId(|v.chain|), |LogOf(v)| + 1, None)
    ensures LogletId(|v.chain|) !in Ids(v.chain)
    ensures EndsAt(v.chain, v.reg, |LogOf(v)| + 1)
    ensures v.metaChain == Extend(v.chain, |LogOf(v)| + 1, LogletId(|v.chain|))
  {
    NextIdFresh(v.chain, v.metaChain, v.reg, v.initialId);
    FlatLength(v.chain, v.reg);
    assert EndsAt(v.chain, v.reg, |LogOf(v)| + 1);
  }

  lemma CatchUpGood(v: View)
    requires Good(v) && |v.metaChain| == |v.chain| + 1
    ensures Good(CaughtUp(v)) && LogOf(CaughtUp(v)) == LogOf(v)
  {
    PendingExtension(v);
    ExtendView(v.chain, v.reg, v.trims, v.trimPoint, |LogOf(v)| + 1, LogletId(|v.chain|));
  }

  /** What a completed reconfiguration leaves: one more segment, open, empty and starting at the tail. Only
      a trim point beyond the tail moves, back to the tail. */
  ghost predicate Installed(v: View, v': View) {
    && v'.version == v.version + 1 && v'.metaChain == v'.chain && |v'.chain| == |v.chain| + 1
    && HasActive(v') && ActiveLoglet(v') == EMPTY
    && v'.chain[|v'.chain| - 1].start == |LogOf(v)| + 1
    && v'.trimPoint == Min(v.trimPoint, |LogOf(v)| + 1)
    && LogOf(v') == LogOf(v)
  }

  lemma CatchUpInstalls(v: View)
    requires Good(v) && |v.metaChain| == |v.chain| + 1
    ensures Good(CaughtUp(v)) && Installed(v, CaughtUp(v))
  {
    CatchUpGood(v);
    PendingExtension(v);
  }

  /** The MetaStore holds one segment more, and only that one names an unknown loglet. */
  ghost predicate OneMissing(v: View) {
    && |v.metaChain| == |v.chain| + 1
    && forall i :: 0 <= i < |v.metaChain| ==> (v.metaChain[i].id in v.reg <==> i < |v.chain|)
  }

  lemma AheadMissesOne(v: View)
    requires Good(v) && |v.metaChain| == |v.chain| + 1
    ensures OneMissing(v)
  {
    PendingExtension(v);
    forall i | 0 <= i < |v.metaChain| ensures v.metaChain[i].id in v.reg <==> i < |v.chain| {
      if i < |v.chain| { ExtendKeepsIds(v.chain, |LogOf(v)| + 1, LogletId(|v.chain|), i); }
    }
  }

  ghost function ActiveTail(v: View): LogPos
    requires HasActive(v)
  {
    v.chain[|v.chain| - 1].start + Tail(ActiveLoglet(v)) - 1
  }

  /** Seal, then compare-and-swap a longer chain into the MetaStore, which refuses if it is ahead. */
  ghost function Offered(v: View): View
    requires HasActive(v)
  {
    if v.version == v.metaVersion then Proposed(SealedView(v), ActiveTail(v)) else SealedView(v)
  }

  lemma OfferedGood(v: View)
    requires Good(v) && HasActive(v)
    ensures Good(Offered(v)) && LogOf(Offered(v)) == LogOf(v) && |Offered(v).metaChain| == |v.chain| + 1
  {
    ActiveKnown(v);
    SealGood(v);
    if v.version == v.metaVersion { CasGood(SealedView(v), ActiveTail(v)); }
  }

  lemma ReconfigureGood(v: View)
    requires Good(v)
    ensures HasActive(v)
    ensures Good(Offered(v)) && LogOf(Offered(v)) == LogOf(v) && OneMissing(Offered(v))
    ensures Good(CaughtUp(Offered(v))) && Installed(v, CaughtUp(Offered(v)))
  {
    ActiveKnown(v);
    OfferedGood(v);
    AheadMissesOne(Offered(v));
    CatchUpInstalls(Offered(v));
  }

  /** A completed reconfiguration keeps every answer exactly when the trim point had not passed the tail.
      Beyond the tail it is lost: the positions between are appended to and read again. */
  lemma ReconfigureKeepsReadsIff(v: View)
    requires Good(v)
    ensures HasActive(v) && OneMissing(Offered(v))
    ensures var v' := CaughtUp(Offered(v));
            (forall g, r :: FlatRead(LogOf(v), v.trimPoint, g, r) <==> FlatRead(LogOf(v'), v'.trimPoint, g, r))
            <==> v.trimPoint <= |LogOf(v)| + 1
  {
    ReconfigureGood(v);
    var v' := CaughtUp(Offered(v));
    TrimCarriedIff(LogOf(v), v.trimPoint, LogOf(v'), v'.trimPoint);
  }

  lemma NewChainGood(id0: string)
    requires SafeId(id0)
    ensures var v := View(NewChain(id0), 0, map[id0 := EMPTY], map[id0 := 1], 1, NewChain(id0), 0, id0);
            Good(v) && LogOf(v) == []
  {
    var c := NewChain(id0);
    assert c[0].id == id0 && Ids(c) == {id0};
    assert c[..0] == [] && Flat(c[..0], map[id0 := EMPTY]) == [];
  }
}
