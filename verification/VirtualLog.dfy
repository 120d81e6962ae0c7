/** One virtual log over in-memory loglets answers like a single sequence with one trim point. */
module VirtualLog {
  import opened RelosCore
  import opened LogletSpec
  import opened Chain
  import opened FlatLog
  import opened MemoryLoglet

  // ---- The flat log ----

  function Min(a: int, b: int): int { if a < b then a else b }

  /** What a read answers on a flat log with trim point t. Only the kind of the trim error matters:
      the source reports the position inside the loglet. */
  ghost predicate FlatRead(log: seq<Stamp>, t: LogPos, g: LogPos, r: Result<Option<Entry>>) {
    if g == 0 then r == Err(Internal)
    else if g < t then r.Err? && r.error.Trimmed?
    else if g <= |log| then r == Ok(Some(log[g - 1].entry))
    else r == Ok(None)
  }

  // ---- Trim points of segments ----

  /** The local trim point that a global one means for a segment starting at start. */
  function LocalTrim(t: LogPos, start: LogPos): int {
    if t > start then t - start + 1 else 1
  }

  /** The loglet of segment s, trimmed at trimPos, agrees with the global trim point t wherever the
      segment has positions. */
  ghost predicate TrimOk(s: Segment, trimPos: LogPos, t: LogPos) {
    match s.end
    case None => trimPos == LocalTrim(t, s.start)
    case Some(end) => Min(trimPos, end - s.start + 1) == Min(LocalTrim(t, s.start), end - s.start + 1)
  }

  type Trims = map<string, LogPos>

  ghost predicate TrimsOk(c: Segments, trims: Trims, t: LogPos) {
    forall i :: 0 <= i < |c| ==> c[i].id in trims && TrimOk(c[i], trims[c[i].id], t)
  }

  /** Reading through the chain is reading the flat log. */
  lemma ReadIsFlat(c: Segments, reg: Registry, trims: Trims, t: LogPos, g: LogPos, k: nat)
    requires Partition(c) && Closed(c, reg) && TrimsOk(c, trims, t)
    requires g >= 1 && k < |c| && Covers(c[k], g)
    ensures FlatRead(Flat(c, reg), t, g, ReadMem(Mem(LogletAt(reg, c[k].id), trims[c[k].id]), ToLocal(c[k].start, g)))
  {
    var l, local := LogletAt(reg, c[k].id), ToLocal(c[k].start, g);
    assert TrimOk(c[k], trims[c[k].id], t);
    if k < |c| - 1 {
      assert Linked(c, k) && ClosedAt(c, reg, k);
    } else {
      FlatLength(c, reg);
    }
    if 1 <= local < Tail(l) {
      FlatAt(c, reg, k, local, l.issued[local - 1]);
    }
  }

  /** Closing the open segment at p and opening an empty one moves the trim point back to p if it had
      passed p, and changes nothing otherwise. */
  lemma ExtendTrims(c: Segments, trims: Trims, t: LogPos, p: LogPos, id: string)
    requires Partition(c) && TrimsOk(c, trims, t) && c[|c| - 1].start <= p
    requires forall i :: 0 <= i < |c| ==> c[i].id != id
    ensures TrimsOk(Extend(c, p, id), trims[id := 1], Min(t, p))
  {
    var d := Extend(c, p, id);
    forall i | 0 <= i < |d| ensures d[i].id in trims[id := 1] && TrimOk(d[i], trims[id := 1][d[i].id], Min(t, p)) {
      if i < |c| {
        assert TrimOk(c[i], trims[c[i].id], t) && d[i].id == c[i].id && d[i].start == c[i].start;
        if i < |c| - 1 {
          assert d[i] == c[i] && Linked(c, i);
          PartitionOrdered(c, i + 1, |c| - 1);
        } else {
          assert d[i].end == Some(p);
        }
      } else {
        assert d[i] == Segment(id, p, None);
      }
    }
  }

  /** What trimming to g asks of one segment. */
  function TrimRequest(s: Segment, g: LogPos): Option<LogPos> {
    if g <= s.start then None
    else match s.end
         case None => Some(g - s.start + 1)
         case Some(end) => if Min(g, end) - s.start + 1 >= 0 then Some(Min(g, end) - s.start + 1) else None
  }

  /** Moving the trim point back to the tail changes some answer exactly when it had passed the tail. */
  lemma TrimCarriedIff(log: seq<Stamp>, t: LogPos, log': seq<Stamp>, t': LogPos)
    requires log' == log && t' == Min(t, |log| + 1)
    ensures (forall g, r :: FlatRead(log, t, g, r) <==> FlatRead(log', t', g, r)) <==> t <= |log| + 1
  {
    if t > |log| + 1 {
      assert FlatRead(log, t, |log| + 1, Err(Trimmed(1)));
      assert !FlatRead(log', t', |log| + 1, Err(Trimmed(1)));
    }
  }
}
