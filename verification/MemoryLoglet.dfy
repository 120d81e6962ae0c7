/** The in-memory loglet and the in-memory MetaStore. */
module MemoryLoglet {
  import opened RelosCore
  import opened LogletSpec
  import opened Chain

  /** An in-memory loglet as a value: everything ever appended, the sealed flag and the trim point. */
  datatype Mem = Mem(loglet: Loglet, trimPos: LogPos)

  const FRESH_MEM := Mem(EMPTY, LOG_POS_BEGIN)

  function AppendMem(m: Mem, e: Entry): (Mem, Result<LogPos>) {
    if m.loglet.sealed then (m, Err(Sealed(Tail(m.loglet))))
    else (m.(loglet := Issue(m.loglet, Stamp(0, e))), Ok(Tail(m.loglet)))
  }

  function ReadMem(m: Mem, p: LogPos): Result<Option<Entry>> {
    if p < m.trimPos then Err(Trimmed(p))
    else if 1 <= p < Tail(m.loglet) then Ok(Some(m.loglet.issued[p - 1].entry))
    else Ok(None)
  }

  function TrimMem(m: Mem, p: LogPos): Mem {
    if p > m.trimPos then m.(trimPos := p) else m
  }

  function SealMem(m: Mem): (Mem, LogPos) {
    (m.(loglet := Seal(m.loglet)), Tail(m.loglet))
  }

  class MemLoglet {
    var entries: seq<Option<Entry>>
    var sealed: bool
    var trimPos: LogPos
    /** Every entry ever appended, trimmed or not. */
    ghost var history: seq<Stamp>

    ghost function State(): Mem
      reads this
    {
      Mem(Loglet(history, sealed), trimPos)
    }

    /** Slots from the trim point on still hold their entry. */
    ghost predicate Valid()
      reads this
    {
      && |entries| == |history| && trimPos >= LOG_POS_BEGIN
      && forall i :: 0 <= i < |entries| && i + 1 >= trimPos ==> entries[i] == Some(history[i].entry)
    }

    constructor ()
      ensures Valid() && State() == FRESH_MEM
    {
      entries, sealed, trimPos, history := [], false, LOG_POS_BEGIN, [];
    }

    method Append(e: Entry) returns (r: Result<LogPos>)
      requires Valid()
      modifies this
      ensures Valid() && (State(), r) == AppendMem(old(State()), e)
      ensures old(sealed) ==> r == Err(Sealed(|old(entries)| + 1)) && entries == old(entries)
      ensures !old(sealed) ==> r == Ok(|old(entries)| + 1) && entries == old(entries) + [Some(e)] && history == old(history) + [Stamp(0, e)]
    {
      var tail := |entries| + LOG_POS_BEGIN;
      if sealed {
        return Err(Sealed(tail));
      }
      entries := entries + [Some(e)];
      history := history + [Stamp(0, e)];
      return Ok(tail);
    }

    method CheckTail() returns (tail: LogPos)
      requires Valid()
      ensures tail == Tail(State().loglet)
    {
      tail := |entries| + LOG_POS_BEGIN;
    }

    method Read(pos: LogPos) returns (r: Result<Option<Entry>>)
      requires Valid()
      ensures r == ReadMem(State(), pos)
      ensures r == if pos < trimPos then Err(Trimmed(pos)) else if pos <= |history| then Ok(Some(history[pos - 1].entry)) else Ok(None)
    {
      if pos < trimPos {
        return Err(Trimmed(pos));
      }
      var tail := |entries| + LOG_POS_BEGIN;
      if pos >= tail {
        return Ok(None);
      }
      var index := pos - LOG_POS_BEGIN;
      return Ok(entries[index]);
    }

    /** Clears the slots below the new trim point; a smaller one changes nothing. */
    method Trim(pos: LogPos)
      requires Valid()
      modifies this
      ensures Valid() && State() == TrimMem(old(State()), pos)
      ensures forall i :: 0 <= i < |entries| && pos > old(trimPos) && i + 1 < pos ==> entries[i] == None
    {
      if pos > trimPos {
        trimPos := pos;
        var tail := |entries| + LOG_POS_BEGIN;
        var end := if pos < tail then pos else tail;
        for p := LOG_POS_BEGIN to end
          invariant |entries| == |history| && State() == TrimMem(old(State()), pos) && trimPos == pos
          invariant forall i :: 0 <= i < p - 1 ==> entries[i] == None
          invariant forall i :: p - 1 <= i < |entries| ==> entries[i] == old(entries)[i]
        {
          var index := p - LOG_POS_BEGIN;
          entries := entries[index := None];
        }
      }
    }

    method SealIt() returns (tail: LogPos)
      requires Valid()
      modifies this
      ensures Valid() && (State(), tail) == SealMem(old(State()))
    {
      sealed := true;
      tail := |entries| + LOG_POS_BEGIN;
    }
  }

  /** A chain with a version, replaced only by a writer that knows the current version. */
  class MetaStore {
    var chain: Segments
    var version: nat

    constructor (initial: Segments)
      ensures chain == initial && version == 0
    {
      chain, version := initial, 0;
    }

    method Read() returns (c: Segments, v: nat)
      ensures c == chain && v == version
    {
      c, v := chain, version;
    }

    method Write(c: Segments, expected: nat) returns (ok: bool)
      modifies this
      ensures ok <==> old(version) == expected
      ensures ok ==> chain == c && version == expected + 1
      ensures !ok ==> chain == old(chain) && version == old(version)
    {
      if version != expected {
        return false;
      }
      chain := c;
      version := version + 1;
      return true;
    }
  }
}
