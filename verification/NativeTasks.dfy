/** The sequencer task, the log server task and the reply-counting loops of NativeLoglet.
    Each request handler is specified by a function on that actor's state; the protocol in
    NativeProtocol runs the same functions under every interleaving. */
module NativeTasks {
  import opened RelosCore

  // ---- Task states and request handlers ----

  datatype Sequencer = Sequencer(next: LogPos, sealed: bool)

  const FRESH_SEQUENCER := Sequencer(LOG_POS_BEGIN, false)

  function NextPos(q: Sequencer): (Sequencer, Option<LogPos>) {
    if q.sealed then (q, None) else (q.(next := q.next + 1), Some(q.next))
  }

  function SealSequencer(q: Sequencer): (Sequencer, LogPos) {
    (q.(sealed := true), q.next)
  }

  datatype Server = Server(entries: map<LogPos, Entry>, sealed: bool, trimPos: LogPos, tail: LogPos)

  const FRESH_SERVER := Server(map[], false, LOG_POS_BEGIN, LOG_POS_BEGIN)

  datatype StoreReply = Stored | Occupied | SealedAt(tail: LogPos)

  datatype ReadReply = Found(entry: Entry) | TrimmedHere | NotFound

  function StoreAt(v: Server, pos: LogPos, e: Entry): (Server, StoreReply) {
    if v.sealed then (v, SealedAt(v.tail))
    else if pos in v.entries then (v, Occupied)
    else (v.(entries := v.entries[pos := e], tail := if pos >= v.tail then pos + 1 else v.tail), Stored)
  }

  function ReadAt(v: Server, pos: LogPos): ReadReply {
    if pos < v.trimPos then TrimmedHere
    else if pos in v.entries then Found(v.entries[pos])
    else NotFound
  }

  function SealServer(v: Server): (Server, LogPos) {
    (v.(sealed := true), v.tail)
  }

  function TrimTo(v: Server, pos: LogPos): Server {
    if pos > v.trimPos
    then v.(trimPos := pos, entries := map p | p in v.entries && p >= pos :: v.entries[p])
    else v
  }

  // ---- Sequencer and server as objects ----

  class SequencerTask {
    var nextPos: LogPos
    var sealed: bool

    ghost function State(): Sequencer
      reads this
    {
      Sequencer(nextPos, sealed)
    }

    constructor ()
      ensures State() == FRESH_SEQUENCER
    {
      nextPos, sealed := LOG_POS_BEGIN, false;
    }

    method HandleNextPos() returns (reply: Option<LogPos>)
      modifies this
      ensures (State(), reply) == NextPos(old(State()))
      ensures reply == (if old(sealed) then None else Some(old(nextPos))) && sealed == old(sealed)
      ensures nextPos == old(nextPos) + if reply.Some? then 1 else 0
    {
      if sealed {
        reply := None;
      } else {
        var pos := nextPos;
        nextPos := nextPos + 1;
        reply := Some(pos);
      }
    }

    method HandleSeal() returns (tail: LogPos)
      modifies this
      ensures (State(), tail) == SealSequencer(old(State()))
      ensures sealed && nextPos == old(nextPos) == tail
    {
      sealed := true;
      tail := nextPos;
    }

    method HandleCheckTail() returns (tail: LogPos)
      ensures tail == State().next
    {
      tail := nextPos;
    }
  }

  class ServerTask {
    var entries: map<LogPos, Entry>
    var sealed: bool
    var trimPos: LogPos
    var tail: LogPos

    ghost function State(): Server
      reads this
    {
      Server(entries, sealed, trimPos, tail)
    }

    constructor ()
      ensures State() == FRESH_SERVER
    {
      entries, sealed, trimPos, tail := map[], false, LOG_POS_BEGIN, LOG_POS_BEGIN;
    }

    method HandleStore(pos: LogPos, e: Entry) returns (reply: StoreReply)
      modifies this
      ensures (State(), reply) == StoreAt(old(State()), pos, e)
      ensures reply.SealedAt? <==> old(sealed)
      ensures reply.SealedAt? ==> reply.tail == tail
      ensures reply.Occupied? <==> !old(sealed) && pos in old(entries)
      ensures reply.Stored? ==> entries == old(entries)[pos := e] && tail == (if pos + 1 > old(tail) then pos + 1 else old(tail))
      ensures !reply.Stored? ==> entries == old(entries) && tail == old(tail)
      ensures sealed == old(sealed) && trimPos == old(trimPos)
    {
      if sealed {
        reply := SealedAt(tail);
      } else if pos in entries {
        reply := Occupied;
      } else {
        entries := entries[pos := e];
        if pos >= tail {
          tail := pos + 1;
        }
        reply := Stored;
      }
    }

    method HandleRead(pos: LogPos) returns (reply: ReadReply)
      ensures reply == ReadAt(State(), pos)
      ensures reply.TrimmedHere? <==> pos < trimPos
      ensures reply.Found? <==> pos >= trimPos && pos in entries
      ensures reply.Found? ==> reply.entry == entries[pos]
    {
      if pos < trimPos {
        reply := TrimmedHere;
      } else if pos in entries {
        reply := Found(entries[pos]);
      } else {
        reply := NotFound;
      }
    }

    method HandleSeal() returns (t: LogPos)
      modifies this
      ensures (State(), t) == SealServer(old(State()))
      ensures sealed && t == tail == old(tail) && entries == old(entries) && trimPos == old(trimPos)
    {
      sealed := true;
      t := tail;
    }

    /** Collects the positions below the new trim point and removes them one at a time. */
    method HandleTrim(pos: LogPos)
      modifies this
      ensures State() == TrimTo(old(State()), pos)
      ensures trimPos == (if pos > old(trimPos) then pos else old(trimPos)) && sealed == old(sealed) && tail == old(tail)
      ensures pos > old(trimPos) ==> forall p :: p in entries <==> p in old(entries) && p >= pos
      ensures pos <= old(trimPos) ==> entries == old(entries)
      ensures forall p :: p in entries ==> entries[p] == old(entries[p])
    {
      if pos > trimPos {
        trimPos := pos;
        var toRemove := set p | p in entries && p < pos;
        while toRemove != {}
          invariant toRemove == set p | p in entries && p < pos
          invariant entries.Keys <= old(entries.Keys)
          invariant forall p :: p in entries ==> entries[p] == old(entries[p])
          invariant forall p :: p in old(entries) && p >= pos ==> p in entries
          invariant trimPos == pos && sealed == old(sealed) && tail == old(tail)
          decreases |toRemove|
        {
          var k :| k in toRemove;
          entries := entries - {k};
          toRemove := toRemove - {k};
        }
        assert forall p :: p in entries && p < pos ==> p in toRemove;
        assert entries == TrimTo(old(State()), pos).entries;
      }
    }
  }

  // ---- Counting replies ----

  function QuorumSize(n: nat): nat {
    n / 2 + 1
  }

  /** A quorum is a bare majority: any two meet, and nothing smaller would do. */
  lemma QuorumIsMajority(n: nat, q: nat)
    ensures q >= QuorumSize(n) <==> 2 * q > n
  {
  }

  /** The servers, among the first n, whose reply counts as an acknowledgement.
      A reply that never comes is None. */
  function Acks(replies: seq<Option<StoreReply>>): set<nat> {
    set i | 0 <= i < |replies| && (replies[i] == Some(Stored) || replies[i] == Some(Occupied))
  }

  function SealedReplies(replies: seq<Option<StoreReply>>): set<nat> {
    set i | 0 <= i < |replies| && replies[i].Some? && replies[i].value.SealedAt?
  }

  /** Server i is the last that replied that it is sealed. */
  ghost predicate LastSealed(replies: seq<Option<StoreReply>>, i: nat) {
    i in SealedReplies(replies) && forall j :: j in SealedReplies(replies) ==> j <= i
  }

  /** Steps 3 and 4 of append: count the acknowledgements and decide. */
  method DecideAppend(pos: LogPos, replies: seq<Option<StoreReply>>, quorum: nat) returns (r: Result<LogPos>)
    ensures r.Ok? <==> |Acks(replies)| >= quorum
    ensures r.Ok? ==> r.value == pos
    ensures r.Err? ==> (r.error.Sealed? <==> SealedReplies(replies) != {})
    ensures r.Err? ==> r.error == Internal || exists i: nat :: LastSealed(replies, i) && r.error == Sealed(replies[i].value.tail)
  {
    var ackCount := 0;
    var sealTail: Option<LogPos> := None;
    for i := 0 to |replies|
      invariant ackCount == |Acks(replies[..i])|
      invariant sealTail.Some? <==> SealedReplies(replies[..i]) != {}
      invariant sealTail.Some? ==> exists j: nat :: LastSealed(replies[..i], j) && sealTail.value == replies[j].value.tail
    {
      AcksStep(replies, i);
      match replies[i]
      case Some(Stored) => ackCount := ackCount + 1;
      case Some(Occupied) => ackCount := ackCount + 1;
      case Some(SealedAt(tail)) =>
        assert LastSealed(replies[..i + 1], i);
        sealTail := Some(tail);
      case None =>
    }
    assert replies[..|replies|] == replies;
    if ackCount >= quorum {
      r := Ok(pos);
    } else if sealTail.Some? {
      r := Err(Sealed(sealTail.value));
    } else {
      r := Err(Internal);
    }
  }

  lemma AcksStep(replies: seq<Option<StoreReply>>, i: nat)
    requires i < |replies|
    ensures replies[i] == Some(Stored) || replies[i] == Some(Occupied) ==>
              Acks(replies[..i + 1]) == Acks(replies[..i]) + {i} && i !in Acks(replies[..i])
    ensures !(replies[i] == Some(Stored) || replies[i] == Some(Occupied)) ==>
              Acks(replies[..i + 1]) == Acks(replies[..i])
    ensures forall j :: j in SealedReplies(replies[..i]) ==> j in SealedReplies(replies[..i + 1])
    ensures !(replies[i].Some? && replies[i].value.SealedAt?) ==>
              SealedReplies(replies[..i + 1]) == SealedReplies(replies[..i])
  {
  }

  /** Step 2 of seal: count the servers that sealed and take the largest tail. */
  method DecideSeal(sequencerTail: LogPos, replies: seq<Option<LogPos>>, quorum: nat) returns (r: Result<LogPos>)
    ensures r.Ok? <==> |set i | 0 <= i < |replies| && replies[i].Some?| >= quorum
    ensures r.Ok? ==> r.value >= sequencerTail && r.value >= LOG_POS_BEGIN
    ensures r.Ok? ==> forall i :: 0 <= i < |replies| && replies[i].Some? ==> replies[i].value <= r.value
    ensures r.Ok? ==>
              || r.value == sequencerTail
              || r.value == LOG_POS_BEGIN
              || exists i :: 0 <= i < |replies| && replies[i] == Some(r.value)
    ensures r.Err? ==> r.error == Internal
  {
    var sealedCount := 0;
    var maxTail := LOG_POS_BEGIN;
    ghost var seen: set<int> := {};
    for i := 0 to |replies|
      invariant seen == set j | 0 <= j < i && replies[j].Some?
      invariant sealedCount == |seen|
      invariant maxTail >= LOG_POS_BEGIN
      invariant forall j :: 0 <= j < i && replies[j].Some? ==> replies[j].value <= maxTail
      invariant maxTail == LOG_POS_BEGIN || exists j :: 0 <= j < i && replies[j] == Some(maxTail)
    {
      if replies[i].Some? {
        seen := seen + {i};
        sealedCount := sealedCount + 1;
        if replies[i].value > maxTail {
          maxTail := replies[i].value;
        }
      }
    }
    assert seen == set i | 0 <= i < |replies| && replies[i].Some?;
    if sealedCount < quorum {
      r := Err(Internal);
    } else {
      r := Ok(if sequencerTail > maxTail then sequencerTail else maxTail);
    }
  }
}
