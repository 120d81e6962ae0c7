/** The calls of the transition system decide as the counting loops do: stepping a call through the
    replies of servers 0, 1, ..., n - 1, lost ones included, ends where the loop over them ends. */
module NativeCollect {
  import opened RelosCore
  import opened NativeTasks
  import opened NativeProtocol

  function StoreEvent(c: nat, i: nat, pos: LogPos, reply: Option<StoreReply>): Event {
    match reply
    case Some(r) => Take(StoreRep(c, i, pos, r))
    case None => NoReply
  }

  function SealEvent(c: nat, i: nat, reply: Option<LogPos>): Event {
    match reply
    case Some(t) => Take(SealRep(c, i, t))
    case None => NoReply
  }

  /** Where call c is after these events, or after the first that it does not accept. */
  function Collect(n: nat, flag: bool, c: nat, op: Op, pc: Pc, events: seq<Event>): Pc
    decreases |events|
  {
    if events == [] || !CallEnabled(n, c, op, pc, events[0]) then pc
    else Collect(n, flag, c, op, CallStep(n, flag, c, op, pc, events[0]).pc, events[1..])
  }

  function StoreEvents(c: nat, pos: LogPos, replies: seq<Option<StoreReply>>, i: nat): seq<Event>
    requires i <= |replies|
    decreases |replies| - i
  {
    if i == |replies| then [Go] else [StoreEvent(c, i, pos, replies[i])] + StoreEvents(c, pos, replies, i + 1)
  }

  function SealEvents(c: nat, replies: seq<Option<LogPos>>, i: nat): seq<Event>
    requires i <= |replies|
    decreases |replies| - i
  {
    if i == |replies| then [Go] else [SealEvent(c, i, replies[i])] + SealEvents(c, replies, i + 1)
  }

  lemma CollectOne(n: nat, flag: bool, c: nat, op: Op, pc: Pc, ev: Event, rest: seq<Event>)
    requires CallEnabled(n, c, op, pc, ev)
    ensures Collect(n, flag, c, op, pc, [ev] + rest) == Collect(n, flag, c, op, CallStep(n, flag, c, op, pc, ev).pc, rest)
  {
  }

  /** The tail in the last reply, among the first i, that said sealed. */
  function LastTail(replies: seq<Option<StoreReply>>, i: nat): Option<LogPos>
    requires i <= |replies|
  {
    if i == 0 then None
    else match replies[i - 1]
         case Some(SealedAt(t)) => Some(t)
         case _ => LastTail(replies, i - 1)
  }

  lemma {:induction false} LastTailIsLast(replies: seq<Option<StoreReply>>, i: nat)
    requires i <= |replies|
    ensures LastTail(replies, i).None? ==> SealedReplies(replies[..i]) == {}
    ensures LastTail(replies, i).Some? ==>
              exists j: nat :: LastSealed(replies[..i], j) && replies[j] == Some(SealedAt(LastTail(replies, i).value))
  {
    if i > 0 {
      AcksStep(replies, i - 1);
      if replies[i - 1].Some? && replies[i - 1].value.SealedAt? {
        assert LastSealed(replies[..i], i - 1);
      } else {
        LastTailIsLast(replies, i - 1);
      }
    }
  }

  /** Where a call is after counting the first i replies. */
  function Counted(pos: LogPos, replies: seq<Option<StoreReply>>, i: nat): Pc
    requires i <= |replies|
  {
    CollectStore(pos, i, |Acks(replies[..i])|, LastTail(replies, i), Acks(replies[..i]))
  }

  /** The call's step on server i's reply counts it as the loop does. */
  lemma StoreStep(flag: bool, c: nat, op: Op, pos: LogPos, replies: seq<Option<StoreReply>>, i: nat)
    requires i < |replies|
    ensures CallEnabled(|replies|, c, op, Counted(pos, replies, i), StoreEvent(c, i, pos, replies[i]))
    ensures CallStep(|replies|, flag, c, op, Counted(pos, replies, i), StoreEvent(c, i, pos, replies[i])).pc == Counted(pos, replies, i + 1)
  {
    AcksStep(replies, i);
    match replies[i]
    case None =>
    case Some(SealedAt(_)) =>
    case Some(_) => assert |Acks(replies[..i]) + {i}| == |Acks(replies[..i])| + 1;
  }

  /** What an append ends in, by the replies. */
  ghost predicate AppendEnds(n: nat, pos: LogPos, replies: seq<Option<StoreReply>>, end: Pc) {
    if |Acks(replies)| >= QuorumSize(n) then end == AppendOk(pos, Acks(replies))
    else if SealedReplies(replies) != {} then
      exists j: nat :: LastSealed(replies, j) && end == AppendSealed(replies[j].value.tail)
    else end == Failed
  }

  lemma AppendDone(flag: bool, c: nat, op: Op, pos: LogPos, replies: seq<Option<StoreReply>>)
    ensures AppendEnds(|replies|, pos, replies, Collect(|replies|, flag, c, op, Counted(pos, replies, |replies|), [Go]))
  {
    assert replies[..|replies|] == replies;
    LastTailIsLast(replies, |replies|);
    CollectOne(|replies|, flag, c, op, Counted(pos, replies, |replies|), Go, []);
    assert [Go] + [] == [Go];
  }

  lemma {:induction false} AppendCollects(flag: bool, c: nat, op: Op, pos: LogPos, replies: seq<Option<StoreReply>>, i: nat)
    requires i <= |replies|
    ensures AppendEnds(|replies|, pos, replies,
                       Collect(|replies|, flag, c, op, Counted(pos, replies, i), StoreEvents(c, pos, replies, i)))
    decreases |replies| - i
  {
    if i == |replies| {
      AppendDone(flag, c, op, pos, replies);
    } else {
      StoreStep(flag, c, op, pos, replies, i);
      CollectOne(|replies|, flag, c, op, Counted(pos, replies, i), StoreEvent(c, i, pos, replies[i]), StoreEvents(c, pos, replies, i + 1));
      AppendCollects(flag, c, op, pos, replies, i + 1);
    }
  }

  /** The largest of the tails replied by the first i servers. */
  function MaxTail(replies: seq<Option<LogPos>>, i: nat): LogPos
    requires i <= |replies|
  {
    if i == 0 then LOG_POS_BEGIN
    else if replies[i - 1].Some? then Max(replies[i - 1].value, MaxTail(replies, i - 1))
    else MaxTail(replies, i - 1)
  }

  /** The tails replied by the first i servers. */
  function RepliedTails(replies: seq<Option<LogPos>>, i: nat): map<nat, LogPos>
    requires i <= |replies|
  {
    if i == 0 then map[]
    else if replies[i - 1].Some? then RepliedTails(replies, i - 1)[i - 1 := replies[i - 1].value]
    else RepliedTails(replies, i - 1)
  }

  lemma {:induction false} TailsOfReplies(replies: seq<Option<LogPos>>, i: nat)
    requires i <= |replies|
    ensures forall k :: k in RepliedTails(replies, i) <==> 0 <= k < i && replies[k].Some?
    ensures forall k :: k in RepliedTails(replies, i) ==> replies[k] == Some(RepliedTails(replies, i)[k])
  {
    if i > 0 { TailsOfReplies(replies, i - 1); }
  }

  ghost predicate SealEnds(n: nat, seqTail: LogPos, replies: seq<Option<LogPos>>, end: Pc)
    requires n == |replies|
  {
    var tails := RepliedTails(replies, n);
    end == if |tails| >= QuorumSize(n) then SealOk(Max(seqTail, MaxTail(replies, n)), MaxTail(replies, n), tails) else Failed
  }

  lemma {:induction false} SealCollects(flag: bool, c: nat, op: Op, seqTail: LogPos, replies: seq<Option<LogPos>>, i: nat)
    requires i <= |replies|
    ensures var tails := RepliedTails(replies, i);
            SealEnds(|replies|, seqTail, replies,
                     Collect(|replies|, flag, c, op, CollectSeal(seqTail, i, |tails|, MaxTail(replies, i), tails), SealEvents(c, replies, i)))
    decreases |replies| - i
  {
    var n, tails := |replies|, RepliedTails(replies, i);
    var pc := CollectSeal(seqTail, i, |tails|, MaxTail(replies, i), tails);
    if i == n {
      SealDone(flag, c, op, seqTail, replies);
    } else {
      SealStep(flag, c, op, seqTail, replies, i);
      CollectOne(n, flag, c, op, pc, SealEvent(c, i, replies[i]), SealEvents(c, replies, i + 1));
      SealCollects(flag, c, op, seqTail, replies, i + 1);
    }
  }

  lemma SealDone(flag: bool, c: nat, op: Op, seqTail: LogPos, replies: seq<Option<LogPos>>)
    ensures var n, tails := |replies|, RepliedTails(replies, |replies|);
            SealEnds(n, seqTail, replies, Collect(n, flag, c, op, CollectSeal(seqTail, n, |tails|, MaxTail(replies, n), tails), [Go]))
  {
  }

  lemma SealStep(flag: bool, c: nat, op: Op, seqTail: LogPos, replies: seq<Option<LogPos>>, i: nat)
    requires i < |replies|
    ensures var tails, tails' := RepliedTails(replies, i), RepliedTails(replies, i + 1);
            var pc := CollectSeal(seqTail, i, |tails|, MaxTail(replies, i), tails);
            && CallEnabled(|replies|, c, op, pc, SealEvent(c, i, replies[i]))
            && CallStep(|replies|, flag, c, op, pc, SealEvent(c, i, replies[i])).pc
               == CollectSeal(seqTail, i + 1, |tails'|, MaxTail(replies, i + 1), tails')
  {
    TailsOfReplies(replies, i);
  }

  /** Acknowledgements from a bare majority are enough, whatever the other replies, and from fewer are not. */
  lemma MajorityAppends(flag: bool, c: nat, op: Op, pos: LogPos, replies: seq<Option<StoreReply>>)
    ensures var end := Collect(|replies|, flag, c, op, CollectStore(pos, 0, 0, None, {}), StoreEvents(c, pos, replies, 0));
            && (2 * |Acks(replies)| > |replies| <==> end.AppendOk?)
            && (end.AppendOk? ==> end == AppendOk(pos, Acks(replies)))
  {
    AppendCollects(flag, c, op, pos, replies, 0);
    assert Acks(replies[..0]) == {};
    QuorumIsMajority(|replies|, |Acks(replies)|);
  }

  /** So are seal replies, and the tail returned is the largest of the sequencer's and all replied. */
  lemma MajoritySeals(flag: bool, c: nat, op: Op, seqTail: LogPos, replies: seq<Option<LogPos>>)
    ensures var end := Collect(|replies|, flag, c, op, CollectSeal(seqTail, 0, 0, LOG_POS_BEGIN, map[]), SealEvents(c, replies, 0));
            && (2 * |RepliedTails(replies, |replies|)| > |replies| <==> end.SealOk?)
            && (end.SealOk? ==> end.tail >= seqTail && forall k :: 0 <= k < |replies| && replies[k].Some? ==> replies[k].value <= end.tail)
            && (end.SealOk? ==> end.tail in {seqTail, LOG_POS_BEGIN} || exists k :: 0 <= k < |replies| && replies[k] == Some(end.tail))
  {
    SealCollects(flag, c, op, seqTail, replies, 0);
    QuorumIsMajority(|replies|, |RepliedTails(replies, |replies|)|);
    MaxTailIsLargest(replies, |replies|);
  }

  lemma {:induction false} MaxTailIsLargest(replies: seq<Option<LogPos>>, i: nat)
    requires i <= |replies|
    ensures forall k :: 0 <= k < i && replies[k].Some? ==> replies[k].value <= MaxTail(replies, i)
    ensures MaxTail(replies, i) == LOG_POS_BEGIN || exists k :: 0 <= k < i && replies[k] == Some(MaxTail(replies, i))
  {
    if i > 0 { MaxTailIsLargest(replies, i - 1); }
  }
}
