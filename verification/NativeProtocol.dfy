/** The NativeLoglet protocol: one sequencer, n log servers and any number of concurrent append, seal, read,
    trim and check_tail calls exchanging messages. Requests and replies stay in flight for as long as they
    like, may be lost, and a call may be abandoned at any point. */
module NativeProtocol {
  import opened RelosCore
  import opened NativeTasks

  datatype Op = AppendOp(entry: Entry) | SealOp | ReadOp(pos: LogPos) | TrimOp(pos: LogPos) | CheckTailOp

  /** Where a call is. `acks` and `tails` remember which servers the counters counted. */
  datatype Pc =
    | Begun
    | WaitPos
    | FanStore(pos: LogPos, k: nat)
    | CollectStore(pos: LogPos, i: nat, ackCount: nat, sealTail: Option<LogPos>, acks: set<nat>)
    | AppendOk(pos: LogPos, acks: set<nat>)
    | WaitSealedTail
    | AppendSealed(tail: LogPos)
    | WaitSeqSeal
    | FanSeal(seqTail: LogPos, k: nat)
    | CollectSeal(seqTail: LogPos, i: nat, sealedCount: nat, maxTail: LogPos, tails: map<nat, LogPos>)
    | SealOk(tail: LogPos, maxTail: LogPos, tails: map<nat, LogPos>)
    | ReadFrom(i: nat)
    | ReadWait(i: nat)
    | ReadOk(result: Option<Entry>)
    | ReadTrimmed
    | FanTrim(k: nat)
    | CollectTrim(i: nat)
    | TrimOk
    | WaitTail
    | TailOk(tail: LogPos)
    | Failed

  /** `sealed` on tail requests and replies says that the caller asks because it found the loglet sealed. */
  datatype Msg =
    | NextReq(c: nat)
    | NextRep(c: nat, next: Option<LogPos>)
    | SeqSealReq(c: nat)
    | SeqSealRep(c: nat, tail: LogPos)
    | TailReq(c: nat, sealed: bool)
    | TailRep(c: nat, tail: LogPos, sealed: bool)
    | StoreReq(c: nat, s: nat, pos: LogPos, entry: Entry)
    | StoreRep(c: nat, s: nat, pos: LogPos, stored: StoreReply)
    | SealReq(c: nat, s: nat)
    | SealRep(c: nat, s: nat, tail: LogPos)
    | ReadReq(c: nat, s: nat, pos: LogPos)
    | ReadRep(c: nat, s: nat, pos: LogPos, read: ReadReply)
    | TrimReq(c: nat, s: nat, pos: LogPos)
    | TrimRep(c: nat, s: nat, pos: LogPos)

  // ---- One call, as a state machine over its own messages ----

  /** `Go` is a step that needs no message; `NoReply` is a reply that will never come. */
  datatype Event = Go | Take(m: Msg) | NoReply

  datatype Effect = Effect(pc: Pc, sent: set<Msg>, setFlag: bool)

  predicate CallEnabled(n: nat, c: nat, op: Op, pc: Pc, ev: Event) {
    match pc
    case Begun => ev.Go?
    case WaitPos => ev.Take? && ev.m.NextRep? && ev.m.c == c
    case FanStore(_, _) => ev.Go? && op.AppendOp?
    case CollectStore(pos, i, _, _, _) =>
      if i < n then ev.NoReply? || (ev.Take? && ev.m.StoreRep? && ev.m.c == c && ev.m.s == i && ev.m.pos == pos)
      else ev.Go?
    case WaitSeqSeal => ev.Take? && ev.m.SeqSealRep? && ev.m.c == c
    case FanSeal(_, _) => ev.Go?
    case CollectSeal(_, i, _, _, _) =>
      if i < n then ev.NoReply? || (ev.Take? && ev.m.SealRep? && ev.m.c == c && ev.m.s == i)
      else ev.Go?
    case ReadFrom(_) => ev.Go? && op.ReadOp?
    case ReadWait(i) => op.ReadOp? && ev.Take? && ev.m.ReadRep? && ev.m.c == c && ev.m.s == i && ev.m.pos == op.pos
    case FanTrim(_) => ev.Go? && op.TrimOp?
    case CollectTrim(i) =>
      op.TrimOp? && if i < n then ev.Take? && ev.m.TrimRep? && ev.m.c == c && ev.m.s == i && ev.m.pos == op.pos else ev.Go?
    case WaitTail => ev.Take? && ev.m.TailRep? && ev.m.c == c && !ev.m.sealed
    case WaitSealedTail => ev.Take? && ev.m.TailRep? && ev.m.c == c && ev.m.sealed
    case _ => false
  }

  function Max(a: LogPos, b: LogPos): LogPos {
    if a > b then a else b
  }

  function CallStep(n: nat, flag: bool, c: nat, op: Op, pc: Pc, ev: Event): Effect
    requires CallEnabled(n, c, op, pc, ev)
  {
    match pc
    case Begun =>
      (match op
       case AppendOp(_) => if flag then Effect(WaitSealedTail, {TailReq(c, true)}, false) else Effect(WaitPos, {NextReq(c)}, false)
       case SealOp => Effect(WaitSeqSeal, {SeqSealReq(c)}, false)
       case ReadOp(_) => Effect(ReadFrom(0), {}, false)
       case TrimOp(_) => Effect(FanTrim(0), {}, false)
       case CheckTailOp => Effect(WaitTail, {TailReq(c, false)}, false))
    case WaitPos =>
      (match ev.m.next
       case Some(pos) => Effect(FanStore(pos, 0), {}, false)
       case None => Effect(WaitSealedTail, {TailReq(c, true)}, true))
    case FanStore(pos, k) =>
      if k < n then Effect(FanStore(pos, k + 1), {StoreReq(c, k, pos, op.entry)}, false)
      else Effect(CollectStore(pos, 0, 0, None, {}), {}, false)
    case CollectStore(pos, i, ackCount, sealTail, acks) =>
      if i < n then
        if ev.NoReply? then Effect(CollectStore(pos, i + 1, ackCount, sealTail, acks), {}, false)
        else if ev.m.stored.SealedAt? then Effect(CollectStore(pos, i + 1, ackCount, Some(ev.m.stored.tail), acks), {}, false)
        else Effect(CollectStore(pos, i + 1, ackCount + 1, sealTail, acks + {i}), {}, false)
      else if ackCount >= QuorumSize(n) then Effect(AppendOk(pos, acks), {}, false)
      else if sealTail.Some? then Effect(AppendSealed(sealTail.value), {}, true)
      else Effect(Failed, {}, false)
    case WaitSeqSeal => Effect(FanSeal(ev.m.tail, 0), {}, false)
    case FanSeal(t, k) =>
      if k < n then Effect(FanSeal(t, k + 1), {SealReq(c, k)}, false)
      else Effect(CollectSeal(t, 0, 0, LOG_POS_BEGIN, map[]), {}, false)
    case CollectSeal(t, i, sealedCount, maxTail, tails) =>
      if i < n then
        if ev.NoReply? then Effect(CollectSeal(t, i + 1, sealedCount, maxTail, tails), {}, false)
        else Effect(CollectSeal(t, i + 1, sealedCount + 1, Max(ev.m.tail, maxTail), tails[i := ev.m.tail]), {}, false)
      else if sealedCount < QuorumSize(n) then Effect(Failed, {}, false)
      else Effect(SealOk(Max(t, maxTail), maxTail, tails), {}, true)
    case ReadFrom(i) =>
      if i < n then Effect(ReadWait(i), {ReadReq(c, i, op.pos)}, false)
      else Effect(ReadOk(None), {}, false)
    case ReadWait(i) =>
      (match ev.m.read
       case Found(e) => Effect(ReadOk(Some(e)), {}, false)
       case TrimmedHere => Effect(ReadTrimmed, {}, false)
       case NotFound => Effect(ReadFrom(i + 1), {}, false))
    case FanTrim(k) =>
      if k < n then Effect(FanTrim(k + 1), {TrimReq(c, k, op.pos)}, false)
      else Effect(CollectTrim(0), {}, false)
    case CollectTrim(i) =>
      if i < n then Effect(CollectTrim(i + 1), {}, false) else Effect(TrimOk, {}, false)
    case WaitTail => Effect(TailOk(ev.m.tail), {}, false)
    case WaitSealedTail => Effect(AppendSealed(ev.m.tail), {}, false)
  }

  predicate Final(pc: Pc) {
    pc.AppendOk? || pc.AppendSealed? || pc.SealOk? || pc.ReadOk? || pc.ReadTrimmed? || pc.TrimOk? || pc.TailOk? || pc.Failed?
  }

  // ---- The whole system ----

  /** `flag` is the loglet's own sealed flag. History: `issued[p - 1]` is the call that was given
      position p, `stored[s]` every position server s ever stored, `sealedWith[s]` what it had
      stored when it first sealed, `acked[c]` the positions acknowledged and `trimmed[c]` the trims
      completed before call c began. */
  datatype State = State(
    seqr: Sequencer, servers: seq<Server>, flag: bool,
    ops: map<nat, Op>, pcs: map<nat, Pc>, net: set<Msg>,
    issued: seq<nat>, stored: seq<set<LogPos>>, sealedWith: seq<Option<set<LogPos>>>,
    acked: map<nat, set<LogPos>>, trimmed: map<nat, set<LogPos>>)

  datatype Action =
    | Begin(c: nat, op: Op)
    | Call(c: nat, ev: Event)
    | Abandon(c: nat)
    | AtSequencer(m: Msg)
    | AtServer(m: Msg)
    | Lose(m: Msg)

  ghost predicate Init(st: State, n: nat) {
    && n > 0
    && st == State(FRESH_SEQUENCER, seq(n, i => FRESH_SERVER), false, map[], map[], {},
                   [], seq(n, i => {}), seq(n, i => None), map[], map[])
  }

  predicate WellFormed(st: State) {
    && |st.servers| > 0
    && |st.stored| == |st.servers| == |st.sealedWith|
    && st.ops.Keys == st.pcs.Keys == st.acked.Keys == st.trimmed.Keys
  }

  predicate ForSequencer(m: Msg) {
    m.NextReq? || m.SeqSealReq? || m.TailReq?
  }

  predicate ForServer(m: Msg) {
    m.StoreReq? || m.SealReq? || m.ReadReq? || m.TrimReq?
  }

  predicate Enabled(st: State, a: Action)
    requires WellFormed(st)
  {
    match a
    case Begin(c, op) => c !in st.ops
    case Call(c, ev) =>
      && c in st.ops && CallEnabled(|st.servers|, c, st.ops[c], st.pcs[c], ev)
      && (ev.Take? ==> ev.m in st.net)
    case Abandon(c) => c in st.ops && !Final(st.pcs[c])
    case AtSequencer(m) => m in st.net && ForSequencer(m)
    case AtServer(m) => m in st.net && ForServer(m) && m.s < |st.servers|
    case Lose(m) => m in st.net
  }

  function AckedNow(st: State): set<LogPos> {
    set c | c in st.pcs && st.pcs[c].AppendOk? :: st.pcs[c].pos
  }

  function TrimmedNow(st: State): set<LogPos>
    requires WellFormed(st)
  {
    set c | c in st.pcs && st.pcs[c].TrimOk? && st.ops[c].TrimOp? :: st.ops[c].pos
  }

  function DoBegin(st: State, c: nat, op: Op): State
    requires WellFormed(st)
  {
    st.(ops := st.ops[c := op], pcs := st.pcs[c := Begun], acked := st.acked[c := AckedNow(st)],
        trimmed := st.trimmed[c := TrimmedNow(st)])
  }

  function DoCall(st: State, c: nat, ev: Event): State
    requires WellFormed(st) && Enabled(st, Call(c, ev))
  {
    var e := CallStep(|st.servers|, st.flag, c, st.ops[c], st.pcs[c], ev);
    st.(pcs := st.pcs[c := e.pc], flag := st.flag || e.setFlag,
        net := (if ev.Take? then st.net - {ev.m} else st.net) + e.sent)
  }

  function DoAbandon(st: State, c: nat): State {
    st.(pcs := st.pcs[c := Failed])
  }

  function DoSequencer(st: State, m: Msg): State
    requires ForSequencer(m)
  {
    if m.NextReq? then
      var (q, next) := NextPos(st.seqr);
      st.(seqr := q, net := st.net - {m} + {NextRep(m.c, next)},
          issued := if next.Some? then st.issued + [m.c] else st.issued)
    else if m.TailReq? then
      st.(net := st.net - {m} + {TailRep(m.c, st.seqr.next, m.sealed)})
    else
      var (q, t) := SealSequencer(st.seqr);
      st.(seqr := q, net := st.net - {m} + {SeqSealRep(m.c, t)})
  }

  function DoServer(st: State, m: Msg): State
    requires WellFormed(st) && ForServer(m) && m.s < |st.servers|
  {
    var s, v := m.s, st.servers[m.s];
    match m
    case StoreReq(c, _, pos, e) =>
      var (v', r) := StoreAt(v, pos, e);
      st.(servers := st.servers[s := v'], net := st.net - {m} + {StoreRep(c, s, pos, r)},
          stored := st.stored[s := if r.Stored? then st.stored[s] + {pos} else st.stored[s]])
    case SealReq(c, _) =>
      var (v', t) := SealServer(v);
      st.(servers := st.servers[s := v'], net := st.net - {m} + {SealRep(c, s, t)},
          sealedWith := st.sealedWith[s := if st.sealedWith[s].Some? then st.sealedWith[s] else Some(st.stored[s])])
    case ReadReq(c, _, pos) =>
      st.(net := st.net - {m} + {ReadRep(c, s, pos, ReadAt(v, pos))})
    case TrimReq(c, _, pos) =>
      st.(servers := st.servers[s := TrimTo(v, pos)], net := st.net - {m} + {TrimRep(c, s, pos)})
  }

  function Next(st: State, a: Action): State
    requires WellFormed(st) && Enabled(st, a)
  {
    match a
    case Begin(c, op) => DoBegin(st, c, op)
    case Call(c, ev) => DoCall(st, c, ev)
    case Abandon(c) => DoAbandon(st, c)
    case AtSequencer(m) => DoSequencer(st, m)
    case AtServer(m) => DoServer(st, m)
    case Lose(m) => st.(net := st.net - {m})
  }

  // ---- The invariant ----

  /** Call c was given position pos. */
  ghost predicate Owns(st: State, c: nat, pos: LogPos) {
    1 <= pos <= |st.issued| && st.issued[pos - 1] == c
  }

  /** e is the entry of the call that was given position pos. */
  ghost predicate Belongs(st: State, pos: LogPos, e: Entry) {
    && 1 <= pos <= |st.issued|
    && st.issued[pos - 1] in st.ops
    && st.ops[st.issued[pos - 1]] == AppendOp(e)
  }

  /** Server s was already sent the store request of a call at pc. */
  ghost predicate SentTo(pc: Pc, s: nat) {
    match pc
    case Begun => false
    case WaitPos => false
    case FanStore(_, k) => s < k
    case _ => true
  }

  ghost predicate SequencerOk(st: State) {
    && st.seqr.next == |st.issued| + 1
    && (st.flag ==> st.seqr.sealed)
    && (forall i :: 0 <= i < |st.issued| ==> st.issued[i] in st.ops && st.ops[st.issued[i]].AppendOp?)
    && (forall i, j :: 0 <= i < j < |st.issued| ==> st.issued[i] != st.issued[j])
  }

  ghost predicate Placed(st: State, s: nat, p: LogPos) {
    && 1 <= p <= |st.issued|
    && st.issued[p - 1] in st.pcs
    && SentTo(st.pcs[st.issued[p - 1]], s)
  }

  /** A call to trim to p has begun. */
  ghost predicate TrimAsked(st: State, p: LogPos) {
    exists d :: d in st.ops && st.ops[d] == TrimOp(p)
  }

  /** A call to trim beyond p has begun. */
  ghost predicate TrimAskedBeyond(st: State, p: LogPos) {
    exists d :: d in st.ops && st.ops[d].TrimOp? && p < st.ops[d].pos
  }

  ghost predicate ServerOk(st: State, s: nat)
    requires WellFormed(st) && s < |st.servers|
  {
    var v := st.servers[s];
    && 1 <= v.tail <= st.seqr.next
    && (v.trimPos == LOG_POS_BEGIN || TrimAsked(st, v.trimPos))
    && (v.sealed ==> st.seqr.sealed && st.sealedWith[s] == Some(st.stored[s]))
    && (st.sealedWith[s].Some? ==> v.sealed)
    && (forall p :: p in v.entries ==> p in st.stored[s] && Belongs(st, p, v.entries[p]))
    && (forall p :: p in st.stored[s] ==> Placed(st, s, p) && p < v.tail && (p in v.entries || p < v.trimPos))
  }

  ghost predicate StoredBy(st: State, pos: LogPos, who: set<nat>) {
    forall s :: s in who ==> s < |st.stored| && pos in st.stored[s]
  }

  ghost predicate SealedTails(st: State, tails: map<nat, LogPos>, bound: LogPos) {
    forall s :: s in tails ==> s < |st.servers| && st.servers[s].sealed && tails[s] == st.servers[s].tail <= bound
  }

  ghost predicate IsFinal(st: State, t: LogPos) {
    st.seqr.sealed && t == st.seqr.next
  }

  /** If p was acknowledged before call c began, server s is not among those that acknowledged it. */
  ghost predicate Missed(st: State, c: nat, p: LogPos, s: nat) {
    c in st.acked &&
    (p in st.acked[c] ==>
      && 1 <= p <= |st.issued| && st.issued[p - 1] in st.pcs
      && st.pcs[st.issued[p - 1]].AppendOk? && s !in st.pcs[st.issued[p - 1]].acks)
  }

  ghost predicate MissedBelow(st: State, c: nat, p: LogPos, i: nat) {
    forall s :: 0 <= s < i ==> Missed(st, c, p, s)
  }

  /** The first i servers have trimmed everything below p. */
  ghost predicate TrimmedUpTo(st: State, i: nat, p: LogPos) {
    i <= |st.servers| && forall s :: 0 <= s < i ==> p <= st.servers[s].trimPos
  }

  /** No trim completed before call c began went beyond p. */
  ghost predicate NotTrimmed(st: State, c: nat, p: LogPos) {
    c in st.trimmed && forall q :: q in st.trimmed[c] ==> q <= p
  }

  /** The tail t lies beyond every position acknowledged before call c began, and not beyond the next. */
  ghost predicate TailCovers(st: State, c: nat, t: LogPos) {
    c in st.acked && 1 <= t <= st.seqr.next && forall p :: p in st.acked[c] ==> p < t
  }

  ghost predicate PcOk(st: State, c: nat)
    requires WellFormed(st) && c in st.pcs
  {
    var n := |st.servers|;
    match st.pcs[c]
    case WaitPos => st.ops[c].AppendOp?
    case FanStore(pos, k) => st.ops[c].AppendOp? && k <= n && Owns(st, c, pos)
    case CollectStore(pos, i, ackCount, sealTail, acks) =>
      && Owns(st, c, pos) && i <= n && ackCount == |acks| && StoredBy(st, pos, acks)
      && (forall s :: s in acks ==> s < i)
      && (sealTail.Some? ==> st.seqr.sealed && 1 <= sealTail.value <= st.seqr.next)
    case WaitSealedTail => st.seqr.sealed && st.flag
    case AppendSealed(t) => st.seqr.sealed && st.flag && 1 <= t <= st.seqr.next
    case AppendOk(pos, acks) => Owns(st, c, pos) && |acks| >= QuorumSize(n) && StoredBy(st, pos, acks)
    case FanSeal(t, k) => IsFinal(st, t) && k <= n
    case CollectSeal(t, i, sealedCount, maxTail, tails) =>
      && IsFinal(st, t) && i <= n && sealedCount == |tails| && maxTail <= t && SealedTails(st, tails, maxTail)
      && (forall s :: s in tails ==> s < i)
    case SealOk(t, maxTail, tails) =>
      IsFinal(st, t) && st.flag && |tails| >= QuorumSize(n) && maxTail <= t && SealedTails(st, tails, maxTail)
    case ReadFrom(i) =>
      st.ops[c].ReadOp? && i <= n && MissedBelow(st, c, st.ops[c].pos, i) && (i > 0 ==> NotTrimmed(st, c, st.ops[c].pos))
    case ReadWait(i) => st.ops[c].ReadOp? && i < n && MissedBelow(st, c, st.ops[c].pos, i)
    case ReadOk(None) => st.ops[c].ReadOp? && st.ops[c].pos !in st.acked[c] && NotTrimmed(st, c, st.ops[c].pos)
    case ReadOk(Some(e)) => st.ops[c].ReadOp? && Belongs(st, st.ops[c].pos, e) && NotTrimmed(st, c, st.ops[c].pos)
    case ReadTrimmed => st.ops[c].ReadOp? && (st.ops[c].pos == 0 || TrimAskedBeyond(st, st.ops[c].pos))
    case FanTrim(k) => st.ops[c].TrimOp? && k <= n
    case CollectTrim(i) => st.ops[c].TrimOp? && i <= n && TrimmedUpTo(st, i, st.ops[c].pos)
    case TrimOk => st.ops[c].TrimOp? && TrimmedUpTo(st, n, st.ops[c].pos)
    case TailOk(t) => TailCovers(st, c, t)
    case _ => true
  }

  /** What was acknowledged before call c began still is, and what was trimmed stays trimmed on every server. */
  ghost predicate AckedOk(st: State, c: nat)
    requires WellFormed(st) && c in st.acked
  {
    forall p :: p in st.acked[c] ==>
      && 1 <= p <= |st.issued| && st.issued[p - 1] in st.pcs
      && st.pcs[st.issued[p - 1]].AppendOk? && st.pcs[st.issued[p - 1]].pos == p
  }

  ghost predicate TrimmedOk(st: State, c: nat)
    requires WellFormed(st) && c in st.trimmed
  {
    forall p :: p in st.trimmed[c] ==> TrimmedUpTo(st, |st.servers|, p)
  }

  ghost predicate MsgOk(st: State, m: Msg)
    requires WellFormed(st)
  {
    var n := |st.servers|;
    match m
    case NextReq(c) => c in st.ops && st.ops[c].AppendOp?
    case NextRep(c, None) => st.seqr.sealed
    case NextRep(c, Some(pos)) => Owns(st, c, pos)
    case SeqSealReq(c) => true
    case TailReq(c, afterSeal) => c in st.acked && (afterSeal ==> st.seqr.sealed)
    case TailRep(c, t, afterSeal) => TailCovers(st, c, t) && (afterSeal ==> IsFinal(st, t))
    case SeqSealRep(c, t) => IsFinal(st, t)
    case StoreReq(c, s, pos, e) =>
      s < n && Owns(st, c, pos) && Belongs(st, pos, e) && Placed(st, s, pos)
    case StoreRep(c, s, pos, r) =>
      s < n && !r.Occupied? && (r.Stored? ==> pos in st.stored[s]) && (r.SealedAt? ==> st.seqr.sealed && 1 <= r.tail <= st.seqr.next)
    case SealReq(c, s) => s < n && st.seqr.sealed
    case SealRep(c, s, t) => s < n && st.servers[s].sealed && t == st.servers[s].tail
    case ReadReq(c, s, pos) => c in st.acked
    case ReadRep(c, s, pos, r) =>
      && (r.Found? ==> Belongs(st, pos, r.entry)) && (r.NotFound? ==> Missed(st, c, pos, s))
      && (!r.TrimmedHere? ==> NotTrimmed(st, c, pos))
      && (r.TrimmedHere? ==> pos == 0 || TrimAskedBeyond(st, pos))
    case TrimReq(c, s, pos) => s < n && TrimAsked(st, pos)
    case TrimRep(c, s, pos) => s < n && pos <= st.servers[s].trimPos
  }

  /** What no longer holds once the message has been handled: a position is asked for and stored once. */
  ghost predicate Fresh(st: State, m: Msg)
    requires WellFormed(st)
  {
    && (m.NextReq? ==> m.c in st.pcs && m.c !in st.issued && !st.pcs[m.c].Begun?)
    && (m.StoreReq? ==> m.s < |st.servers| && m.pos !in st.stored[m.s])
  }

  ghost predicate Inv(st: State) {
    && WellFormed(st)
    && SequencerOk(st)
    && (forall s :: 0 <= s < |st.servers| ==> ServerOk(st, s))
    && (forall c :: c in st.pcs ==> PcOk(st, c))
    && (forall c :: c in st.acked ==> AckedOk(st, c))
    && (forall c :: c in st.trimmed ==> TrimmedOk(st, c))
    && (forall c :: c in st.pcs && st.pcs[c].Begun? ==> c !in st.issued)
    && (forall m :: m in st.net ==> MsgOk(st, m))
    && (forall m :: m in st.net ==> Fresh(st, m))
  }

  lemma InitInv(st: State, n: nat)
    requires Init(st, n)
    ensures Inv(st)
  {
  }

  // ---- Every step only grows the state ----

  ghost predicate ServerGrows(st: State, st': State, s: nat)
    requires WellFormed(st) && WellFormed(st') && s < |st.servers| == |st'.servers|
  {
    && st.stored[s] <= st'.stored[s]
    && (st.servers[s].sealed ==>
          st'.servers[s].sealed && st'.servers[s].tail == st.servers[s].tail && st'.stored[s] == st.stored[s])
    && (st.sealedWith[s].Some? ==> st'.sealedWith[s] == st.sealedWith[s])
    && st.servers[s].trimPos <= st'.servers[s].trimPos
  }

  ghost predicate CallGrows(st: State, st': State, c: nat)
    requires WellFormed(st) && WellFormed(st')
    requires c in st.pcs
  {
    && c in st'.pcs && st'.ops[c] == st.ops[c] && st'.acked[c] == st.acked[c] && st'.trimmed[c] == st.trimmed[c]
    && (Final(st.pcs[c]) ==> st'.pcs[c] == st.pcs[c])
    && (forall s :: SentTo(st.pcs[c], s) ==> SentTo(st'.pcs[c], s))
  }

  ghost predicate Grows(st: State, st': State) {
    && WellFormed(st) && WellFormed(st')
    && |st'.servers| == |st.servers|
    && st.issued <= st'.issued && st.seqr.next <= st'.seqr.next && (st.flag ==> st'.flag)
    && (st.seqr.sealed ==> st'.seqr == st.seqr && st'.issued == st.issued)
    && (forall s :: 0 <= s < |st.servers| ==> ServerGrows(st, st', s))
    && (forall c :: c in st.pcs ==> CallGrows(st, st', c))
  }

  lemma GrowsTransitive(s0: State, s1: State, s2: State)
    requires Grows(s0, s1) && Grows(s1, s2)
    ensures Grows(s0, s2)
  {
    forall s | 0 <= s < |s0.servers| ensures ServerGrows(s0, s2, s) {
      assert ServerGrows(s0, s1, s) && ServerGrows(s1, s2, s);
    }
    forall c | c in s0.pcs ensures CallGrows(s0, s2, c) {
      assert CallGrows(s0, s1, c) && CallGrows(s1, s2, c);
    }
  }

  lemma CallStepGrows(n: nat, flag: bool, c: nat, op: Op, pc: Pc, ev: Event)
    requires CallEnabled(n, c, op, pc, ev)
    ensures !Final(pc)
    ensures var pc' := CallStep(n, flag, c, op, pc, ev).pc; forall s :: SentTo(pc, s) ==> SentTo(pc', s)
  {
  }

  lemma CallGrowsAll(st: State, c: nat, ev: Event)
    requires WellFormed(st) && Enabled(st, Call(c, ev))
    ensures Grows(st, DoCall(st, c, ev))
  {
    CallStepGrows(|st.servers|, st.flag, c, st.ops[c], st.pcs[c], ev);
  }

  lemma SequencerGrows(st: State, m: Msg)
    requires WellFormed(st) && Enabled(st, AtSequencer(m))
    ensures Grows(st, DoSequencer(st, m))
  {
  }

  lemma ServerStepGrows(st: State, m: Msg)
    requires WellFormed(st) && Enabled(st, AtServer(m)) && ServerOk(st, m.s)
    ensures Grows(st, DoServer(st, m))
  {
  }

  lemma StepGrows(st: State, a: Action)
    requires WellFormed(st) && Enabled(st, a)
    requires forall s :: 0 <= s < |st.servers| ==> ServerOk(st, s)
    ensures Grows(st, Next(st, a))
  {
    match a
    case Begin(c, op) =>
    case Call(c, ev) => CallGrowsAll(st, c, ev);
    case Abandon(c) =>
    case AtSequencer(m) => SequencerGrows(st, m);
    case AtServer(m) => ServerStepGrows(st, m);
    case Lose(m) =>
  }

  // ---- What the old state promised about untouched parts still holds ----

  lemma KeepPc(st: State, st': State, c: nat)
    requires Grows(st, st') && c in st.pcs && PcOk(st, c) && st'.pcs[c] == st.pcs[c]
    ensures PcOk(st', c)
  {
    assert CallGrows(st, st', c);
    match st.pcs[c]
    case CollectStore(pos, i, ackCount, sealTail, acks) => KeepStored(st, st', pos, acks);
    case AppendOk(pos, acks) => KeepStored(st, st', pos, acks);
    case CollectSeal(t, i, sealedCount, maxTail, tails) => KeepTails(st, st', tails, maxTail);
    case SealOk(t, maxTail, tails) => KeepTails(st, st', tails, maxTail);
    case ReadFrom(i) => KeepMissed(st, st', c, st.ops[c].pos, i);
    case ReadWait(i) => KeepMissed(st, st', c, st.ops[c].pos, i);
    case ReadOk(r) => if r.Some? { KeepBelongs(st, st', st.ops[c].pos, r.value); }
    case CollectTrim(i) => KeepTrimmed(st, st', i, st.ops[c].pos);
    case TrimOk => KeepTrimmed(st, st', |st.servers|, st.ops[c].pos);
    case ReadTrimmed => if st.ops[c].pos > 0 { KeepAsked(st, st', st.ops[c].pos); }
    case _ =>
  }

  lemma KeepStored(st: State, st': State, pos: LogPos, who: set<nat>)
    requires Grows(st, st') && StoredBy(st, pos, who)
    ensures StoredBy(st', pos, who)
  {
    forall s | s in who ensures s < |st'.stored| && pos in st'.stored[s] {
      assert ServerGrows(st, st', s);
    }
  }

  lemma KeepTails(st: State, st': State, tails: map<nat, LogPos>, bound: LogPos)
    requires Grows(st, st') && SealedTails(st, tails, bound)
    ensures SealedTails(st', tails, bound)
  {
    forall s | s in tails
      ensures s < |st'.servers| && st'.servers[s].sealed && tails[s] == st'.servers[s].tail <= bound
    {
      assert ServerGrows(st, st', s);
    }
  }

  lemma KeepTrimmed(st: State, st': State, i: nat, p: LogPos)
    requires Grows(st, st') && TrimmedUpTo(st, i, p)
    ensures TrimmedUpTo(st', i, p)
  {
    forall s | 0 <= s < i ensures p <= st'.servers[s].trimPos {
      assert ServerGrows(st, st', s);
    }
  }

  lemma KeepAsked(st: State, st': State, p: LogPos)
    requires Grows(st, st')
    ensures TrimAsked(st, p) ==> TrimAsked(st', p)
    ensures TrimAskedBeyond(st, p) ==> TrimAskedBeyond(st', p)
  {
    forall d | d in st.ops ensures d in st'.ops && st'.ops[d] == st.ops[d] {
      assert CallGrows(st, st', d);
    }
  }

  lemma KeepTrims(st: State, st': State, c: nat)
    requires Grows(st, st') && c in st.trimmed && TrimmedOk(st, c)
    ensures c in st'.trimmed && TrimmedOk(st', c)
  {
    assert CallGrows(st, st', c);
    forall p | p in st'.trimmed[c] ensures TrimmedUpTo(st', |st'.servers|, p) {
      KeepTrimmed(st, st', |st.servers|, p);
    }
  }

  lemma KeepMissedAt(st: State, st': State, c: nat, p: LogPos, s: nat)
    requires Grows(st, st') && Missed(st, c, p, s)
    ensures Missed(st', c, p, s)
  {
  }

  lemma KeepMissed(st: State, st': State, c: nat, p: LogPos, i: nat)
    requires Grows(st, st') && MissedBelow(st, c, p, i)
    ensures MissedBelow(st', c, p, i)
  {
    forall s | 0 <= s < i ensures Missed(st', c, p, s) {
      KeepMissedAt(st, st', c, p, s);
    }
  }

  lemma KeepBelongs(st: State, st': State, pos: LogPos, e: Entry)
    requires Grows(st, st') && Belongs(st, pos, e)
    ensures Belongs(st', pos, e)
  {
  }

  lemma KeepPlaced(st: State, st': State, s: nat, p: LogPos)
    requires Grows(st, st') && Placed(st, s, p)
    ensures Placed(st', s, p)
  {
  }

  lemma KeepAcked(st: State, st': State, c: nat)
    requires Grows(st, st') && c in st.acked && AckedOk(st, c)
    ensures c in st'.acked && AckedOk(st', c)
  {
  }

  lemma KeepMsg(st: State, st': State, m: Msg)
    requires Grows(st, st') && MsgOk(st, m)
    ensures MsgOk(st', m)
  {
    match m
    case NextReq(c) => assert CallGrows(st, st', c);
    case StoreReq(c, s, pos, e) =>
      KeepBelongs(st, st', pos, e);
      KeepPlaced(st, st', s, pos);
    case StoreRep(c, s, pos, r) => assert ServerGrows(st, st', s);
    case SealRep(c, s, t) => assert ServerGrows(st, st', s);
    case ReadReq(c, s, pos) => assert CallGrows(st, st', c);
    case TailReq(c, _) => assert CallGrows(st, st', c);
    case TailRep(c, _, _) => assert CallGrows(st, st', c);
    case TrimReq(c, s, pos) => KeepAsked(st, st', pos);
    case TrimRep(c, s, pos) => assert ServerGrows(st, st', s);
    case ReadRep(c, s, pos, r) =>
      if !r.TrimmedHere? { assert CallGrows(st, st', c); }
      KeepAsked(st, st', pos);
      if r.Found? { KeepBelongs(st, st', pos, r.entry); }
      if r.NotFound? { KeepMissedAt(st, st', c, pos, s); }
    case _ =>
  }

  lemma KeepServer(st: State, st': State, s: nat)
    requires Grows(st, st') && SequencerOk(st') && s < |st.servers| && ServerOk(st, s)
    requires st.seqr.next <= st'.seqr.next
    requires st'.servers[s] == st.servers[s] && st'.stored[s] == st.stored[s] && st'.sealedWith[s] == st.sealedWith[s]
    ensures ServerOk(st', s)
  {
    KeepAsked(st, st', st.servers[s].trimPos);
  }
}
