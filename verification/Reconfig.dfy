/** Virtual log reconfiguration: any number of replicas share one MetaStore and one registry of
    loglets. Each replica runs any number of appends, reads and tail checks; a step is one await of
    the source, so the steps of different calls and replicas interleave freely, loglets are sealed
    from outside at any time, and a call may fail or be dropped between any two steps. */
module Reconfig {
  import opened RelosCore
  import opened LogletSpec
  import opened Chain
  import opened FlatLog

  datatype Meta = Meta(chain: Segments, version: nat)

  datatype Replica = Replica(chain: Segments, version: nat, known: set<string>)

  datatype Answer = Found(entry: Entry) | Nothing | TrimmedAnswer

  datatype Pc =
    | Looping
    | Picked(id: string, start: LogPos)
    | Issued(id: string, start: LogPos, local: LogPos)
    | Acked(g: LogPos)
    | NeedReconf
    // reconfigure
    | RPicked(id: string, start: LogPos)
    | RSealed(sealPos: LogPos)
    | RVersion(sealPos: LogPos, version: nat)
    | RBuilt(chain: Segments, version: nat)
    | RWon(chain: Segments, version: nat)
    | RCreated(chain: Segments, version: nat)
    | RLost
    // sync_chain
    | SyncRead(chain: Segments, version: nat, made: nat)
    // either way, the chain is in place and the version is not yet
    | ChainSet(version: nat)
    // read and check_tail
    | Finding(id: string, local: LogPos)
    | ReadDone(answer: Answer)
    | TailPicked(id: string, start: LogPos)
    | TailDone(tail: LogPos)
    | Dead

  datatype Kind = Append(entry: Entry) | Read(g: LogPos) | CheckTail

  /** History: `seen` is how much of the log the replica's view covered when the call began, `knows` the
      positions that had been acknowledged by then. */
  datatype Call = Call(replica: nat, kind: Kind, pc: Pc, seen: nat, knows: set<LogPos>)

  datatype State = State(meta: Meta, reg: Registry, replicas: map<nat, Replica>, calls: map<nat, Call>)

  datatype Action =
    | Join(r: nat)
    | Begin(o: nat, r: nat, kind: Kind)
    | Go(o: nat)
    | SeesSealed(o: nat)
    | Answered(o: nat, answer: Answer)
    | Drop(o: nat)
    | OutsideSeal(id: string)

  ghost predicate Init(st: State, initialId: string) {
    st == State(Meta(NewChain(initialId), 0), map[], map[], map[])
  }

  predicate Reconfiguring(pc: Pc) {
    pc.RPicked? || pc.RSealed? || pc.RVersion? || pc.RBuilt? || pc.RWon? || pc.RCreated? || pc.RLost? || pc.SyncRead? || pc.ChainSet?
  }

  predicate Done(pc: Pc) {
    pc.Acked? || pc.ReadDone? || pc.TailDone? || pc.Dead?
  }

  /** No other call of the same replica is reconfiguring. */
  ghost predicate Alone(st: State, o: nat)
    requires o in st.calls
  {
    forall p :: p in st.calls && p != o && st.calls[p].replica == st.calls[o].replica ==> !Reconfiguring(st.calls[p].pc)
  }

  /** The factory hands out the loglet registered under an id, creating it the first time. */
  function Create(reg: Registry, ids: set<string>): Registry {
    map id | id in reg.Keys + ids :: LogletAt(reg, id)
  }

  ghost predicate GoEnabled(st: State, o: nat)
    requires o in st.calls && st.calls[o].replica in st.replicas
  {
    var rep := st.replicas[st.calls[o].replica];
    match st.calls[o].pc
    case Picked(id, _) => id in st.reg && !st.reg[id].sealed && st.calls[o].kind.Append?
    case Issued(_, _, _) => true
    case Looping =>
      ActiveSegment(rep.chain).Some? && ActiveSegment(rep.chain).value.id in rep.known
    case NeedReconf =>
      ActiveSegment(rep.chain).Some? && ActiveSegment(rep.chain).value.id in rep.known
    case RPicked(id, start) => id in st.reg && start >= 1
    case RWon(chain, _) => chain != []
    case TailPicked(id, start) => id in st.reg && start >= 1
    case Finding(_, _) => false
    case pc => !Done(pc)
  }

  /** A loglet answers a read of a position that it has acknowledged with the entry or a trim error, not
      with nothing; before the acknowledgement it may answer with nothing. */
  predicate HasAt(l: Loglet, local: LogPos) {
    1 <= local < Tail(l)
  }

  /** The log as replica r's chain shows it. */
  function View(st: State, r: nat): seq<Stamp>
    requires r in st.replicas
  {
    Flat(st.replicas[r].chain, st.reg)
  }

  function AckedNow(st: State): set<LogPos> {
    set o | o in st.calls && st.calls[o].pc.Acked? :: st.calls[o].pc.g
  }

  ghost predicate Enabled(st: State, a: Action) {
    match a
    case Join(r) => r !in st.replicas
    case Begin(o, r, kind) =>
      o !in st.calls && r in st.replicas
    case Go(o) => o in st.calls && st.calls[o].replica in st.replicas && GoEnabled(st, o)
    case SeesSealed(o) =>
      o in st.calls && (st.calls[o].pc.Picked? || st.calls[o].pc.Issued?) && LogletAt(st.reg, st.calls[o].pc.id).sealed
    case Answered(o, answer) =>
      && o in st.calls && st.calls[o].pc.Finding?
      && (answer.Nothing? && st.calls[o].kind.Read? && st.calls[o].kind.g in st.calls[o].knows ==>
            !HasAt(LogletAt(st.reg, st.calls[o].pc.id), st.calls[o].pc.local))
      && (answer.Found? ==> exists op :: Holds(LogletAt(st.reg, st.calls[o].pc.id), st.calls[o].pc.local, Stamp(op, answer.entry)))
    case Drop(o) => o in st.calls && !Done(st.calls[o].pc)
    case OutsideSeal(id) => id in st.reg
  }

  /** The hypothesis under which the protocol is safe: a replica runs one reconfiguration at a time. */
  ghost predicate Disciplined(st: State, a: Action) {
    a.Go? && a.o in st.calls && st.calls[a.o].pc.NeedReconf? ==> Alone(st, a.o)
  }

  function Move(st: State, o: nat, pc: Pc): State
    requires o in st.calls
  {
    st.(calls := st.calls[o := st.calls[o].(pc := pc)])
  }

  function SetReplica(st: State, r: nat, rep: Replica): State {
    st.(replicas := st.replicas[r := rep])
  }

  lemma FoundCovers(c: Segments, g: LogPos)
    ensures var s := FindSegment(c, g); s.Some? ==> Covers(s.value, g)
  {
  }

  /** A position in no segment and a chain without an open segment are internal errors. */
  function BeginPc(rep: Replica, kind: Kind): Pc {
    match kind
    case Append(_) => Looping
    case Read(g) =>
      FoundCovers(rep.chain, g);
      (match FindSegment(rep.chain, g)
       case Some(s) => Finding(s.id, ToLocal(s.start, g))
       case None => Dead)
    case CheckTail =>
      (match ActiveSegment(rep.chain)
       case Some(s) => TailPicked(s.id, s.start)
       case None => Dead)
  }

  /** The call's replica asks the factory for a loglet, which it may know already, and remembers it. */
  ghost function DoCreate(st: State, o: nat, id: string, pc: Pc): State
    requires o in st.calls && st.calls[o].replica in st.replicas
  {
    var r, rep := st.calls[o].replica, st.replicas[st.calls[o].replica];
    Move(SetReplica(st.(reg := Create(st.reg, {id})), r, rep.(known := rep.known + {id})), o, pc)
  }

  ghost function DoGo(st: State, o: nat): State
    requires Enabled(st, Go(o))
  {
    var call := st.calls[o];
    var r, rep := call.replica, st.replicas[call.replica];
    match call.pc
    case Looping =>
      var s := ActiveSegment(rep.chain).value;
      Move(st, o, Picked(s.id, s.start))
    case Picked(id, start) =>
      Move(st.(reg := st.reg[id := Issue(st.reg[id], Stamp(o, call.kind.entry))]), o, Issued(id, start, Tail(st.reg[id])))
    case Issued(id, start, local) => if start + local >= 1 then Move(st, o, Acked(ToGlobal(start, local))) else st
    case NeedReconf =>
      var s := ActiveSegment(rep.chain).value;
      Move(st, o, RPicked(s.id, s.start))
    case RPicked(id, start) =>
      Move(st.(reg := st.reg[id := Seal(st.reg[id])]), o, RSealed(ToGlobal(start, Tail(st.reg[id]))))
    case RSealed(p) => Move(st, o, RVersion(p, rep.version))
    case RVersion(p, v) => Move(st, o, RBuilt(Extend(rep.chain, p, LogletId(|rep.chain|)), v))
    case RBuilt(chain, v) =>
      if st.meta.version != v then Move(st, o, RLost)
      else Move(st.(meta := Meta(chain, v + 1)), o, RWon(chain, v))
    case RWon(chain, v) =>
      DoCreate(st, o, chain[|chain| - 1].id, RCreated(chain, v))
    case RCreated(chain, v) => Move(SetReplica(st, r, rep.(chain := chain)), o, ChainSet(v + 1))
    case RLost => Move(st, o, SyncRead(st.meta.chain, st.meta.version, 0))
    case SyncRead(chain, v, k) =>
      if k < |chain| then DoCreate(st, o, chain[k].id, SyncRead(chain, v, k + 1))
      else Move(SetReplica(st, r, rep.(chain := chain)), o, ChainSet(v))
    case ChainSet(v) => Move(SetReplica(st, r, rep.(version := v)), o, Looping)
    case TailPicked(id, start) => Move(st, o, TailDone(ToGlobal(start, Tail(st.reg[id]))))
  }

  ghost function Next(st: State, a: Action): State
    requires Enabled(st, a)
  {
    match a
    case Join(r) =>
      st.(reg := Create(st.reg, Ids(st.meta.chain)),
          replicas := st.replicas[r := Replica(st.meta.chain, st.meta.version, Ids(st.meta.chain))])
    case Begin(o, r, kind) =>
      st.(calls := st.calls[o := Call(r, kind, BeginPc(st.replicas[r], kind), |View(st, r)|, AckedNow(st))])
    case Go(o) => DoGo(st, o)
    case SeesSealed(o) => Move(st, o, NeedReconf)
    case Answered(o, answer) => Move(st, o, ReadDone(answer))
    case Drop(o) => Move(st, o, Dead)
    case OutsideSeal(id) => st.(reg := st.reg[id := Seal(st.reg[id])])
  }

  // ---- The invariant ----

  ghost function Log(st: State): seq<Stamp> {
    Flat(st.meta.chain, st.reg)
  }

  /** The stored chain is a partition, its closed segments are sealed loglets of their length, no
      two segments share a loglet, and no loglet exists outside the chain. */
  ghost predicate MetaOk(st: State) {
    var c := st.meta.chain;
    && Partition(c) && Closed(c, st.reg) && Distinct(c)
    && st.meta.version == |c| - 1
    && (forall id :: id in st.reg ==> id in Ids(c))
  }

  ghost predicate InChain(c: Segments, id: string, start: LogPos) {
    exists k :: 0 <= k < |c| && c[k].id == id && c[k].start == start
  }

  ghost predicate ReplicaOk(st: State, r: nat)
    requires r in st.replicas
  {
    var rep := st.replicas[r];
    && OlderView(rep.chain, st.meta.chain)
    && rep.version <= |rep.chain| - 1
    && rep.known <= st.reg.Keys
    && Ids(rep.chain) <= rep.known
  }

  ghost predicate Last(c: Segments, id: string, start: LogPos) {
    |c| > 0 && c[|c| - 1].id == id && c[|c| - 1].start == start
  }

  /** The chain c could be extended at p: its last loglet is sealed and ends there. */
  ghost predicate SealedAt(c: Segments, reg: Registry, p: LogPos) {
    && |c| > 0
    && var l := LogletAt(reg, c[|c| - 1].id);
    && l.sealed && p == c[|c| - 1].start + |l.issued|
  }

  /** d extends a chain c that is no older than version v and whose last loglet is sealed. */
  ghost predicate BuiltFrom(st: State, d: Segments, v: nat, rep: Replica) {
    && |d| == |rep.chain| + 1
    && d == Extend(rep.chain, d[|d| - 1].start, LogletId(|rep.chain|))
    && SealedAt(rep.chain, st.reg, d[|d| - 1].start)
    && v == rep.version
  }

  ghost predicate MadeUpTo(d: Segments, k: nat, known: set<string>)
    requires k <= |d|
  {
    forall i :: 0 <= i < k ==> d[i].id in known
  }

  ghost predicate CallOk(st: State, o: nat)
    requires o in st.calls && st.calls[o].replica in st.replicas
  {
    var call := st.calls[o];
    var rep := st.replicas[call.replica];
    var c := st.meta.chain;
    match call.pc
    case Looping => call.kind.Append?
    case Picked(id, start) => call.kind.Append? && InChain(rep.chain, id, start)
    case Issued(id, start, local) =>
      call.kind.Append? && InChain(rep.chain, id, start) && Holds(LogletAt(st.reg, id), local, Stamp(o, call.kind.entry))
    case Acked(g) =>
      call.kind.Append? && 1 <= g <= |Log(st)| && Log(st)[g - 1] == Stamp(o, call.kind.entry) && g <= |View(st, call.replica)|
    case NeedReconf => call.kind.Append?
    case RPicked(id, start) => call.kind.Append? && Last(rep.chain, id, start)
    case RSealed(p) => call.kind.Append? && SealedAt(rep.chain, st.reg, p)
    case RVersion(p, v) => call.kind.Append? && SealedAt(rep.chain, st.reg, p) && v == rep.version
    case RBuilt(d, v) => call.kind.Append? && BuiltFrom(st, d, v, rep)
    case RWon(d, v) =>
      && call.kind.Append? && OlderView(d, c) && rep.version == v && |d| == v + 2
      && Ids(d) <= rep.known + {d[|d| - 1].id} && OlderView(rep.chain, d)
    case RCreated(d, v) =>
      call.kind.Append? && OlderView(d, c) && rep.version == v && |d| == v + 2 && Ids(d) <= rep.known && OlderView(rep.chain, d)
    case RLost => call.kind.Append? && rep.version < st.meta.version
    case SyncRead(d, v, k) =>
      && call.kind.Append? && OlderView(d, c) && rep.version < v && |d| == v + 1
      && k <= |d| && MadeUpTo(d, k, rep.known) && OlderView(rep.chain, d)
    case ChainSet(v) => call.kind.Append? && rep.version < v <= |rep.chain| - 1
    case Finding(id, local) =>
      && call.kind.Read? && (exists start :: InChain(c, id, start) && call.kind.g == ToGlobal(start, local))
      && (1 <= call.kind.g <= call.seen ==> HasAt(LogletAt(st.reg, id), local))
    case ReadDone(Nothing) => call.kind.Read? && !(call.kind.g in call.knows && 1 <= call.kind.g <= call.seen)
    case ReadDone(Found(e)) => call.kind.Read? && 1 <= call.kind.g <= |Log(st)| && Log(st)[call.kind.g - 1].entry == e
    case TailPicked(id, start) => InChain(c, id, start) && call.seen < start + |LogletAt(st.reg, id).issued|
    case TailDone(t) => 1 <= t <= |Log(st)| + 1 && call.seen < t
    case _ => true
  }

  ghost predicate Inv(st: State, initialId: string) {
    Core(st) && SafeId(initialId) && IdsFrom(st.meta.chain, initialId)
  }

  ghost predicate Core(st: State) {
    MetaOk(st) && LocalOk(st)
  }

  ghost predicate LocalOk(st: State) {
    ReplicasOk(st) && CallsOk(st) && OneReconf(st)
  }

  ghost predicate ReplicasOk(st: State) {
    forall r :: r in st.replicas ==> ReplicaOk(st, r)
  }

  ghost predicate CallsOk(st: State) {
    forall o :: o in st.calls ==> st.calls[o].replica in st.replicas && CallOk(st, o)
  }

  ghost predicate OneReconf(st: State) {
    forall o :: o in st.calls && Reconfiguring(st.calls[o].pc) ==> Alone(st, o)
  }

  lemma InitInv(st: State, initialId: string)
    requires Init(st, initialId) && SafeId(initialId)
    ensures Inv(st, initialId)
  {
  }
}
