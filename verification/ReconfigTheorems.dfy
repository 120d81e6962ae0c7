/** Safety of the shared log over every disciplined run of any number of replicas. */
module ReconfigTheorems {
  import opened RelosCore
  import opened LogletSpec
  import opened Chain
  import opened FlatLog
  import opened Reconfig
  import opened ReconfigSafety

  /** Steps that install a newer chain. */
  lemma InstallGood(st: State, o: nat)
    requires MetaOk(st) && Enabled(st, Go(o)) && CallOk(st, o) && ReplicaOk(st, st.calls[o].replica)
    requires var pc := st.calls[o].pc; pc.RWon? || pc.RCreated? || pc.SyncRead? || pc.ChainSet?
    ensures GoodStep(st, DoGo(st, o), o) && Log(DoGo(st, o)) == Log(st)
  {
    match st.calls[o].pc
    case RWon(d, v) => RWonOk(st, o, d, v);
    case RCreated(d, v) => SetChainOk(st, o, d, v + 1);
    case SyncRead(d, v, k) => if k < |d| { SyncMakeOk(st, o, d, v, k); } else { SetChainOk(st, o, d, v); }
    case ChainSet(_) => SetVersionOk(st, o);
  }

  /** Steps that lead to the compare-and-swap or on from a lost one. */
  lemma OfferGood(st: State, o: nat)
    requires MetaOk(st) && Enabled(st, Go(o)) && CallOk(st, o) && ReplicaOk(st, st.calls[o].replica)
    requires LogletId(|st.meta.chain|) !in Ids(st.meta.chain)
    requires var pc := st.calls[o].pc; pc.RPicked? || pc.RSealed? || pc.RVersion? || pc.RBuilt? || pc.RLost?
    ensures GoodStep(st, DoGo(st, o), o) && Log(DoGo(st, o)) == Log(st)
  {
    if st.calls[o].pc.RPicked? {
      SealOk(st, o);
    } else if st.calls[o].pc.RBuilt? && st.calls[o].pc.version == st.meta.version {
      CasOk(st, o);
    } else {
      MoveOk(st, o);
    }
  }

  lemma GoGood(st: State, o: nat)
    requires MetaOk(st) && Enabled(st, Go(o)) && CallOk(st, o) && ReplicaOk(st, st.calls[o].replica)
    requires LogletId(|st.meta.chain|) !in Ids(st.meta.chain)
    ensures GoodStep(st, DoGo(st, o), o)
    ensures if st.calls[o].pc.Picked? then Log(DoGo(st, o)) == Log(st) + [Stamp(o, st.calls[o].kind.entry)]
            else Log(DoGo(st, o)) == Log(st)
  {
    var pc := st.calls[o].pc;
    if pc.Picked? {
      IssueOk(st, o);
    } else if pc.RWon? || pc.RCreated? || pc.SyncRead? || pc.ChainSet? {
      InstallGood(st, o);
    } else if Reconfiguring(pc) {
      OfferGood(st, o);
    } else {
      MoveOk(st, o);
    }
  }

  lemma GoKeeps(st: State, o: nat)
    requires Core(st) && Enabled(st, Go(o)) && Disciplined(st, Go(o))
    requires LogletId(|st.meta.chain|) !in Ids(st.meta.chain)
    ensures Core(DoGo(st, o)) && Grows(st, DoGo(st, o))
  {
    CallFacts(st, o);
    GoGood(st, o);
    GoAlone(st, o);
    Finish(st, DoGo(st, o), o);
  }

  /** A call that is reconfiguring after its step was alone at it before. */
  lemma GoAlone(st: State, o: nat)
    requires OneReconf(st) && Enabled(st, Go(o)) && Disciplined(st, Go(o)) && Only(st, DoGo(st, o), o)
    ensures Reconfiguring(DoGo(st, o).calls[o].pc) ==> Alone(DoGo(st, o), o)
  {
  }

  /** A step that touches no call. */
  lemma WorldStepKeeps(st: State, st': State)
    requires Core(st) && Grows(st, st') && MetaOk(st') && st'.calls == st.calls
    requires forall r :: r in st.replicas ==> st'.replicas[r] == st.replicas[r]
    requires forall r :: r in st'.replicas && r !in st.replicas ==> ReplicaOk(st', r)
    ensures Core(st')
  {
    forall r | r in st'.replicas ensures ReplicaOk(st', r) {
      if r in st.replicas { KeepReplica(st, st', r); }
    }
    forall o | o in st'.calls ensures st'.calls[o].replica in st'.replicas && CallOk(st', o) {
      CallFacts(st, o);
      KeepCall(st, st', o);
    }
    forall o | o in st'.calls && Reconfiguring(st'.calls[o].pc) ensures Alone(st', o) {
      assert Alone(st, o);
    }
  }

  lemma JoinKeeps(st: State, r: nat)
    requires Core(st) && Enabled(st, Join(r))
    ensures Core(Next(st, Join(r))) && Grows(st, Next(st, Join(r))) && Log(Next(st, Join(r))) == Log(st)
  {
    var st' := Next(st, Join(r));
    var c := st.meta.chain;
    CreateHarmless(st, Ids(c));
    var w := st.(reg := st'.reg);
    assert MetaOk(w) && Log(w) == Log(st') && MetaOk(st');
    OlderViewRefl(c);
    assert Grows(st, st');
    assert ReplicaOk(st', r);
    WorldStepKeeps(st, st');
  }

  lemma OutsideSealKeeps(st: State, id: string)
    requires Core(st) && id in st.reg
    ensures var st' := Next(st, OutsideSeal(id)); Core(st') && Grows(st, st') && Log(st') == Log(st)
  {
    LogletChanges(st, id, Seal(st.reg[id]));
    OlderViewRefl(st.meta.chain);
    WorldStepKeeps(st, Next(st, OutsideSeal(id)));
  }

  lemma AnswerOk(st: State, o: nat, answer: Answer)
    requires MetaOk(st) && Enabled(st, Answered(o, answer)) && st.calls[o].replica in st.replicas && CallOk(st, o)
    ensures CallOk(Move(st, o, ReadDone(answer)), o)
  {
    if answer.Found? {
      var c, pc := st.meta.chain, st.calls[o].pc;
      var op :| Holds(LogletAt(st.reg, pc.id), pc.local, Stamp(op, answer.entry));
      var start :| InChain(c, pc.id, start) && st.calls[o].kind.g == ToGlobal(start, pc.local);
      var k :| 0 <= k < |c| && c[k].id == pc.id && c[k].start == start;
      FlatAt(c, st.reg, k, pc.local, Stamp(op, answer.entry));
    }
  }

  lemma SeesSealedKeeps(st: State, o: nat)
    requires Core(st) && Enabled(st, SeesSealed(o))
    ensures Core(Move(st, o, NeedReconf)) && Grows(st, Move(st, o, NeedReconf))
  {
    CallFacts(st, o);
    MoveKeeps(st, o, NeedReconf);
  }

  lemma AnsweredKeeps(st: State, o: nat, answer: Answer)
    requires Core(st) && Enabled(st, Answered(o, answer))
    ensures Core(Move(st, o, ReadDone(answer))) && Grows(st, Move(st, o, ReadDone(answer)))
  {
    CallFacts(st, o);
    AnswerOk(st, o, answer);
    MoveKeeps(st, o, ReadDone(answer));
  }

  lemma DropKeeps(st: State, o: nat)
    requires Core(st) && Enabled(st, Drop(o))
    ensures Core(Move(st, o, Dead)) && Grows(st, Move(st, o, Dead))
  {
    CallFacts(st, o);
    MoveKeeps(st, o, Dead);
  }

  lemma StepKeepsCore(st: State, a: Action)
    requires Core(st) && Enabled(st, a) && Disciplined(st, a)
    requires LogletId(|st.meta.chain|) !in Ids(st.meta.chain)
    ensures Core(Next(st, a)) && Grows(st, Next(st, a))
  {
    match a
    case Join(r) => JoinKeeps(st, r);
    case Begin(o, r, kind) => BeginKeeps(st, o, r, kind);
    case Go(o) => GoKeeps(st, o);
    case SeesSealed(o) => SeesSealedKeeps(st, o);
    case Answered(o, answer) => AnsweredKeeps(st, o, answer);
    case Drop(o) => DropKeeps(st, o);
    case OutsideSeal(id) => OutsideSealKeeps(st, id);
  }

  // ---- Names ----

  /** Only a successful compare-and-swap changes the stored chain, and then by one generated segment. */
  lemma StepChain(st: State, a: Action)
    requires Core(st) && Enabled(st, a)
    ensures Next(st, a).meta.chain == st.meta.chain ||
            (|Next(st, a).meta.chain| == |st.meta.chain| + 1
             && Next(st, a).meta.chain == Extend(st.meta.chain, Next(st, a).meta.chain[|st.meta.chain|].start, LogletId(|st.meta.chain|)))
  {
    if a.Go? && st.calls[a.o].pc.RBuilt? && st.calls[a.o].pc.version == st.meta.version {
      CallFacts(st, a.o);
      CasFresh(st, a.o);
    }
  }

  lemma StepKeeps(st: State, a: Action, initialId: string)
    requires Inv(st, initialId) && Enabled(st, a) && Disciplined(st, a)
    ensures Inv(Next(st, a), initialId) && Grows(st, Next(st, a))
  {
    var c := st.meta.chain;
    forall i | 0 <= i < |c| ensures c[i].id != LogletId(|c|) {
      NextIdIsNew(c, initialId, i);
    }
    StepKeepsCore(st, a);
    StepChain(st, a);
    if Next(st, a).meta.chain != c { ExtendNames(c, Next(st, a).meta.chain[|c|].start, initialId); }
  }

  /** A step lengthens the log by at most one entry, the one whose append was given a position. */
  lemma StepAppends(st: State, a: Action, initialId: string)
    requires Inv(st, initialId) && Enabled(st, a) && Disciplined(st, a)
    ensures || Log(Next(st, a)) == Log(st)
            || (a.Go? && st.calls[a.o].kind.Append? && Log(Next(st, a)) == Log(st) + [Stamp(a.o, st.calls[a.o].kind.entry)])
  {
    var c := st.meta.chain;
    match a
    case Join(r) => JoinKeeps(st, r);
    case Go(o) =>
      forall i | 0 <= i < |c| ensures c[i].id != LogletId(|c|) {
        NextIdIsNew(c, initialId, i);
      }
      CallFacts(st, o);
      GoGood(st, o);
    case OutsideSeal(id) => OutsideSealKeeps(st, id);
    case _ =>
  }

  // ---- Runs ----

  ghost predicate Run(initialId: string, tr: seq<State>, acts: seq<Action>) {
    && |tr| == |acts| + 1
    && SafeId(initialId)
    && Init(tr[0], initialId)
    && forall i :: 0 <= i < |acts| ==> Enabled(tr[i], acts[i]) && Disciplined(tr[i], acts[i]) && tr[i + 1] == Next(tr[i], acts[i])
  }

  lemma {:induction false} RunInv(initialId: string, tr: seq<State>, acts: seq<Action>, i: nat)
    requires Run(initialId, tr, acts) && i < |tr|
    ensures Inv(tr[i], initialId)
  {
    if i == 0 {
      InitInv(tr[0], initialId);
    } else {
      RunInv(initialId, tr, acts, i - 1);
      StepKeeps(tr[i - 1], acts[i - 1], initialId);
    }
  }

  /** The global log of a later moment starts with that of an earlier one; so do the chains. */
  lemma {:induction false} RunGrows(initialId: string, tr: seq<State>, acts: seq<Action>, i: nat, j: nat)
    requires Run(initialId, tr, acts) && i <= j < |tr|
    ensures Grows(tr[i], tr[j])
    decreases j - i
  {
    RunInv(initialId, tr, acts, i);
    if i == j {
      OlderViewRefl(tr[i].meta.chain);
    } else {
      StepKeeps(tr[i], acts[i], initialId);
      RunGrows(initialId, tr, acts, i + 1, j);
      GrowsTransitive(tr[i], tr[i + 1], tr[j]);
    }
  }

  lemma RunCall(initialId: string, tr: seq<State>, acts: seq<Action>, i: nat, o: nat)
    requires Run(initialId, tr, acts) && i < |tr| && o in tr[i].calls
    ensures MetaOk(tr[i]) && tr[i].calls[o].replica in tr[i].replicas && CallOk(tr[i], o)
  {
    RunInv(initialId, tr, acts, i);
    CallFacts(tr[i], o);
  }

  lemma RunLog(initialId: string, tr: seq<State>, acts: seq<Action>, i: nat, j: nat, g: LogPos)
    requires Run(initialId, tr, acts) && i <= j < |tr| && 1 <= g <= |Log(tr[i])|
    ensures MetaOk(tr[j]) && g <= |Log(tr[j])| && Log(tr[j])[g - 1] == Log(tr[i])[g - 1]
  {
    RunInv(initialId, tr, acts, j);
    RunGrows(initialId, tr, acts, i, j);
  }

  /** In every reachable state the stored chain covers each position from 1 on exactly once, only its
      last segment is open, each closed one is a sealed loglet of its length, and ids are distinct. */
  lemma ChainPartition(initialId: string, tr: seq<State>, acts: seq<Action>, i: nat)
    requires Run(initialId, tr, acts) && i < |tr|
    ensures var c := tr[i].meta.chain;
            && Partition(c) && Closed(c, tr[i].reg) && Distinct(c)
            && tr[i].meta.version == |c| - 1
            && forall r :: r in tr[i].replicas ==> OlderView(tr[i].replicas[r].chain, c)
  {
    RunInv(initialId, tr, acts, i);
    forall r | r in tr[i].replicas ensures OlderView(tr[i].replicas[r].chain, tr[i].meta.chain) {
      assert ReplicaOk(tr[i], r);
    }
  }

  /** An entry acknowledged at g is the g-th entry of the log at every later moment, and the newest
      chain of that moment maps g to a loglet position that holds it. */
  lemma AckedForever(initialId: string, tr: seq<State>, acts: seq<Action>, i: nat, o: nat, j: nat) returns (s: Segment)
    requires Run(initialId, tr, acts) && i <= j < |tr|
    requires o in tr[i].calls && tr[i].calls[o].pc.Acked?
    ensures tr[i].calls[o].kind.Append?
    ensures var g := tr[i].calls[o].pc.g;
            var stamp := Stamp(o, tr[i].calls[o].kind.entry);
            && 1 <= g <= |Log(tr[j])| && Log(tr[j])[g - 1] == stamp
            && FindSegment(tr[j].meta.chain, g) == Some(s) && g >= s.start
            && Holds(LogletAt(tr[j].reg, s.id), ToLocal(s.start, g), stamp)
  {
    RunCall(initialId, tr, acts, i, o);
    var g := tr[i].calls[o].pc.g;
    RunLog(initialId, tr, acts, i, j, g);
    var c, reg := tr[j].meta.chain, tr[j].reg;
    var k := FindSegmentUnique(c, g);
    s := c[k];
    FlatInverse(c, reg, k, g);
  }

  /** The loglet of the segment that covers g holds the g-th entry of the log. */
  lemma FlatInverse(c: Segments, reg: Registry, k: nat, g: LogPos)
    requires Partition(c) && Closed(c, reg) && k < |c| && Covers(c[k], g) && 1 <= g <= |Flat(c, reg)|
    ensures Holds(LogletAt(reg, c[k].id), ToLocal(c[k].start, g), Flat(c, reg)[g - 1])
  {
    var l := LogletAt(reg, c[k].id);
    if k < |c| - 1 {
      assert Linked(c, k) && ClosedAt(c, reg, k);
    } else {
      FlatLength(c, reg);
    }
    FlatAt(c, reg, k, ToLocal(c[k].start, g), l.issued[g - c[k].start]);
  }

  /** Two acknowledged appends never get the same global position. */
  lemma AcksDistinct(initialId: string, tr: seq<State>, acts: seq<Action>, i: nat, o: nat, j: nat, p: nat)
    requires Run(initialId, tr, acts) && i <= j < |tr|
    requires o in tr[i].calls && tr[i].calls[o].pc.Acked?
    requires p in tr[j].calls && tr[j].calls[p].pc.Acked? && p != o
    ensures tr[i].calls[o].pc.g != tr[j].calls[p].pc.g
  {
    var _ := AckedForever(initialId, tr, acts, i, o, j);
    var _ := AckedForever(initialId, tr, acts, j, p, j);
  }

  /** Every entry of the log was appended by a call that has begun. */
  lemma {:induction false} StampsAreCalls(initialId: string, tr: seq<State>, acts: seq<Action>, i: nat, g: LogPos)
    requires Run(initialId, tr, acts) && i < |tr| && 1 <= g <= |Log(tr[i])|
    ensures Log(tr[i])[g - 1].op in tr[i].calls
  {
    if i == 0 {
      FreshLog(tr[0], initialId);
    } else {
      RunInv(initialId, tr, acts, i - 1);
      StepKeeps(tr[i - 1], acts[i - 1], initialId);
      StepAppends(tr[i - 1], acts[i - 1], initialId);
      if g <= |Log(tr[i - 1])| {
        StampsAreCalls(initialId, tr, acts, i - 1, g);
      }
    }
  }

  lemma FreshLog(st: State, initialId: string)
    requires Init(st, initialId)
    ensures Log(st) == []
  {
    assert NewChain(initialId)[..0] == [] && Flat(NewChain(initialId)[..0], map[]) == [];
  }

  /** Positions respect real time: an append that begins when the log has length n is acknowledged beyond
      n, so after every append that was acknowledged before it began, on whatever replicas. */
  lemma RealTimeOrder(initialId: string, tr: seq<State>, acts: seq<Action>, i: nat, o: nat, j: nat)
    requires Run(initialId, tr, acts) && i <= j < |tr|
    requires o !in tr[i].calls && o in tr[j].calls && tr[j].calls[o].pc.Acked?
    ensures tr[j].calls[o].pc.g > |Log(tr[i])|
    ensures forall p | p in tr[i].calls && tr[i].calls[p].pc.Acked? :: tr[i].calls[p].pc.g < tr[j].calls[o].pc.g
  {
    var g := tr[j].calls[o].pc.g;
    var _ := AckedForever(initialId, tr, acts, j, o, j);
    if g <= |Log(tr[i])| {
      RunLog(initialId, tr, acts, i, j, g);
      StampsAreCalls(initialId, tr, acts, i, g);
    }
    forall p | p in tr[i].calls && tr[i].calls[p].pc.Acked? ensures tr[i].calls[p].pc.g < g {
      var _ := AckedForever(initialId, tr, acts, i, p, i);
    }
  }

  /** Whatever replica answers a read, however old its view, an entry read at g is the g-th entry of
      the log then and ever after: all reads of g agree with each other and with the acknowledgement. */
  lemma StaleReadsSafe(initialId: string, tr: seq<State>, acts: seq<Action>, i: nat, o: nat, j: nat)
    requires Run(initialId, tr, acts) && i <= j < |tr|
    requires o in tr[i].calls && tr[i].calls[o].pc.ReadDone? && tr[i].calls[o].pc.answer.Found?
    ensures tr[i].calls[o].kind.Read?
    ensures var g := tr[i].calls[o].kind.g;
            1 <= g <= |Log(tr[j])| && Log(tr[j])[g - 1].entry == tr[i].calls[o].pc.answer.entry
  {
    RunCall(initialId, tr, acts, i, o);
    RunLog(initialId, tr, acts, i, j, tr[i].calls[o].kind.g);
  }

  /** A reported tail never lies beyond the log: every position below it is an entry of the log. */
  lemma TailsSafe(initialId: string, tr: seq<State>, acts: seq<Action>, i: nat, o: nat, j: nat)
    requires Run(initialId, tr, acts) && i <= j < |tr|
    requires o in tr[i].calls && tr[i].calls[o].pc.TailDone?
    ensures 1 <= tr[i].calls[o].pc.tail <= |Log(tr[j])| + 1
  {
    RunInv(initialId, tr, acts, i);
    RunGrows(initialId, tr, acts, i, j);
    CallFacts(tr[i], o);
  }

  // ---- What a replica's own calls have shown ----

  lemma NewCall(st: State, a: Action, o: nat)
    requires Enabled(st, a) && o !in st.calls && o in Next(st, a).calls
    ensures a.Begin? && a.o == o && Next(st, a).calls[o].replica in st.replicas
    ensures Next(st, a).calls[o].seen == |View(st, Next(st, a).calls[o].replica)| && Next(st, a).calls[o].knows == AckedNow(st)
  {
  }

  /** A call that has not begun at moment i begins at some later moment k, with what its replica's view
      shows and what is acknowledged then. */
  lemma {:induction false} BeganAt(initialId: string, tr: seq<State>, acts: seq<Action>, i: nat, j: nat, o: nat) returns (k: nat)
    requires Run(initialId, tr, acts) && i <= j < |tr| && o !in tr[i].calls && o in tr[j].calls
    ensures i <= k < j && tr[j].calls[o].replica in tr[k].replicas
    ensures tr[j].calls[o].seen == |View(tr[k], tr[j].calls[o].replica)| && tr[j].calls[o].knows == AckedNow(tr[k])
    decreases j
  {
    RunGrows(initialId, tr, acts, j - 1, j);
    if o in tr[j - 1].calls {
      k := BeganAt(initialId, tr, acts, i, j - 1, o);
    } else {
      NewCall(tr[j - 1], acts[j - 1], o);
      k := j - 1;
    }
  }

  /** A call of replica r knows every position that an append of r was given before it began, and its
      replica's view showed it. */
  lemma OwnAckShown(initialId: string, tr: seq<State>, acts: seq<Action>, i: nat, p: nat, j: nat, o: nat)
    requires Run(initialId, tr, acts) && i <= j < |tr| && p in tr[i].calls && tr[i].calls[p].pc.Acked?
    requires o !in tr[i].calls && o in tr[j].calls && tr[j].calls[o].replica == tr[i].calls[p].replica
    ensures 1 <= tr[i].calls[p].pc.g <= tr[j].calls[o].seen && tr[i].calls[p].pc.g in tr[j].calls[o].knows
  {
    var k := BeganAt(initialId, tr, acts, i, j, o);
    RunGrows(initialId, tr, acts, i, k);
    RunCall(initialId, tr, acts, k, p);
  }

  /** A tail that replica r reports, to a check begun after r acknowledged an append at g, lies beyond g. */
  lemma OwnTailCovers(initialId: string, tr: seq<State>, acts: seq<Action>, i: nat, p: nat, j: nat, o: nat)
    requires Run(initialId, tr, acts) && i <= j < |tr| && p in tr[i].calls && tr[i].calls[p].pc.Acked?
    requires o !in tr[i].calls && o in tr[j].calls && tr[j].calls[o].replica == tr[i].calls[p].replica
    requires tr[j].calls[o].pc.TailDone?
    ensures tr[i].calls[p].pc.g < tr[j].calls[o].pc.tail
  {
    OwnAckShown(initialId, tr, acts, i, p, j, o);
    RunCall(initialId, tr, acts, j, o);
  }

  /** A tail reported by a replica whose chain was current when the check began lies beyond the whole log
      of that moment. */
  lemma CurrentTailCovers(initialId: string, tr: seq<State>, acts: seq<Action>, i: nat, j: nat, o: nat)
    requires Run(initialId, tr, acts) && i < j < |tr| && o !in tr[i].calls && o in tr[i + 1].calls
    requires o in tr[j].calls && tr[j].calls[o].pc.TailDone?
    requires tr[j].calls[o].replica in tr[i].replicas && tr[i].replicas[tr[j].calls[o].replica].chain == tr[i].meta.chain
    ensures |Log(tr[i])| < tr[j].calls[o].pc.tail
  {
    var k := BeganAt(initialId, tr, acts, i, i + 1, o);
    RunGrows(initialId, tr, acts, i + 1, j);
    RunCall(initialId, tr, acts, j, o);
  }

  /** A read by replica r, begun after r acknowledged an append at g, never finds nothing at g. */
  lemma OwnReadFinds(initialId: string, tr: seq<State>, acts: seq<Action>, i: nat, p: nat, j: nat, o: nat)
    requires Run(initialId, tr, acts) && i <= j < |tr| && p in tr[i].calls && tr[i].calls[p].pc.Acked?
    requires o !in tr[i].calls && o in tr[j].calls && tr[j].calls[o].replica == tr[i].calls[p].replica
    requires tr[j].calls[o].kind == Read(tr[i].calls[p].pc.g) && tr[j].calls[o].pc.ReadDone?
    ensures tr[i].calls[p].kind.Append?
    ensures tr[j].calls[o].pc.answer == Found(tr[i].calls[p].kind.entry) || tr[j].calls[o].pc.answer.TrimmedAnswer?
  {
    OwnAckShown(initialId, tr, acts, i, p, j, o);
    RunCall(initialId, tr, acts, j, o);
    var _ := AckedForever(initialId, tr, acts, i, p, j);
  }

  // ---- The shared log as engines see it ----

  function Entries(log: seq<Stamp>): seq<Entry> {
    seq(|log|, i requires 0 <= i < |log| => log[i].entry)
  }

  /** What an engine relies on, for all calls on all replicas: the entries only grow, an append that begins
      at moment i is acknowledged beyond what was there and its entry is at its position, an entry that is
      read is the one at its position, and a tail lies at most one beyond the entries. */
  lemma SharedLogContract(initialId: string, tr: seq<State>, acts: seq<Action>, i: nat, j: nat)
    requires Run(initialId, tr, acts) && i <= j < |tr|
    ensures Entries(Log(tr[i])) <= Entries(Log(tr[j]))
    ensures forall o | o !in tr[i].calls && o in tr[j].calls && tr[j].calls[o].pc.Acked? :: AppendAnswered(Log(tr[i]), Log(tr[j]), tr[j].calls[o])
    ensures forall o | o in tr[j].calls :: ReadAnswered(Log(tr[j]), tr[j].calls[o]) && TailAnswered(Log(tr[j]), tr[j].calls[o])
  {
    RunGrows(initialId, tr, acts, i, j);
    forall o | o !in tr[i].calls && o in tr[j].calls && tr[j].calls[o].pc.Acked?
      ensures AppendAnswered(Log(tr[i]), Log(tr[j]), tr[j].calls[o])
    {
      RealTimeOrder(initialId, tr, acts, i, o, j);
      var _ := AckedForever(initialId, tr, acts, j, o, j);
    }
    forall o | o in tr[j].calls ensures ReadAnswered(Log(tr[j]), tr[j].calls[o]) && TailAnswered(Log(tr[j]), tr[j].calls[o]) {
      RunCall(initialId, tr, acts, j, o);
    }
  }

  ghost predicate AppendAnswered(before: seq<Stamp>, log: seq<Stamp>, call: Call)
    requires call.pc.Acked?
  {
    call.kind.Append? && |Entries(before)| < call.pc.g <= |Entries(log)| && Entries(log)[call.pc.g - 1] == call.kind.entry
  }

  ghost predicate ReadAnswered(log: seq<Stamp>, call: Call) {
    call.pc.ReadDone? && call.pc.answer.Found? ==>
      call.kind.Read? && 1 <= call.kind.g <= |Entries(log)| && call.pc.answer.entry == Entries(log)[call.kind.g - 1]
  }

  ghost predicate TailAnswered(log: seq<Stamp>, call: Call) {
    call.pc.TailDone? ==> 1 <= call.pc.tail <= |Entries(log)| + 1
  }

  // ---- Progress of a retrying append ----

  ghost predicate InReconf(pc: Pc) {
    pc.NeedReconf? || Reconfiguring(pc) || pc.Dead?
  }

  ghost function VersionOf(st: State, o: nat): nat
    requires o in st.calls && st.calls[o].replica in st.replicas
  {
    st.replicas[st.calls[o].replica].version
  }

  /** Whenever an append comes back from a reconfiguration, won or lost, its replica's chain version
      has strictly risen since the append found its loglet sealed. */
  lemma {:induction false} RetryRaisesVersion(initialId: string, tr: seq<State>, acts: seq<Action>, i: nat, o: nat, j: nat)
    requires Run(initialId, tr, acts) && i <= j < |tr|
    requires o in tr[i].calls && tr[i].calls[o].pc.NeedReconf?
    ensures o in tr[i].calls && tr[i].calls[o].replica in tr[i].replicas
    ensures o in tr[j].calls && tr[j].calls[o].replica in tr[j].replicas
    ensures VersionOf(tr[j], o) >= VersionOf(tr[i], o)
    ensures InReconf(tr[j].calls[o].pc) || VersionOf(tr[j], o) > VersionOf(tr[i], o)
    decreases j
  {
    RunCall(initialId, tr, acts, i, o);
    if i < j {
      RetryRaisesVersion(initialId, tr, acts, i, o, j - 1);
      RunStep(initialId, tr, acts, j - 1, o);
      RunCall(initialId, tr, acts, j - 1, o);
      if InReconf(tr[j - 1].calls[o].pc) {
        LeavingReconf(tr[j - 1], acts[j - 1], o);
      }
    }
  }

  lemma RunStep(initialId: string, tr: seq<State>, acts: seq<Action>, i: nat, o: nat)
    requires Run(initialId, tr, acts) && i < |acts| && o in tr[i].calls && tr[i].calls[o].replica in tr[i].replicas
    ensures o in tr[i + 1].calls && tr[i + 1].calls[o].replica in tr[i + 1].replicas
    ensures VersionOf(tr[i + 1], o) >= VersionOf(tr[i], o)
  {
    RunInv(initialId, tr, acts, i);
    StepKeeps(tr[i], acts[i], initialId);
  }

  lemma LeavingReconf(st: State, a: Action, o: nat)
    requires Enabled(st, a) && o in st.calls && st.calls[o].replica in st.replicas
    requires InReconf(st.calls[o].pc) && CallOk(st, o)
    requires o in Next(st, a).calls && Next(st, a).calls[o].replica in Next(st, a).replicas
    ensures InReconf(Next(st, a).calls[o].pc) || VersionOf(Next(st, a), o) > VersionOf(st, o)
  {
  }
}
