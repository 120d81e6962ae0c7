/** Every step of the reconfiguration protocol keeps its invariant and only lengthens the global log. */
module ReconfigSafety {
  import opened RelosCore
  import opened LogletSpec
  import opened Chain
  import opened FlatLog
  import opened Reconfig

  // ---- Loglets and chains grow ----

  /** Loglets keep what was issued, and sealed ones keep exactly that. */
  ghost predicate RegGrows(reg: Registry, reg': Registry) {
    forall id :: id in reg ==>
      && id in reg'
      && reg[id].issued <= reg'[id].issued
      && (reg[id].sealed ==> reg'[id] == reg[id])
  }

  /** A replica's version rises and its chain only gets newer. */
  ghost predicate ReplicaGrows(st: State, st': State, r: nat)
    requires r in st.replicas
  {
    && r in st'.replicas && st.replicas[r].version <= st'.replicas[r].version
    && (st'.replicas[r].chain == st.replicas[r].chain || OlderView(st.replicas[r].chain, st'.replicas[r].chain))
  }

  /** Only where the call is has changed. */
  ghost predicate SameCall(a: Call, b: Call) {
    a.kind == b.kind && a.seen == b.seen && a.knows == b.knows
  }

  ghost predicate Grows(st: State, st': State) {
    && OlderView(st.meta.chain, st'.meta.chain)
    && st.meta.version <= st'.meta.version
    && RegGrows(st.reg, st'.reg)
    && Log(st) <= Log(st')
    && (forall r :: r in st.replicas ==> ReplicaGrows(st, st', r))
    && (forall o :: o in st.calls ==>
          && o in st'.calls && SameCall(st'.calls[o], st.calls[o]) && st'.calls[o].replica == st.calls[o].replica
          && (Done(st.calls[o].pc) ==> st'.calls[o] == st.calls[o]))
  }

  lemma GrowsTransitive(s0: State, s1: State, s2: State)
    requires Grows(s0, s1) && Grows(s1, s2)
    ensures Grows(s0, s2)
  {
    forall r | r in s0.replicas ensures ReplicaGrows(s0, s2, r) {
      assert ReplicaGrows(s0, s1, r) && ReplicaGrows(s1, s2, r);
    }
  }

  lemma OlderViewRefl(c: Segments)
    requires Partition(c)
    ensures OlderView(c, c)
  {
  }

  lemma KeepInChain(c: Segments, c': Segments, id: string, start: LogPos)
    requires OlderView(c, c') && InChain(c, id, start)
    ensures InChain(c', id, start)
  {
  }

  lemma IdsOfOlder(c: Segments, c': Segments)
    requires OlderView(c, c')
    ensures Ids(c) <= Ids(c')
  {
  }

  lemma LastInChain(c: Segments, d: Segments)
    requires OlderView(c, d)
    ensures InChain(d, c[|c| - 1].id, c[|c| - 1].start)
  {
  }

  // ---- A replica's view ----

  /** An older view is a partition of closed loglets too. */
  lemma OlderClosed(c: Segments, d: Segments, reg: Registry)
    requires OlderView(c, d) && Partition(d) && Closed(d, reg)
    ensures Partition(c) && Closed(c, reg)
  {
    OlderViewPartition(c, d);
    forall i | 0 <= i < |c| - 1 ensures ClosedAt(c, reg, i) {
      assert ClosedAt(d, reg, i);
    }
  }

  lemma {:induction false} FlatLonger(c: Segments, d: Segments, reg: Registry, reg': Registry)
    requires |c| == |d| && RegGrows(reg, reg') && forall i :: 0 <= i < |c| ==> c[i].id == d[i].id
    ensures |Flat(c, reg)| <= |Flat(d, reg')|
  {
    if c != [] { FlatLonger(c[..|c| - 1], d[..|c| - 1], reg, reg'); }
  }

  /** A newer chain over grown loglets shows at least as much. */
  lemma ShowsMore(c: Segments, d: Segments, reg: Registry, reg': Registry)
    requires (d == c || OlderView(c, d)) && RegGrows(reg, reg')
    ensures |Flat(c, reg)| <= |Flat(d, reg')|
  {
    if d == c {
      FlatLonger(c, c, reg, reg');
    } else {
      FlatLonger(c, d[..|c|], reg, reg');
      FlatPrefix(d, reg', |c|);
    }
  }

  lemma ViewGrows(st: State, st': State, r: nat)
    requires Grows(st, st') && r in st.replicas
    ensures r in st'.replicas && |View(st, r)| <= |View(st', r)|
  {
    assert ReplicaGrows(st, st', r);
    ShowsMore(st.replicas[r].chain, st'.replicas[r].chain, st.reg, st'.reg);
  }

  // ---- What a call relied on still holds ----

  lemma KeepReconfCall(st: State, st': State, o: nat)
    requires Grows(st, st') && o in st.calls && st.calls[o].replica in st.replicas && CallOk(st, o)
    requires st'.calls[o] == st.calls[o] && Reconfiguring(st.calls[o].pc)
    requires st'.replicas[st.calls[o].replica] == st.replicas[st.calls[o].replica]
    ensures CallOk(st', o)
  {
    var c, c' := st.meta.chain, st'.meta.chain;
    match st.calls[o].pc
    case RWon(d, v) => OlderViewTransitive(d, c, c');
    case RCreated(d, v) => OlderViewTransitive(d, c, c');
    case SyncRead(d, v, k) => OlderViewTransitive(d, c, c');
    case _ =>
  }

  lemma KeepPlainCall(st: State, st': State, o: nat)
    requires Grows(st, st') && o in st.calls && st.calls[o].replica in st.replicas && CallOk(st, o)
    requires st'.calls[o] == st.calls[o] && !Reconfiguring(st.calls[o].pc)
    ensures CallOk(st', o)
  {
    var c, c' := st.meta.chain, st'.meta.chain;
    var r := st.calls[o].replica;
    match st.calls[o].pc
    case Picked(id, start) => KeepInView(st, st', r, id, start);
    case Issued(id, start, local) => KeepInView(st, st', r, id, start);
    case Acked(_) => ViewGrows(st, st', r);
    case TailPicked(id, start) => KeepInChain(c, c', id, start);
    case Finding(id, local) =>
      var start :| InChain(c, id, start) && st.calls[o].kind.g == ToGlobal(start, local);
      KeepInChain(c, c', id, start);
    case _ =>
  }

  lemma KeepCall(st: State, st': State, o: nat)
    requires Grows(st, st') && o in st.calls && st.calls[o].replica in st.replicas && CallOk(st, o)
    requires st'.calls[o] == st.calls[o]
    requires Reconfiguring(st.calls[o].pc) ==> st'.replicas[st.calls[o].replica] == st.replicas[st.calls[o].replica]
    ensures st.calls[o].replica in st'.replicas && CallOk(st', o)
  {
    assert ReplicaGrows(st, st', st.calls[o].replica);
    if Reconfiguring(st.calls[o].pc) {
      KeepReconfCall(st, st', o);
    } else {
      KeepPlainCall(st, st', o);
    }
  }

  lemma KeepInView(st: State, st': State, r: nat, id: string, start: LogPos)
    requires r in st.replicas && ReplicaGrows(st, st', r) && InChain(st.replicas[r].chain, id, start)
    ensures InChain(st'.replicas[r].chain, id, start)
  {
    if st'.replicas[r].chain != st.replicas[r].chain {
      KeepInChain(st.replicas[r].chain, st'.replicas[r].chain, id, start);
    }
  }

  lemma KeepReplica(st: State, st': State, r: nat)
    requires Grows(st, st') && r in st.replicas && ReplicaOk(st, r) && st'.replicas[r] == st.replicas[r]
    ensures ReplicaOk(st', r)
  {
  }

  /** Only call o, and its replica if it is reconfiguring, may have changed. */
  ghost predicate Only(st: State, st': State, o: nat) {
    && o in st'.calls
    && st'.calls.Keys == st.calls.Keys + {o}
    && st.replicas.Keys == st'.replicas.Keys
    && st'.calls[o].replica in st.replicas
    && (o in st.calls ==> st'.calls[o].replica == st.calls[o].replica)
    && (forall p :: p in st.calls && p != o ==> st'.calls[p] == st.calls[p])
    && (forall r :: r in st.replicas && st'.replicas[r] != st.replicas[r] ==>
          o in st.calls && r == st.calls[o].replica && Reconfiguring(st.calls[o].pc))
  }

  lemma KeepCalls(st: State, st': State, o: nat)
    requires Grows(st, st') && Only(st, st', o) && CallsOk(st) && OneReconf(st) && CallOk(st', o)
    ensures CallsOk(st')
  {
    forall p | p in st'.calls ensures st'.calls[p].replica in st'.replicas && CallOk(st', p) {
      if p != o {
        assert CallOk(st, p);
        if Reconfiguring(st.calls[p].pc) {
          assert Alone(st, p);
          assert st'.replicas[st.calls[p].replica] == st.replicas[st.calls[p].replica];
        }
        KeepCall(st, st', p);
      }
    }
  }

  lemma KeepAlone(st: State, st': State, o: nat)
    requires Only(st, st', o) && OneReconf(st)
    requires Reconfiguring(st'.calls[o].pc) ==> Alone(st', o)
    ensures OneReconf(st')
  {
  }

  lemma KeepReplicas(st: State, st': State, o: nat)
    requires Grows(st, st') && Only(st, st', o) && ReplicasOk(st) && ReplicaOk(st', st'.calls[o].replica)
    ensures ReplicasOk(st')
  {
    forall r | r in st'.replicas ensures ReplicaOk(st', r) {
      if r != st'.calls[o].replica { KeepReplica(st, st', r); }
    }
  }

  lemma Assemble(st: State, st': State, o: nat)
    requires LocalOk(st) && Grows(st, st') && Only(st, st', o)
    requires ReplicaOk(st', st'.calls[o].replica) && CallOk(st', o)
    requires Reconfiguring(st'.calls[o].pc) ==> Alone(st', o)
    ensures LocalOk(st')
  {
    KeepCalls(st, st', o);
    KeepAlone(st, st', o);
    KeepReplicas(st, st', o);
  }

  // ---- Steps that change only the call itself ----

  lemma SameWorldGrows(st: State, st': State, o: nat)
    requires MetaOk(st) && Only(st, st', o) && st'.meta == st.meta && st'.reg == st.reg
    requires o in st.calls ==> SameCall(st'.calls[o], st.calls[o]) && !Done(st.calls[o].pc)
    requires forall r :: r in st.replicas ==> ReplicaGrows(st, st', r)
    ensures Grows(st, st') && MetaOk(st')
  {
  }

  lemma BeginKeeps(st: State, o: nat, r: nat, kind: Kind)
    requires Core(st) && Enabled(st, Begin(o, r, kind))
    ensures Core(Next(st, Begin(o, r, kind))) && Grows(st, Next(st, Begin(o, r, kind)))
  {
    var st' := Next(st, Begin(o, r, kind));
    assert ReplicaOk(st, r);
    BeginGood(st, st', o, r, kind);
    Finish(st, st', o);
  }

  lemma BeginGood(st: State, st': State, o: nat, r: nat, kind: Kind)
    requires MetaOk(st) && o !in st.calls && r in st.replicas && ReplicaOk(st, r)
    requires st' == st.(calls := st.calls[o := Call(r, kind, BeginPc(st.replicas[r], kind), |View(st, r)|, AckedNow(st))])
    ensures GoodStep(st, st', o) && !Reconfiguring(st'.calls[o].pc)
  {
    SameWorldGrows(st, st', o);
    KeepReplica(st, st', r);
    BeginOk(st, st', o, r, kind);
  }

  lemma BeginOk(st: State, st': State, o: nat, r: nat, kind: Kind)
    requires r in st.replicas && ReplicaOk(st, r) && Partition(st.meta.chain) && Closed(st.meta.chain, st.reg)
    requires st' == st.(calls := st.calls[o := Call(r, kind, BeginPc(st.replicas[r], kind), |View(st, r)|, AckedNow(st))])
    ensures CallOk(st', o)
  {
    var c, d := st.replicas[r].chain, st.meta.chain;
    OlderClosed(c, d, st.reg);
    match kind
    case Append(_) =>
    case Read(g) =>
      FindInNewest(c, d, g);
      FoundCovers(c, g);
      var s := FindSegment(c, g);
      assert s.Some? ==> g == ToGlobal(s.value.start, ToLocal(s.value.start, g));
      if 1 <= g <= |View(st, r)| { ShownIsHeld(c, st.reg, g); }
    case CheckTail =>
      LastInChain(c, d);
      FlatLength(c, st.reg);
  }

  /** What the view shows at g is held where find_segment leads. */
  lemma ShownIsHeld(c: Segments, reg: Registry, g: LogPos)
    requires Partition(c) && Closed(c, reg) && 1 <= g <= |Flat(c, reg)|
    ensures var s := FindSegment(c, g);
            s.Some? && g >= s.value.start && HasAt(LogletAt(reg, s.value.id), ToLocal(s.value.start, g))
  {
    var k := FindSegmentUnique(c, g);
    if k < |c| - 1 {
      assert Linked(c, k) && ClosedAt(c, reg, k);
    } else {
      FlatLength(c, reg);
    }
  }

  /** What an older view finds is a segment of the newest chain. */
  lemma FindInNewest(c: Segments, d: Segments, g: LogPos)
    requires OlderView(c, d) && Partition(d)
    ensures var s := FindSegment(c, g); s.Some? ==> InChain(d, s.value.id, s.value.start)
  {
    OlderViewPartition(c, d);
    if g >= 1 {
      var k := FindSegmentUnique(c, g);
      assert d[k].id == c[k].id && d[k].start == c[k].start;
    } else {
      NothingAtZero(c);
    }
  }

  // ---- Registry changes ----

  lemma UnsealedIsLast(st: State, id: string)
    requires MetaOk(st) && id in st.reg && !st.reg[id].sealed
    ensures id == st.meta.chain[|st.meta.chain| - 1].id
  {
    var c := st.meta.chain;
    var k :| 0 <= k < |c| && c[k].id == id;
    assert k < |c| - 1 ==> ClosedAt(c, st.reg, k);
  }

  /** Changing the loglet of the open segment appends to the global log what it appends to the loglet. */
  lemma LastLogletChanges(st: State, l: Loglet)
    requires MetaOk(st)
    requires var id := st.meta.chain[|st.meta.chain| - 1].id; id in st.reg && st.reg[id].issued <= l.issued
    ensures var id := st.meta.chain[|st.meta.chain| - 1].id;
            var st' := st.(reg := st.reg[id := l]);
            && MetaOk(st')
            && Log(st') == Log(st) + l.issued[|st.reg[id].issued|..]
  {
    LastLogletGrows(st.meta.chain, st.reg, l);
  }

  lemma LogletChanges(st: State, id: string, l: Loglet)
    requires MetaOk(st) && id in st.reg && Step(st.reg[id], l)
    ensures var st' := st.(reg := st.reg[id := l]);
            && MetaOk(st') && RegGrows(st.reg, st'.reg) && Log(st) <= Log(st')
            && (l.issued == st.reg[id].issued ==> Log(st') == Log(st))
            && (l.issued != st.reg[id].issued ==> Log(st') == Log(st) + [l.issued[|st.reg[id].issued|]])
  {
    if st.reg[id].sealed {
      assert st.reg[id := l] == st.reg;
    } else {
      UnsealedIsLast(st, id);
      LastLogletChanges(st, l);
    }
  }

  lemma CreateHarmless(st: State, ids: set<string>)
    requires MetaOk(st) && ids <= Ids(st.meta.chain)
    ensures var st' := st.(reg := Create(st.reg, ids));
            MetaOk(st') && RegGrows(st.reg, st'.reg) && Log(st') == Log(st) && ids <= st'.reg.Keys
  {
    var reg' := Create(st.reg, ids);
    var c := st.meta.chain;
    assert forall id :: LogletAt(reg', id) == LogletAt(st.reg, id);
    forall i | 0 <= i < |c| - 1 ensures ClosedAt(c, reg', i) {
      assert ClosedAt(c, st.reg, i);
    }
    FlatCongruent(c, st.reg, c, reg');
  }

  // ---- The steps of append and reconfigure ----

  lemma WorldGrows(st: State, st': State, o: nat)
    requires Only(st, st', o) && o in st.calls && SameCall(st'.calls[o], st.calls[o]) && !Done(st.calls[o].pc)
    requires OlderView(st.meta.chain, st'.meta.chain) && st.meta.version <= st'.meta.version
    requires RegGrows(st.reg, st'.reg) && Log(st) <= Log(st')
    requires forall r :: r in st.replicas ==> ReplicaGrows(st, st', r)
    ensures Grows(st, st')
  {
  }

  /** What a step must establish besides the invariant of the calls it does not touch. */
  ghost predicate GoodStep(st: State, st': State, o: nat) {
    && Grows(st, st') && Only(st, st', o) && MetaOk(st')
    && ReplicaOk(st', st'.calls[o].replica) && CallOk(st', o)
  }

  lemma SameStep(st: State, a: State, b: State, o: nat)
    requires a == b && GoodStep(st, a, o) && Log(a) == Log(st)
    ensures GoodStep(st, b, o) && Log(b) == Log(st)
  {
  }

  lemma Finish(st: State, st': State, o: nat)
    requires Core(st) && GoodStep(st, st', o)
    requires Reconfiguring(st'.calls[o].pc) ==> Alone(st', o)
    ensures Core(st')
  {
    Assemble(st, st', o);
  }

  /** A call moves on and nothing else changes. */
  lemma MoveGood(st: State, o: nat, pc: Pc)
    requires MetaOk(st) && o in st.calls && !Done(st.calls[o].pc)
    requires st.calls[o].replica in st.replicas && ReplicaOk(st, st.calls[o].replica) && CallOk(Move(st, o, pc), o)
    ensures GoodStep(st, Move(st, o, pc), o)
  {
  }

  lemma MoveKeeps(st: State, o: nat, pc: Pc)
    requires Core(st) && o in st.calls && !Done(st.calls[o].pc)
    requires CallOk(Move(st, o, pc), o)
    requires Reconfiguring(pc) ==> Alone(st, o)
    ensures Core(Move(st, o, pc)) && Grows(st, Move(st, o, pc))
  {
    assert ReplicaOk(st, st.calls[o].replica);
    MoveGood(st, o, pc);
    Finish(st, Move(st, o, pc), o);
  }

  lemma CreateWorld(st: State, o: nat, id: string, pc: Pc)
    requires MetaOk(st) && o in st.calls && st.calls[o].replica in st.replicas && Reconfiguring(st.calls[o].pc)
    requires id in Ids(st.meta.chain)
    ensures var st' := DoCreate(st, o, id, pc);
            && Grows(st, st') && Only(st, st', o) && MetaOk(st') && Log(st') == Log(st) && id in st'.reg
  {
    var st' := DoCreate(st, o, id, pc);
    CreateHarmless(st, {id});
    var w := st.(reg := st'.reg);
    assert MetaOk(w) && Log(w) == Log(st') && MetaOk(st');
    OlderViewRefl(st.meta.chain);
    WorldGrows(st, st', o);
  }

  lemma CreateReplicaOk(st: State, o: nat, id: string, pc: Pc)
    requires o in st.calls && st.calls[o].replica in st.replicas && ReplicaOk(st, st.calls[o].replica)
    ensures ReplicaOk(DoCreate(st, o, id, pc), st.calls[o].replica)
  {
  }

  lemma CreatedCallOk(st: State, o: nat, d: Segments, v: nat)
    requires o in st.calls && st.calls[o].replica in st.replicas && st.calls[o].kind.Append?
    requires OlderView(d, st.meta.chain) && st.replicas[st.calls[o].replica].version == v && |d| == v + 2
    requires Ids(d) <= st.replicas[st.calls[o].replica].known + {d[|d| - 1].id} && OlderView(st.replicas[st.calls[o].replica].chain, d)
    ensures CallOk(DoCreate(st, o, d[|d| - 1].id, RCreated(d, v)), o)
  {
  }

  lemma SyncedCallOk(st: State, o: nat, d: Segments, v: nat, k: nat)
    requires o in st.calls && st.calls[o].replica in st.replicas && st.calls[o].kind.Append?
    requires OlderView(d, st.meta.chain) && st.replicas[st.calls[o].replica].version < v && |d| == v + 1
    requires k < |d| && MadeUpTo(d, k, st.replicas[st.calls[o].replica].known) && OlderView(st.replicas[st.calls[o].replica].chain, d)
    ensures CallOk(DoCreate(st, o, d[k].id, SyncRead(d, v, k + 1)), o)
  {
  }

  lemma CreateGood(st: State, o: nat, d: Segments, k: nat, pc: Pc)
    requires MetaOk(st) && o in st.calls && st.calls[o].replica in st.replicas && Reconfiguring(st.calls[o].pc)
    requires OlderView(d, st.meta.chain) && k < |d| && ReplicaOk(st, st.calls[o].replica)
    requires CallOk(DoCreate(st, o, d[k].id, pc), o)
    ensures var st' := DoCreate(st, o, d[k].id, pc); GoodStep(st, st', o) && Log(st') == Log(st)
  {
    IdsOfOlder(d, st.meta.chain);
    assert d[k].id in Ids(d);
    CreateWorld(st, o, d[k].id, pc);
    CreateReplicaOk(st, o, d[k].id, pc);
  }

  lemma GoCreates(st: State, o: nat, d: Segments, v: nat, k: nat)
    requires Enabled(st, Go(o)) && k < |d|
    requires st.calls[o].pc == SyncRead(d, v, k) || (st.calls[o].pc == RWon(d, v) && k == |d| - 1)
    ensures DoGo(st, o) == DoCreate(st, o, d[k].id, if st.calls[o].pc.RWon? then RCreated(d, v) else SyncRead(d, v, k + 1))
  {
  }

  lemma RWonOk(st: State, o: nat, d: Segments, v: nat)
    requires MetaOk(st) && Enabled(st, Go(o)) && st.calls[o].pc == RWon(d, v)
    requires CallOk(st, o) && ReplicaOk(st, st.calls[o].replica)
    ensures GoodStep(st, DoGo(st, o), o) && Log(DoGo(st, o)) == Log(st)
  {
    var k := |d| - 1;
    CreatedCallOk(st, o, d, v);
    CreateGood(st, o, d, k, RCreated(d, v));
    GoCreates(st, o, d, v, k);
    SameStep(st, DoCreate(st, o, d[k].id, RCreated(d, v)), DoGo(st, o), o);
  }

  lemma SyncMakeOk(st: State, o: nat, d: Segments, v: nat, k: nat)
    requires MetaOk(st) && Enabled(st, Go(o)) && st.calls[o].pc == SyncRead(d, v, k) && k < |d|
    requires CallOk(st, o) && ReplicaOk(st, st.calls[o].replica)
    ensures GoodStep(st, DoGo(st, o), o) && Log(DoGo(st, o)) == Log(st)
  {
    SyncedCallOk(st, o, d, v, k);
    CreateGood(st, o, d, k, SyncRead(d, v, k + 1));
    GoCreates(st, o, d, v, k);
    SameStep(st, DoCreate(st, o, d[k].id, SyncRead(d, v, k + 1)), DoGo(st, o), o);
  }

  /** The call's replica takes a newer view. */
  lemma SetReplicaOk(st: State, o: nat, rep: Replica, pc: Pc)
    requires MetaOk(st) && o in st.calls && st.calls[o].replica in st.replicas && Reconfiguring(st.calls[o].pc)
    requires st.replicas[st.calls[o].replica].version <= rep.version
    requires rep.chain == st.replicas[st.calls[o].replica].chain || OlderView(st.replicas[st.calls[o].replica].chain, rep.chain)
    requires var st' := Move(SetReplica(st, st.calls[o].replica, rep), o, pc);
             ReplicaOk(st', st.calls[o].replica) && CallOk(st', o)
    ensures var st' := Move(SetReplica(st, st.calls[o].replica, rep), o, pc);
            GoodStep(st, st', o) && Log(st') == Log(st)
  {
    SameWorldGrows(st, Move(SetReplica(st, st.calls[o].replica, rep), o, pc), o);
  }

  lemma NewChainOk(st: State, o: nat, d: Segments, v: nat)
    requires MetaOk(st) && o in st.calls && st.calls[o].replica in st.replicas && Reconfiguring(st.calls[o].pc)
    requires ReplicaOk(st, st.calls[o].replica) && st.calls[o].kind.Append?
    requires OlderView(d, st.meta.chain) && st.replicas[st.calls[o].replica].version < v && |d| == v + 1
    requires Ids(d) <= st.replicas[st.calls[o].replica].known && OlderView(st.replicas[st.calls[o].replica].chain, d)
    ensures var r := st.calls[o].replica;
            var st' := Move(SetReplica(st, r, st.replicas[r].(chain := d)), o, ChainSet(v));
            GoodStep(st, st', o) && Log(st') == Log(st)
  {
    SetReplicaOk(st, o, st.replicas[st.calls[o].replica].(chain := d), ChainSet(v));
  }

  lemma GoSetsChain(st: State, o: nat, d: Segments, v: nat)
    requires Enabled(st, Go(o)) && (st.calls[o].pc == SyncRead(d, v, |d|) || (v > 0 && st.calls[o].pc == RCreated(d, v - 1)))
    ensures var r := st.calls[o].replica;
            DoGo(st, o) == Move(SetReplica(st, r, st.replicas[r].(chain := d)), o, ChainSet(v))
  {
  }

  lemma SetChainOk(st: State, o: nat, d: Segments, v: nat)
    requires MetaOk(st) && Enabled(st, Go(o)) && (st.calls[o].pc == SyncRead(d, v, |d|) || (v > 0 && st.calls[o].pc == RCreated(d, v - 1)))
    requires CallOk(st, o) && ReplicaOk(st, st.calls[o].replica)
    ensures GoodStep(st, DoGo(st, o), o) && Log(DoGo(st, o)) == Log(st)
  {
    var r := st.calls[o].replica;
    GoSetsChain(st, o, d, v);
    NewChainOk(st, o, d, v);
    SameStep(st, Move(SetReplica(st, r, st.replicas[r].(chain := d)), o, ChainSet(v)), DoGo(st, o), o);
  }

  lemma SetVersionOk(st: State, o: nat)
    requires MetaOk(st) && Enabled(st, Go(o)) && st.calls[o].pc.ChainSet?
    requires CallOk(st, o) && ReplicaOk(st, st.calls[o].replica)
    ensures GoodStep(st, DoGo(st, o), o) && Log(DoGo(st, o)) == Log(st)
  {
    SetReplicaOk(st, o, st.replicas[st.calls[o].replica].(version := st.calls[o].pc.version), Looping);
  }

  /** A chain that the compare-and-swap accepts was built from the stored chain itself. */
  lemma CasFresh(st: State, o: nat)
    requires MetaOk(st) && Enabled(st, Go(o)) && st.calls[o].pc.RBuilt? && st.calls[o].pc.version == st.meta.version
    requires CallOk(st, o) && ReplicaOk(st, st.calls[o].replica)
    ensures st.replicas[st.calls[o].replica].chain == st.meta.chain
  {
  }

  /** Extending the stored chain where its sealed last loglet ends changes nothing in the log. */
  lemma ExtendHarmless(st: State, p: LogPos, id: string)
    requires MetaOk(st) && SealedAt(st.meta.chain, st.reg, p) && id !in Ids(st.meta.chain)
    ensures var st' := st.(meta := Meta(Extend(st.meta.chain, p, id), st.meta.version + 1));
            MetaOk(st') && OlderView(st.meta.chain, st'.meta.chain) && Log(st') == Log(st)
  {
    var c := st.meta.chain;
    assert forall i :: 0 <= i < |c| ==> c[i].id in Ids(c);
    ExtendFlat(c, st.reg, p, id);
    IdsOfOlder(c, Extend(c, p, id));
  }

  lemma CasWorld(st: State, o: nat)
    requires MetaOk(st) && Enabled(st, Go(o)) && st.calls[o].pc.RBuilt? && st.calls[o].pc.version == st.meta.version
    requires CallOk(st, o) && st.replicas[st.calls[o].replica].chain == st.meta.chain
    requires LogletId(|st.meta.chain|) !in Ids(st.meta.chain)
    ensures var st' := DoGo(st, o);
            Grows(st, st') && Only(st, st', o) && MetaOk(st') && Log(st') == Log(st)
  {
    var st' := DoGo(st, o);
    var d, c := st.calls[o].pc.chain, st.meta.chain;
    ExtendHarmless(st, d[|c|].start, LogletId(|c|));
    var w := st.(meta := st'.meta);
    assert MetaOk(w) && Log(w) == Log(st') && MetaOk(st');
    WorldGrows(st, st', o);
  }

  lemma CasCall(st: State, o: nat)
    requires Enabled(st, Go(o)) && st.calls[o].pc.RBuilt? && st.calls[o].pc.version == st.meta.version
    requires Partition(st.meta.chain) && Partition(st.calls[o].pc.chain) && st.meta.version == |st.meta.chain| - 1
    requires CallOk(st, o) && st.replicas[st.calls[o].replica].chain == st.meta.chain
    requires Ids(st.meta.chain) <= st.replicas[st.calls[o].replica].known
    ensures CallOk(DoGo(st, o), o)
  {
  }

  lemma CasOk(st: State, o: nat)
    requires MetaOk(st) && Enabled(st, Go(o)) && st.calls[o].pc.RBuilt? && st.calls[o].pc.version == st.meta.version
    requires CallOk(st, o) && ReplicaOk(st, st.calls[o].replica)
    requires LogletId(|st.meta.chain|) !in Ids(st.meta.chain)
    ensures GoodStep(st, DoGo(st, o), o) && Log(DoGo(st, o)) == Log(st)
  {
    CasFresh(st, o);
    CasWorld(st, o);
    KeepReplica(st, DoGo(st, o), st.calls[o].replica);
    CasCall(st, o);
  }

  lemma CallFacts(st: State, o: nat)
    requires Core(st) && o in st.calls
    ensures MetaOk(st) && st.calls[o].replica in st.replicas && CallOk(st, o) && ReplicaOk(st, st.calls[o].replica)
  {
  }

  lemma SealOk(st: State, o: nat)
    requires MetaOk(st) && Enabled(st, Go(o)) && st.calls[o].pc.RPicked?
    requires CallOk(st, o) && ReplicaOk(st, st.calls[o].replica)
    ensures GoodStep(st, DoGo(st, o), o) && Log(DoGo(st, o)) == Log(st)
  {
    var st' := DoGo(st, o);
    var id := st.calls[o].pc.id;
    LogletChanges(st, id, Seal(st.reg[id]));
    var w := st.(reg := st'.reg);
    assert MetaOk(w) && Log(w) == Log(st') && MetaOk(st');
    OlderViewRefl(st.meta.chain);
    WorldGrows(st, st', o);
    KeepReplica(st, st', st.calls[o].replica);
  }

  lemma IssueOk(st: State, o: nat)
    requires MetaOk(st) && Enabled(st, Go(o)) && st.calls[o].pc.Picked?
    requires CallOk(st, o) && ReplicaOk(st, st.calls[o].replica)
    ensures GoodStep(st, DoGo(st, o), o) && Log(DoGo(st, o)) == Log(st) + [Stamp(o, st.calls[o].kind.entry)]
  {
    var st' := DoGo(st, o);
    var id := st.calls[o].pc.id;
    LogletChanges(st, id, Issue(st.reg[id], Stamp(o, st.calls[o].kind.entry)));
    var w := st.(reg := st'.reg);
    assert MetaOk(w) && Log(w) == Log(st') && MetaOk(st');
    OlderViewRefl(st.meta.chain);
    WorldGrows(st, st', o);
    KeepReplica(st, st', st.calls[o].replica);
  }

  /** Steps that only move the call on. */
  ghost predicate JustMoves(st: State, o: nat)
    requires o in st.calls
  {
    var pc := st.calls[o].pc;
    || pc.Looping? || pc.Issued? || pc.NeedReconf? || pc.RSealed? || pc.RVersion? || pc.RLost? || pc.TailPicked?
    || (pc.RBuilt? && pc.version != st.meta.version)
  }

  lemma GoMoves(st: State, o: nat)
    requires Enabled(st, Go(o)) && JustMoves(st, o) && (st.calls[o].pc.Issued? ==> st.calls[o].pc.local >= 1)
    ensures o in DoGo(st, o).calls && DoGo(st, o) == Move(st, o, DoGo(st, o).calls[o].pc)
  {
  }

  lemma MoveOk(st: State, o: nat)
    requires MetaOk(st) && Enabled(st, Go(o)) && CallOk(st, o) && ReplicaOk(st, st.calls[o].replica) && JustMoves(st, o)
    ensures GoodStep(st, DoGo(st, o), o) && Log(DoGo(st, o)) == Log(st)
  {
    GoMoves(st, o);
    MoveCallOk(st, o);
    MoveGood(st, o, DoGo(st, o).calls[o].pc);
  }

  lemma PickCallOk(st: State, o: nat)
    requires MetaOk(st) && Enabled(st, Go(o)) && CallOk(st, o) && ReplicaOk(st, st.calls[o].replica)
    requires st.calls[o].pc.Looping? || st.calls[o].pc.NeedReconf?
    ensures CallOk(DoGo(st, o), o)
  {
    LastInChain(st.replicas[st.calls[o].replica].chain, st.meta.chain);
  }

  lemma AckCallOk(st: State, o: nat)
    requires MetaOk(st) && Enabled(st, Go(o)) && CallOk(st, o) && ReplicaOk(st, st.calls[o].replica)
    requires st.calls[o].pc.Issued? || st.calls[o].pc.TailPicked?
    ensures CallOk(DoGo(st, o), o)
  {
    var c, pc := st.meta.chain, st.calls[o].pc;
    if pc.Issued? {
      var v := st.replicas[st.calls[o].replica].chain;
      KeepInChain(v, c, pc.id, pc.start);
      HeldIsShown(c, st.reg, pc.id, pc.start, pc.local, Stamp(o, st.calls[o].kind.entry));
      OlderClosed(v, c, st.reg);
      HeldIsShown(v, st.reg, pc.id, pc.start, pc.local, Stamp(o, st.calls[o].kind.entry));
    } else {
      var k :| 0 <= k < |c| && c[k].id == pc.id && c[k].start == pc.start;
      TailInLog(c, st.reg, k);
    }
  }

  lemma HeldIsShown(c: Segments, reg: Registry, id: string, start: LogPos, local: LogPos, st: Stamp)
    requires Partition(c) && Closed(c, reg) && InChain(c, id, start) && Holds(LogletAt(reg, id), local, st)
    ensures 1 <= ToGlobal(start, local) <= |Flat(c, reg)| && Flat(c, reg)[ToGlobal(start, local) - 1] == st
  {
    var k :| 0 <= k < |c| && c[k].id == id && c[k].start == start;
    FlatAt(c, reg, k, local, st);
  }

  lemma BuildCallOk(st: State, o: nat)
    requires MetaOk(st) && Enabled(st, Go(o)) && CallOk(st, o) && ReplicaOk(st, st.calls[o].replica)
    requires var pc := st.calls[o].pc; pc.RSealed? || pc.RVersion? || pc.RLost? || (pc.RBuilt? && pc.version != st.meta.version)
    ensures CallOk(DoGo(st, o), o)
  {
    var rep := st.replicas[st.calls[o].replica];
    OlderViewRefl(st.meta.chain);
    if st.calls[o].pc.RVersion? {
      OlderViewPartition(rep.chain, st.meta.chain);
      ExtendPartition(rep.chain, st.calls[o].pc.sealPos, LogletId(|rep.chain|));
    }
  }

  lemma MoveCallOk(st: State, o: nat)
    requires MetaOk(st) && Enabled(st, Go(o)) && CallOk(st, o) && ReplicaOk(st, st.calls[o].replica) && JustMoves(st, o)
    ensures CallOk(DoGo(st, o), o)
  {
    var pc := st.calls[o].pc;
    if pc.Looping? || pc.NeedReconf? {
      PickCallOk(st, o);
    } else if pc.Issued? || pc.TailPicked? {
      AckCallOk(st, o);
    } else {
      BuildCallOk(st, o);
    }
  }

  /** The tail of any segment's loglet is at most one past the end of the log. */
  lemma TailInLog(c: Segments, reg: Registry, k: nat)
    requires Partition(c) && Closed(c, reg) && k < |c|
    ensures 1 <= ToGlobal(c[k].start, Tail(LogletAt(reg, c[k].id))) <= |Flat(c, reg)| + 1
  {
    PartitionOrdered(c, 0, k);
    FlatPrefixLength(c, reg, k);
    FlatPrefix(c, reg, k + 1);
    assert c[..k + 1][..k] == c[..k];
  }
}
