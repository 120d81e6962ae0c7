/** Calls of a virtual log can be answered: from every reachable state, an append, read or check_tail that
    runs on alone comes to the answer it should get, through as many steps of reconfiguration as it needs. */
module ReconfigProgress {
  import opened RelosCore
  import opened LogletSpec
  import opened Chain
  import opened FlatLog
  import opened Reconfig
  import opened ReconfigSafety
  import opened ReconfigTheorems

  // ---- Continuations ----

  /** The state reached by a list of disciplined actions, if each is enabled when its turn comes. */
  ghost function Play(st: State, acts: seq<Action>): Option<State>
    decreases |acts|
  {
    if acts == [] then Some(st)
    else if Enabled(st, acts[0]) && Disciplined(st, acts[0]) then Play(Next(st, acts[0]), acts[1..])
    else None
  }

  ghost predicate Leads(s: State, t: State) {
    exists acts :: Play(s, acts) == Some(t)
  }

  lemma {:induction false} PlayOn(s: State, acts: seq<Action>, m: State, more: seq<Action>)
    requires Play(s, acts) == Some(m)
    ensures Play(s, acts + more) == Play(m, more)
    decreases |acts|
  {
    if acts == [] {
      assert acts + more == more;
    } else {
      assert (acts + more)[1..] == acts[1..] + more;
      PlayOn(Next(s, acts[0]), acts[1..], m, more);
    }
  }

  lemma Then(s: State, m: State, a: Action)
    requires Leads(s, m) && Enabled(m, a) && Disciplined(m, a)
    ensures Leads(s, Next(m, a))
  {
    var acts :| Play(s, acts) == Some(m);
    PlayOn(s, acts, m, [a]);
    assert Play(Next(m, a), [a][1..]) == Some(Next(m, a));
    assert Play(s, acts + [a]) == Some(Next(m, a));
  }

  lemma Start(s: State)
    ensures Leads(s, s)
  {
    assert Play(s, []) == Some(s);
  }

  lemma LeadsOn(s: State, m: State, t: State)
    requires Leads(s, m) && Leads(m, t)
    ensures Leads(s, t)
  {
    var acts :| Play(s, acts) == Some(m);
    var more :| Play(m, more) == Some(t);
    PlayOn(s, acts, m, more);
  }

  lemma {:induction false} PlayKeeps(s: State, acts: seq<Action>, id: string)
    requires Inv(s, id) && Play(s, acts).Some?
    ensures Inv(Play(s, acts).value, id) && Grows(s, Play(s, acts).value)
    decreases |acts|
  {
    if acts == [] {
      OlderViewRefl(s.meta.chain);
    } else {
      StepKeeps(s, acts[0], id);
      PlayKeeps(Next(s, acts[0]), acts[1..], id);
      GrowsTransitive(s, Next(s, acts[0]), Play(s, acts).value);
    }
  }

  lemma LeadsKeeps(s: State, t: State, id: string)
    requires Inv(s, id) && Leads(s, t)
    ensures Inv(t, id) && Grows(s, t)
  {
    var acts :| Play(s, acts) == Some(t);
    PlayKeeps(s, acts, id);
  }

  // ---- One call running alone ----

  /** Call o has come from s to pc, alone at reconfiguring on its replica. */
  ghost predicate At(s: State, st: State, o: nat, pc: Pc) {
    Leads(s, st) && o in st.calls && st.calls[o].replica in st.replicas && Alone(st, o) && st.calls[o].pc == pc
  }

  ghost function Rep(st: State, o: nat): Replica
    requires o in st.calls && st.calls[o].replica in st.replicas
  {
    st.replicas[st.calls[o].replica]
  }

  /** The replica's chain ends in an open segment whose loglet it knows. */
  ghost predicate Grounded(c: Segments, known: set<string>, reg: Registry) {
    c != [] && c[|c| - 1].end == None && c[|c| - 1].start >= 1 && c[|c| - 1].id in known && c[|c| - 1].id in reg
  }

  ghost predicate Sound(st: State, o: nat)
    requires o in st.calls && st.calls[o].replica in st.replicas
  {
    Grounded(Rep(st, o).chain, Rep(st, o).known, st.reg) && st.calls[o].kind.Append?
  }

  lemma Goes(s: State, st: State, o: nat)
    requires o in st.calls && At(s, st, o, st.calls[o].pc) && Enabled(st, Go(o))
    ensures Leads(s, DoGo(st, o))
  {
    Then(s, st, Go(o));
  }

  lemma MovesTo(s: State, st: State, o: nat, pc: Pc)
    requires o in st.calls && At(s, st, o, st.calls[o].pc) && Enabled(st, Go(o)) && DoGo(st, o) == Move(st, o, pc)
    ensures At(s, Move(st, o, pc), o, pc)
  {
    Goes(s, st, o);
  }

  // ---- Append on an open loglet ----

  ghost predicate OpenLoglet(st: State, o: nat)
    requires o in st.calls && st.calls[o].replica in st.replicas && Sound(st, o)
  {
    !st.reg[Rep(st, o).chain[|Rep(st, o).chain| - 1].id].sealed
  }

  lemma Picks(s: State, st: State, o: nat) returns (t: State)
    requires At(s, st, o, Looping) && Sound(st, o)
    ensures var c := Rep(st, o).chain;
            t == Move(st, o, Picked(c[|c| - 1].id, c[|c| - 1].start)) && At(s, t, o, Picked(c[|c| - 1].id, c[|c| - 1].start))
  {
    var c := Rep(st, o).chain;
    t := Move(st, o, Picked(c[|c| - 1].id, c[|c| - 1].start));
    MovesTo(s, st, o, t.calls[o].pc);
  }

  /** With its replica's active loglet open, an append is acknowledged. */
  lemma AppendsHere(s: State, st: State, o: nat) returns (t: State)
    requires At(s, st, o, Looping) && Sound(st, o) && OpenLoglet(st, o)
    ensures Leads(s, t) && o in t.calls && t.calls[o].pc.Acked?
  {
    var s1 := Picks(s, st, o);
    var pc := s1.calls[o].pc;
    var l := s1.reg[pc.id];
    Goes(s, s1, o);
    var s2 := DoGo(s1, o);
    Goes(s, s2, o);
    t := DoGo(s2, o);
  }

  // ---- Reconfiguration ----

  /** From a sealed loglet to the seal of the reconfiguration. */
  lemma ToSealed(s: State, st: State, o: nat) returns (t: State)
    requires At(s, st, o, Looping) && Sound(st, o) && !OpenLoglet(st, o)
    ensures o in t.calls && t.calls[o].pc.RSealed? && At(s, t, o, t.calls[o].pc) && t == Move(st, o, t.calls[o].pc)
    ensures t.calls[o].pc.sealPos >= 1
  {
    var s1 := Picks(s, st, o);
    var s2 := Sees(s, s1, o);
    var s3 := PicksAgain(s, s2, o);
    t := Seals(s, s3, o);
    MoveOver(st, o, s1.calls[o].pc, NeedReconf);
    MoveOver(st, o, NeedReconf, s3.calls[o].pc);
    MoveOver(st, o, s3.calls[o].pc, t.calls[o].pc);
  }

  lemma MoveOver(st: State, o: nat, a: Pc, b: Pc)
    requires o in st.calls
    ensures Move(Move(st, o, a), o, b) == Move(st, o, b)
  {
  }

  lemma Sees(s: State, st: State, o: nat) returns (t: State)
    requires o in st.calls && st.calls[o].pc.Picked? && At(s, st, o, st.calls[o].pc) && LogletAt(st.reg, st.calls[o].pc.id).sealed
    ensures t == Move(st, o, NeedReconf) && At(s, t, o, NeedReconf)
  {
    Then(s, st, SeesSealed(o));
    t := Move(st, o, NeedReconf);
  }

  lemma PicksAgain(s: State, st: State, o: nat) returns (t: State)
    requires At(s, st, o, NeedReconf) && Sound(st, o)
    ensures var c := Rep(st, o).chain;
            var pc := RPicked(c[|c| - 1].id, c[|c| - 1].start); t == Move(st, o, pc) && At(s, t, o, pc)
  {
    var c := Rep(st, o).chain;
    t := Move(st, o, RPicked(c[|c| - 1].id, c[|c| - 1].start));
    MovesTo(s, st, o, t.calls[o].pc);
  }

  lemma Seals(s: State, st: State, o: nat) returns (t: State)
    requires o in st.calls && st.calls[o].pc.RPicked? && At(s, st, o, st.calls[o].pc)
    requires var pc := st.calls[o].pc; pc.id in st.reg && pc.start >= 1 && st.reg[pc.id].sealed
    ensures o in t.calls && t.calls[o].pc.RSealed? && At(s, t, o, t.calls[o].pc) && t == Move(st, o, t.calls[o].pc)
    ensures t.calls[o].pc.sealPos >= 1
  {
    var pc := st.calls[o].pc;
    assert st.reg[pc.id := Seal(st.reg[pc.id])] == st.reg;
    t := Move(st, o, RSealed(ToGlobal(pc.start, Tail(st.reg[pc.id]))));
    MovesTo(s, st, o, t.calls[o].pc);
  }

  /** To the compare-and-swap. */
  lemma ToBuilt(s: State, st: State, o: nat) returns (t: State)
    requires o in st.calls && st.calls[o].pc.RSealed? && At(s, st, o, st.calls[o].pc)
    ensures var c := Rep(st, o).chain;
            var pc := RBuilt(Extend(c, st.calls[o].pc.sealPos, LogletId(|c|)), Rep(st, o).version);
            t == Move(st, o, pc) && At(s, t, o, pc)
  {
    var c, p, v := Rep(st, o).chain, st.calls[o].pc.sealPos, Rep(st, o).version;
    MovesTo(s, st, o, RVersion(p, v));
    var s1 := Move(st, o, RVersion(p, v));
    t := Move(st, o, RBuilt(Extend(c, p, LogletId(|c|)), v));
    assert Move(s1, o, t.calls[o].pc) == t;
    MovesTo(s, s1, o, t.calls[o].pc);
  }

  /** The compare-and-swap of a current version wins. */
  lemma Swaps(s: State, st: State, o: nat) returns (t: State)
    requires o in st.calls && st.calls[o].pc.RBuilt? && At(s, st, o, st.calls[o].pc) && st.calls[o].pc.version == st.meta.version
    ensures var d, v := st.calls[o].pc.chain, st.calls[o].pc.version;
            t == Move(st.(meta := Meta(d, v + 1)), o, RWon(d, v)) && At(s, t, o, RWon(d, v))
  {
    Goes(s, st, o);
    t := DoGo(st, o);
  }

  lemma Creates(s: State, st: State, o: nat, d: Segments, v: nat) returns (t: State)
    requires At(s, st, o, RWon(d, v)) && d != []
    ensures t == DoCreate(st, o, d[|d| - 1].id, RCreated(d, v)) && At(s, t, o, RCreated(d, v))
  {
    Goes(s, st, o);
    GoCreates(st, o, d, v, |d| - 1);
    t := DoCreate(st, o, d[|d| - 1].id, RCreated(d, v));
  }

  lemma SetsChain(s: State, st: State, o: nat, d: Segments, v: nat) returns (t: State)
    requires o in st.calls && At(s, st, o, st.calls[o].pc)
    requires st.calls[o].pc == SyncRead(d, v, |d|) || (v > 0 && st.calls[o].pc == RCreated(d, v - 1))
    ensures At(s, t, o, Looping) && t.reg == st.reg && t.meta == st.meta && t.calls[o].kind == st.calls[o].kind
    ensures t.calls[o].replica == st.calls[o].replica && Rep(t, o) == Replica(d, v, Rep(st, o).known)
  {
    Goes(s, st, o);
    GoSetsChain(st, o, d, v);
    var r := st.calls[o].replica;
    var s1 := Move(SetReplica(st, r, st.replicas[r].(chain := d)), o, ChainSet(v));
    Goes(s, s1, o);
    t := DoGo(s1, o);
  }

  /** A current replica wins and comes back with an open, empty loglet. */
  lemma Wins(s: State, st: State, o: nat) returns (t: State)
    requires At(s, st, o, Looping) && Sound(st, o) && !OpenLoglet(st, o)
    requires Rep(st, o).chain == st.meta.chain && Rep(st, o).version == st.meta.version && LogletId(|st.meta.chain|) !in st.reg
    ensures At(s, t, o, Looping) && Sound(t, o) && OpenLoglet(t, o)
  {
    var s1 := ToSealed(s, st, o);
    var s2 := ToBuilt(s, s1, o);
    var s3 := Swaps(s, s2, o);
    var c, p, v := st.meta.chain, s1.calls[o].pc.sealPos, st.meta.version;
    var x := LogletId(|c|);
    var d := Extend(c, p, x);
    assert d[|d| - 1] == Segment(x, p, None);
    t := Opens(s, s3, o, d, v);
  }

  lemma Opens(s: State, st: State, o: nat, d: Segments, v: nat) returns (t: State)
    requires At(s, st, o, RWon(d, v)) && d != [] && d[|d| - 1].end == None && d[|d| - 1].start >= 1 && d[|d| - 1].id !in st.reg
    requires st.calls[o].kind.Append?
    ensures At(s, t, o, Looping) && Sound(t, o) && OpenLoglet(t, o)
  {
    var s1 := Creates(s, st, o, d, v);
    t := SetsChain(s, s1, o, d, v + 1);
  }

  lemma {:induction false} Makes(s: State, st: State, o: nat, d: Segments, v: nat, k: nat) returns (t: State)
    requires k <= |d| && At(s, st, o, SyncRead(d, v, k)) && MadeUpTo(d, k, Rep(st, o).known)
    requires forall i :: 0 <= i < k ==> d[i].id in st.reg
    ensures At(s, t, o, SyncRead(d, v, |d|)) && t.meta == st.meta && t.calls[o].kind == st.calls[o].kind
    ensures t.calls[o].replica == st.calls[o].replica && Rep(t, o).chain == Rep(st, o).chain
    ensures forall i :: 0 <= i < |d| ==> d[i].id in Rep(t, o).known && d[i].id in t.reg
    decreases |d| - k
  {
    t := st;
    if k < |d| {
      var u := MakesOne(s, st, o, d, v, k);
      t := Makes(s, u, o, d, v, k + 1);
    }
  }

  lemma MakesOne(s: State, st: State, o: nat, d: Segments, v: nat, k: nat) returns (t: State)
    requires k < |d| && At(s, st, o, SyncRead(d, v, k)) && MadeUpTo(d, k, Rep(st, o).known)
    requires forall i :: 0 <= i < k ==> d[i].id in st.reg
    ensures At(s, t, o, SyncRead(d, v, k + 1)) && t.meta == st.meta && t.calls[o].kind == st.calls[o].kind
    ensures t.calls[o].replica == st.calls[o].replica && Rep(t, o).chain == Rep(st, o).chain
    ensures MadeUpTo(d, k + 1, Rep(t, o).known) && forall i :: 0 <= i < k + 1 ==> d[i].id in t.reg
  {
    Goes(s, st, o);
    GoCreates(st, o, d, v, k);
    t := DoCreate(st, o, d[k].id, SyncRead(d, v, k + 1));
  }

  /** A replica that is behind loses and comes back with the stored chain and version. */
  lemma Syncs(s: State, st: State, o: nat) returns (t: State)
    requires At(s, st, o, Looping) && Sound(st, o) && !OpenLoglet(st, o) && Rep(st, o).version != st.meta.version
    requires st.meta.chain != [] && st.meta.chain[|st.meta.chain| - 1].end == None && st.meta.chain[|st.meta.chain| - 1].start >= 1
    ensures At(s, t, o, Looping) && Sound(t, o) && Rep(t, o).chain == t.meta.chain && Rep(t, o).version == t.meta.version
  {
    var s1 := ToSealed(s, st, o);
    var s2 := ToBuilt(s, s1, o);
    MovesTo(s, s2, o, RLost);
    var s3 := Move(s2, o, RLost);
    var d, v := st.meta.chain, st.meta.version;
    MovesTo(s, s3, o, SyncRead(d, v, 0));
    var s4 := Makes(s, Move(s3, o, SyncRead(d, v, 0)), o, d, v, 0);
    t := SetsChain(s, s4, o, d, v);
  }

  // ---- The whole append ----

  lemma FreshId(st: State, id: string)
    requires Inv(st, id)
    ensures LogletId(|st.meta.chain|) !in st.reg
  {
    var c := st.meta.chain;
    forall i | 0 <= i < |c| ensures c[i].id != LogletId(|c|) {
      NextIdIsNew(c, id, i);
    }
  }

  lemma InvSound(st: State, id: string, o: nat)
    requires Inv(st, id) && o in st.calls && st.calls[o].pc.Looping?
    ensures st.calls[o].replica in st.replicas && Sound(st, o)
    ensures Rep(st, o).version == st.meta.version ==> Rep(st, o).chain == st.meta.chain
    ensures var c := st.meta.chain; c != [] && c[|c| - 1].end == None && c[|c| - 1].start >= 1
  {
    CallFacts(st, o);
    var c, d := Rep(st, o).chain, st.meta.chain;
    assert c[|c| - 1].id in Ids(c);
    OlderViewPartition(c, d);
    PartitionOrdered(c, 0, |c| - 1);
    PartitionOrdered(d, 0, |d| - 1);
  }

  lemma CompletesCurrent(s: State, st: State, id: string, o: nat) returns (t: State)
    requires Inv(s, id) && At(s, st, o, Looping) && Rep(st, o).version == st.meta.version
    ensures Leads(s, t) && o in t.calls && t.calls[o].pc.Acked?
  {
    LeadsKeeps(s, st, id);
    InvSound(st, id, o);
    FreshId(st, id);
    if OpenLoglet(st, o) {
      t := AppendsHere(s, st, o);
    } else {
      var s2 := Wins(s, st, o);
      t := AppendsHere(s, s2, o);
    }
  }

  /** An append that runs on alone is acknowledged, whatever its replica's view was and whether its loglet
      was sealed. */
  lemma AppendCompletes(s: State, st: State, id: string, o: nat) returns (t: State)
    requires Inv(s, id) && At(s, st, o, Looping)
    ensures Leads(s, t) && o in t.calls && t.calls[o].pc.Acked?
  {
    LeadsKeeps(s, st, id);
    InvSound(st, id, o);
    if OpenLoglet(st, o) {
      t := AppendsHere(s, st, o);
    } else if Rep(st, o).version == st.meta.version {
      t := CompletesCurrent(s, st, id, o);
    } else {
      var s2 := Syncs(s, st, o);
      t := CompletesCurrent(s, s2, id, o);
    }
  }

  /** From every reachable state a new append of a replica that is not reconfiguring can be acknowledged, and
      then its entry is in the log at the position acknowledged. */
  lemma NewAppendCompletes(st: State, id: string, o: nat, r: nat, e: Entry) returns (t: State)
    requires Inv(st, id) && o !in st.calls && r in st.replicas
    requires forall p :: p in st.calls && st.calls[p].replica == r ==> !Reconfiguring(st.calls[p].pc)
    ensures Leads(st, t) && o in t.calls && t.calls[o].pc.Acked?
    ensures 1 <= t.calls[o].pc.g <= |Log(t)| && Log(t)[t.calls[o].pc.g - 1] == Stamp(o, e)
  {
    Begins(st, id, o, r, Append(e));
    var s1 := Next(st, Begin(o, r, Append(e)));
    Start(s1);
    t := AppendCompletes(s1, s1, id, o);
    LeadsOn(st, s1, t);
    LeadsKeeps(s1, t, id);
    CallFacts(t, o);
  }

  // ---- Reads and tails ----

  lemma Begins(st: State, id: string, o: nat, r: nat, kind: Kind)
    requires Inv(st, id) && o !in st.calls && r in st.replicas
    ensures var t := Next(st, Begin(o, r, kind));
            && Leads(st, t) && Inv(t, id) && o in t.calls && t.calls[o].replica == r && r in t.replicas && CallOk(t, o)
            && t.calls[o] == Call(r, kind, BeginPc(st.replicas[r], kind), |View(st, r)|, AckedNow(st)) && Log(t) == Log(st) && t.reg == st.reg
  {
    Start(st);
    Then(st, st, Begin(o, r, kind));
    StepKeeps(st, Begin(o, r, kind), id);
    CallFacts(Next(st, Begin(o, r, kind)), o);
  }

  lemma ViewEnds(st: State, id: string, r: nat)
    requires Inv(st, id) && r in st.replicas
    ensures var c := st.replicas[r].chain;
            && Partition(c) && Closed(c, st.reg) && ActiveSegment(c) == Some(c[|c| - 1]) && c[|c| - 1].id in st.reg && c[|c| - 1].start >= 1
            && |View(st, r)| == c[|c| - 1].start - 1 + |LogletAt(st.reg, c[|c| - 1].id).issued|
  {
    assert ReplicaOk(st, r);
    var c := st.replicas[r].chain;
    OlderClosed(c, st.meta.chain, st.reg);
    FlatLength(c, st.reg);
    PartitionOrdered(c, 0, |c| - 1);
    assert c[|c| - 1].id in Ids(c);
  }

  /** A new check_tail can report one past what its replica's view shows. */
  lemma NewTailCompletes(st: State, id: string, o: nat, r: nat) returns (t: State)
    requires Inv(st, id) && o !in st.calls && r in st.replicas
    ensures Leads(st, t) && o in t.calls && t.calls[o].pc == TailDone(|View(st, r)| + 1)
  {
    Begins(st, id, o, r, CheckTail);
    ViewEnds(st, id, r);
    var s1 := Next(st, Begin(o, r, CheckTail));
    t := Tails(st, s1, o);
  }

  lemma Tails(s: State, st: State, o: nat) returns (t: State)
    requires Leads(s, st) && o in st.calls && st.calls[o].replica in st.replicas && st.calls[o].pc.TailPicked?
    requires st.calls[o].pc.id in st.reg && st.calls[o].pc.start >= 1
    ensures Leads(s, t) && o in t.calls && t.calls[o].pc == TailDone(ToGlobal(st.calls[o].pc.start, Tail(st.reg[st.calls[o].pc.id])))
  {
    Then(s, st, Go(o));
    t := DoGo(st, o);
  }

  /** A new read of a position that its replica's view shows can answer with the log's entry there. */
  lemma NewReadCompletes(st: State, id: string, o: nat, r: nat, g: LogPos) returns (t: State)
    requires Inv(st, id) && o !in st.calls && r in st.replicas && 1 <= g <= |View(st, r)|
    ensures Leads(st, t) && o in t.calls && g <= |Log(st)| && t.calls[o].pc == ReadDone(Found(Log(st)[g - 1].entry))
  {
    Begins(st, id, o, r, Read(g));
    ViewEnds(st, id, r);
    ShownIsHeld(st.replicas[r].chain, st.reg, g);
    t := Finds(st, Next(st, Begin(o, r, Read(g))), id, o, g);
  }

  lemma Finds(s: State, st: State, id: string, o: nat, g: LogPos) returns (t: State)
    requires Leads(s, st) && Inv(st, id) && o in st.calls && st.calls[o].replica in st.replicas && CallOk(st, o)
    requires st.calls[o].pc.Finding? && st.calls[o].kind == Read(g) && 1 <= g <= st.calls[o].seen
    ensures Leads(s, t) && o in t.calls && 1 <= g <= |Log(st)| && t.calls[o].pc == ReadDone(Found(Log(st)[g - 1].entry))
  {
    var pc, c := st.calls[o].pc, st.meta.chain;
    var l := LogletAt(st.reg, pc.id);
    var held := l.issued[pc.local - 1];
    var start :| InChain(c, pc.id, start) && g == ToGlobal(start, pc.local);
    HeldIsShown(c, st.reg, pc.id, start, pc.local, held);
    assert Holds(l, pc.local, Stamp(held.op, held.entry));
    Then(s, st, Answered(o, Found(held.entry)));
    t := Move(st, o, ReadDone(Found(held.entry)));
  }
}
