/** Why a virtual log must run one reconfiguration at a time: a run in which two appends of the same
    replica overlap their reconfigurations and are both acknowledged at position 1. */
module ReconfigWitness {
  import opened RelosCore
  import opened LogletSpec
  import opened Chain
  import opened FlatLog
  import opened Reconfig
  import opened ReconfigSafety

  /** Installing an extension of the stored chain is safe exactly when the stored chain's last loglet
      is sealed and the seal position is where it ends. */
  lemma ExtensionSafeIff(st: State, p: LogPos, id: string)
    requires MetaOk(st) && id !in Ids(st.meta.chain)
    ensures MetaOk(st.(meta := Meta(Extend(st.meta.chain, p, id), st.meta.version + 1))) <==> SealedAt(st.meta.chain, st.reg, p)
  {
    var c := st.meta.chain;
    var d := Extend(c, p, id);
    if SealedAt(c, st.reg, p) {
      ExtendHarmless(st, p, id);
    } else {
      assert |d| == |c| + 1 && d[|c|].start == p && d[|c| - 1].id == c[|c| - 1].id && d[|c| - 1].start == c[|c| - 1].start;
      assert !ClosedAt(d, st.reg, |c| - 1);
    }
  }

  // ---- A run without the discipline ----

  /** Three distinct loglet ids, of which the last two are the generated ones. */
  datatype Names = Names(l0: string, l1: string, l2: string)

  ghost predicate Apart(n: Names) {
    n.l0 != n.l1 && n.l1 != n.l2 && n.l0 != n.l2
  }

  ghost predicate Good(n: Names) {
    LogletId(1) == n.l1 && LogletId(2) == n.l2 && Apart(n)
  }

  /** The state reached by a list of actions, if each is enabled when its turn comes. */
  ghost function Play(st: State, acts: seq<Action>): Option<State>
    decreases |acts|
  {
    if acts == [] then Some(st)
    else if Enabled(st, acts[0]) then Play(Next(st, acts[0]), acts[1..])
    else None
  }

  ghost predicate Leads(s: State, t: State) {
    exists acts :: Play(s, acts) == Some(t)
  }

  lemma {:induction false} PlayOn(s: State, acts: seq<Action>, m: State, more: seq<Action>)
    requires Play(s, acts) == Some(m)
    ensures Play(s, acts + more) == Play(m, more)
    decreases |acts|
  {
    if acts == [] {
      assert acts + more == more;
    } else {
      assert (acts + more)[1..] == acts[1..] + more;
      PlayOn(Next(s, acts[0]), acts[1..], m, more);
    }
  }

  /** One more action. */
  lemma Then(s: State, m: State, a: Action, t: State)
    requires Leads(s, m) && Enabled(m, a) && Next(m, a) == t
    ensures Leads(s, t)
  {
    var acts :| Play(s, acts) == Some(m);
    PlayOn(s, acts, m, [a]);
    assert Play(t, [a][1..]) == Some(t);
    assert Play(s, acts + [a]) == Some(t);
  }

  lemma Start(s: State)
    ensures Leads(s, s)
  {
    assert Play(s, []) == Some(s);
  }

  function C0(n: Names): Segments { [Segment(n.l0, 1, None)] }
  function C1(n: Names): Segments { [Segment(n.l0, 1, Some(1)), Segment(n.l1, 1, None)] }
  function C2(n: Names): Segments { [Segment(n.l0, 1, Some(1)), Segment(n.l1, 1, Some(1)), Segment(n.l2, 1, None)] }

  const SEALED := Loglet([], true)

  /** One replica and its two appends of e, at pc1 and pc2. */
  function World(meta: Meta, reg: Registry, rep: Replica, e: Entry, pc1: Pc, pc2: Pc): State {
    State(meta, reg, map[0 := rep], map[1 := Call(0, Append(e), pc1, 0, {}), 2 := Call(0, Append(e), pc2, 0, {})])
  }

  lemma EmptyView(n: Names, st: State)
    requires 0 in st.replicas && st.replicas[0].chain == C0(n) && st.reg == map[n.l0 := EMPTY]
    requires forall o :: o in st.calls ==> !st.calls[o].pc.Acked?
    ensures View(st, 0) == [] && AckedNow(st) == {}
  {
    assert C0(n)[..0] == [] && Flat(C0(n)[..0], st.reg) == [];
  }

  /** Both appends have begun and the first loglet is sealed. */
  lemma Prepared(n: Names, e: Entry)
    ensures Leads(State(Meta(C0(n), 0), map[], map[], map[]),
                  World(Meta(C0(n), 0), map[n.l0 := SEALED], Replica(C0(n), 0, {n.l0}), e, Looping, Looping))
  {
    var s0 := State(Meta(C0(n), 0), map[], map[], map[]);
    var rep := Replica(C0(n), 0, {n.l0});
    assert Ids(C0(n)) == {n.l0} by { assert C0(n)[0].id == n.l0; }
    assert Create(map[], {n.l0}) == map[n.l0 := EMPTY];
    var s1 := State(Meta(C0(n), 0), map[n.l0 := EMPTY], map[0 := rep], map[]);
    var s2 := s1.(calls := map[1 := Call(0, Append(e), Looping, 0, {})]);
    var s3 := World(Meta(C0(n), 0), map[n.l0 := EMPTY], rep, e, Looping, Looping);
    Start(s0);
    Then(s0, s0, Join(0), s1);
    EmptyView(n, s1);
    EmptyView(n, s2);
    Then(s0, s1, Begin(1, 0, Append(e)), s2);
    Then(s0, s2, Begin(2, 0, Append(e)), s3);
    Then(s0, s3, OutsideSeal(n.l0), World(Meta(C0(n), 0), map[n.l0 := SEALED], rep, e, Looping, Looping));
  }

  /** An append of the replica finds the loglet sealed and picks it for its reconfiguration. */
  lemma PickSealed(n: Names, s: State, st: State, o: nat)
    requires Leads(s, st)
    requires o in st.calls && st.calls[o].pc == Looping && st.calls[o].kind.Append? && st.calls[o].replica in st.replicas
    requires st.replicas[st.calls[o].replica].chain == C0(n) && n.l0 in st.replicas[st.calls[o].replica].known
    requires n.l0 in st.reg && st.reg[n.l0].sealed
    ensures Leads(s, Move(st, o, RPicked(n.l0, 1)))
  {
    assert ActiveSegment(C0(n)) == Some(Segment(n.l0, 1, None));
    Then(s, st, Go(o), Move(st, o, Picked(n.l0, 1)));
    Then(s, Move(st, o, Picked(n.l0, 1)), SeesSealed(o), Move(st, o, NeedReconf));
    Then(s, Move(st, o, NeedReconf), Go(o), Move(st, o, RPicked(n.l0, 1)));
  }

  lemma SealAndLook(s: State, st: State, o: nat, id: string)
    requires Leads(s, st)
    requires o in st.calls && st.calls[o].replica in st.replicas && st.calls[o].pc == RPicked(id, 1)
    requires id in st.reg && st.reg[id] == SEALED && st.replicas[st.calls[o].replica].version == st.meta.version
    ensures Leads(s, Move(st, o, RVersion(1, st.meta.version)))
  {
    assert st.reg[id := Seal(st.reg[id])] == st.reg;
    Then(s, st, Go(o), Move(st, o, RSealed(1)));
    Then(s, Move(st, o, RSealed(1)), Go(o), Move(st, o, RVersion(1, st.meta.version)));
  }

  /** A reconfiguration that picked a sealed empty loglet starting at 1 closes whatever segment is
      last by now at position 1 and wins the compare-and-swap. */
  lemma SealBuildWin(s: State, st: State, o: nat, id: string, d: Segments)
    requires Leads(s, st)
    requires o in st.calls && st.calls[o].replica in st.replicas && st.calls[o].pc == RPicked(id, 1)
    requires id in st.reg && st.reg[id] == SEALED
    requires var rep := st.replicas[st.calls[o].replica]; rep.chain == st.meta.chain && rep.version == st.meta.version
    requires d == Extend(st.meta.chain, 1, LogletId(|st.meta.chain|))
    ensures Leads(s, Move(st.(meta := Meta(d, st.meta.version + 1)), o, RWon(d, st.meta.version)))
  {
    SealAndLook(s, st, o, id);
    Then(s, Move(st, o, RVersion(1, st.meta.version)), Go(o), Move(st, o, RBuilt(d, st.meta.version)));
    Then(s, Move(st, o, RBuilt(d, st.meta.version)), Go(o),
         Move(st.(meta := Meta(d, st.meta.version + 1)), o, RWon(d, st.meta.version)));
  }

  /** The winner creates the new loglet and installs the chain. */
  lemma Install(s: State, st: State, o: nat, d: Segments, v: nat)
    requires Leads(s, st)
    requires o in st.calls && st.calls[o].replica in st.replicas && st.calls[o].pc == RWon(d, v)
    requires |d| > 0 && d[|d| - 1].id !in st.reg
    ensures var r, id := st.calls[o].replica, d[|d| - 1].id;
            Leads(s, Move(SetReplica(st.(reg := st.reg[id := EMPTY]), r, Replica(d, v + 1, st.replicas[r].known + {id})), o, Looping))
  {
    var r, id := st.calls[o].replica, d[|d| - 1].id;
    var rep := st.replicas[r];
    var w := st.(reg := st.reg[id := EMPTY]);
    assert Create(st.reg, {id}) == st.reg[id := EMPTY];
    var s1 := Move(SetReplica(w, r, rep.(known := rep.known + {id})), o, RCreated(d, v));
    Then(s, st, Go(o), s1);
    InstallSet(s, s1, o, d, v);
    var t := Move(SetReplica(w, r, Replica(d, v + 1, rep.known + {id})), o, Looping);
    assert s1.replicas[r := Replica(d, v + 1, rep.known + {id})] == t.replicas;
    assert Move(SetReplica(s1, r, Replica(d, v + 1, rep.known + {id})), o, Looping) == t;
  }

  lemma InstallSet(s: State, s1: State, o: nat, d: Segments, v: nat)
    requires Leads(s, s1)
    requires o in s1.calls && s1.calls[o].replica in s1.replicas && s1.calls[o].pc == RCreated(d, v)
    ensures var r := s1.calls[o].replica;
            Leads(s, Move(SetReplica(s1, r, Replica(d, v + 1, s1.replicas[r].known)), o, Looping))
  {
    var r, rep := s1.calls[o].replica, s1.replicas[s1.calls[o].replica];
    var s2 := Move(SetReplica(s1, r, Replica(d, rep.version, rep.known)), o, ChainSet(v + 1));
    Then(s, s1, Go(o), s2);
    assert s2.replicas[r := Replica(d, v + 1, rep.known)] == s1.replicas[r := Replica(d, v + 1, rep.known)];
    Then(s, s2, Go(o), Move(SetReplica(s1, r, Replica(d, v + 1, rep.known)), o, Looping));
  }

  /** It is then given position 1 of the new loglet, global position 1, and acknowledged. */
  lemma AckFirst(s: State, st: State, o: nat, id: string)
    requires Leads(s, st)
    requires o in st.calls && st.calls[o].replica in st.replicas && st.calls[o].pc == Looping && st.calls[o].kind.Append?
    requires ActiveSegment(st.replicas[st.calls[o].replica].chain) == Some(Segment(id, 1, None))
    requires id in st.reg && st.reg[id] == EMPTY && id in st.replicas[st.calls[o].replica].known
    ensures Leads(s, Move(st.(reg := st.reg[id := Loglet([Stamp(o, st.calls[o].kind.entry)], false)]), o, Acked(1)))
  {
    var stamp := Stamp(o, st.calls[o].kind.entry);
    var w := st.(reg := st.reg[id := Loglet([stamp], false)]);
    assert Issue(EMPTY, stamp) == Loglet([stamp], false);
    Then(s, st, Go(o), Move(st, o, Picked(id, 1)));
    Then(s, Move(st, o, Picked(id, 1)), Go(o), Move(w, o, Issued(id, 1, 1)));
    Then(s, Move(w, o, Issued(id, 1, 1)), Go(o), Move(w, o, Acked(1)));
  }

  // The states in between.
  function One(e: Entry): Loglet { Loglet([Stamp(2, e)], false) }
  function W3(n: Names, e: Entry): State {
    World(Meta(C0(n), 0), map[n.l0 := SEALED], Replica(C0(n), 0, {n.l0}), e, RPicked(n.l0, 1), RPicked(n.l0, 1))
  }
  function W4(n: Names, e: Entry): State {
    World(Meta(C1(n), 1), map[n.l0 := SEALED], Replica(C0(n), 0, {n.l0}), e, RPicked(n.l0, 1), RWon(C1(n), 0))
  }
  function W5(n: Names, e: Entry): State {
    World(Meta(C1(n), 1), map[n.l0 := SEALED, n.l1 := EMPTY], Replica(C1(n), 1, {n.l0} + {n.l1}), e, RPicked(n.l0, 1), Looping)
  }
  function W6(n: Names, e: Entry): State {
    World(Meta(C1(n), 1), map[n.l0 := SEALED, n.l1 := One(e)], Replica(C1(n), 1, {n.l0} + {n.l1}), e, RPicked(n.l0, 1), Acked(1))
  }
  function W7(n: Names, e: Entry): State {
    World(Meta(C2(n), 2), map[n.l0 := SEALED, n.l1 := One(e)], Replica(C1(n), 1, {n.l0} + {n.l1}), e, RWon(C2(n), 1), Acked(1))
  }
  function W8(n: Names, e: Entry): State {
    var w := W7(n, e);
    Move(SetReplica(w.(reg := w.reg[n.l2 := EMPTY]), 0, Replica(C2(n), 2, w.replicas[0].known + {n.l2})), 1, Looping)
  }

  lemma From3To4(n: Names, s: State, e: Entry)
    requires Good(n) && Leads(s, W3(n, e))
    ensures Leads(s, W4(n, e))
  {
    assert Extend(C0(n), 1, n.l1) == C1(n);
    SealBuildWin(s, W3(n, e), 2, n.l0, C1(n));
    assert Move(W3(n, e).(meta := Meta(C1(n), 1)), 2, RWon(C1(n), 0)) == W4(n, e);
  }

  lemma Installed4(n: Names, e: Entry)
    requires Apart(n)
    ensures var st := W4(n, e);
            Move(SetReplica(st.(reg := st.reg[n.l1 := EMPTY]), 0, Replica(C1(n), 1, st.replicas[0].known + {n.l1})), 2, Looping) == W5(n, e)
  {
  }

  lemma From4To5(n: Names, s: State, e: Entry)
    requires Apart(n) && Leads(s, W4(n, e))
    ensures Leads(s, W5(n, e))
  {
    Install(s, W4(n, e), 2, C1(n), 0);
    Installed4(n, e);
  }

  lemma From5To6(n: Names, s: State, e: Entry)
    requires Apart(n) && Leads(s, W5(n, e))
    ensures Leads(s, W6(n, e))
  {
    var st := W5(n, e);
    AckFirst(s, st, 2, n.l1);
    assert Move(st.(reg := st.reg[n.l1 := One(e)]), 2, Acked(1)) == W6(n, e);
  }

  lemma From6To7(n: Names, s: State, e: Entry)
    requires Good(n) && Leads(s, W6(n, e))
    ensures Leads(s, W7(n, e))
  {
    assert Extend(C1(n), 1, n.l2) == C2(n);
    SealBuildWin(s, W6(n, e), 1, n.l0, C2(n));
    assert Move(W6(n, e).(meta := Meta(C2(n), 2)), 1, RWon(C2(n), 1)) == W7(n, e);
  }

  lemma From7To8(n: Names, s: State, e: Entry)
    requires Apart(n) && Leads(s, W7(n, e))
    ensures Leads(s, W8(n, e))
  {
    Install(s, W7(n, e), 1, C2(n), 1);
  }

  lemma Generated()
    ensures Good(Names("loglet-0", LogletId(1), LogletId(2)))
  {
    assert Decimal(1)[0] == '1' && Decimal(2)[0] == '2';
    assert LogletId(1)[7] == '1' && LogletId(2)[7] == '2' && "loglet-0"[7] == '0';
  }

  /** From the initial state: appends 1 and 2 of one replica both pick the sealed first loglet; 2
      reconfigures and is acknowledged at position 1; then 1, having sealed that first loglet again,
      closes the newer segment at position 1 although it holds an entry, and is acknowledged at
      position 1 as well. */
  lemma OverlapLosesEntry(e: Entry) returns (st: State)
    ensures Leads(State(Meta(NewChain("loglet-0"), 0), map[], map[], map[]), st)
    ensures st.calls == map[1 := Call(0, Append(e), Acked(1), 0, {}), 2 := Call(0, Append(e), Acked(1), 0, {})]
    ensures FindSegment(st.meta.chain, 1) == Some(Segment(LogletId(2), 1, None))
  {
    Generated();
    st := OverlapRun(Names("loglet-0", LogletId(1), LogletId(2)), e);
  }

  lemma From0To3(n: Names, e: Entry)
    ensures Leads(State(Meta(C0(n), 0), map[], map[], map[]), W3(n, e))
  {
    var s0 := State(Meta(C0(n), 0), map[], map[], map[]);
    var rep := Replica(C0(n), 0, {n.l0});
    Prepared(n, e);
    var s1 := World(Meta(C0(n), 0), map[n.l0 := SEALED], rep, e, Looping, Looping);
    PickSealed(n, s0, s1, 1);
    var s2 := World(Meta(C0(n), 0), map[n.l0 := SEALED], rep, e, RPicked(n.l0, 1), Looping);
    assert s2 == Move(s1, 1, RPicked(n.l0, 1));
    PickSealed(n, s0, s2, 2);
    assert Move(s2, 2, RPicked(n.l0, 1)) == W3(n, e);
  }

  lemma From8(n: Names, s: State, e: Entry) returns (st: State)
    requires Apart(n) && Leads(s, W8(n, e))
    ensures Leads(s, st)
    ensures st.calls == map[1 := Call(0, Append(e), Acked(1), 0, {}), 2 := Call(0, Append(e), Acked(1), 0, {})]
    ensures st.meta.chain == C2(n)
  {
    AckFirst(s, W8(n, e), 1, n.l2);
    st := Move(W8(n, e).(reg := W8(n, e).reg[n.l2 := Loglet([Stamp(1, e)], false)]), 1, Acked(1));
  }

  lemma OverlapRun(n: Names, e: Entry) returns (st: State)
    requires Good(n)
    ensures Leads(State(Meta(NewChain(n.l0), 0), map[], map[], map[]), st)
    ensures st.calls == map[1 := Call(0, Append(e), Acked(1), 0, {}), 2 := Call(0, Append(e), Acked(1), 0, {})]
    ensures FindSegment(st.meta.chain, 1) == Some(Segment(n.l2, 1, None))
  {
    var s0 := State(Meta(C0(n), 0), map[], map[], map[]);
    From0To3(n, e);
    From3To4(n, s0, e);
    From4To5(n, s0, e);
    From5To6(n, s0, e);
    From6To7(n, s0, e);
    From7To8(n, s0, e);
    st := From8(n, s0, e);
    FindIsFirst(C2(n), 1, 2);
  }
}
