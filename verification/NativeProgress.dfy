/** Calls of NativeLoglet can always be answered: from every reachable state, whatever else is in flight,
    there are steps of sequencer, servers and one call that bring that call to the answer it should get. */
module NativeProgress {
  import opened RelosCore
  import opened NativeTasks
  import opened NativeProtocol
  import opened NativeSafety

  // ---- Continuations ----

  /** The state reached by a list of actions, if each is enabled when its turn comes. */
  ghost function Play(st: State, acts: seq<Action>): Option<State>
    decreases |acts|
  {
    if acts == [] then Some(st)
    else if WellFormed(st) && Enabled(st, acts[0]) then Play(Next(st, acts[0]), acts[1..])
    else None
  }

  ghost predicate Leads(s: State, t: State) {
    exists acts :: Play(s, acts) == Some(t)
  }

  lemma {:induction false} PlayOn(s: State, acts: seq<Action>, m: State, more: seq<Action>)
    requires Play(s, acts) == Some(m)
    ensures Play(s, acts + more) == Play(m, more)
    decreases |acts|
  {
    if acts == [] {
      assert acts + more == more;
    } else {
      assert (acts + more)[1..] == acts[1..] + more;
      PlayOn(Next(s, acts[0]), acts[1..], m, more);
    }
  }

  lemma Then(s: State, m: State, a: Action)
    requires Leads(s, m) && WellFormed(m) && Enabled(m, a)
    ensures Leads(s, Next(m, a))
  {
    var acts :| Play(s, acts) == Some(m);
    PlayOn(s, acts, m, [a]);
    assert Play(Next(m, a), [a][1..]) == Some(Next(m, a));
    assert Play(s, acts + [a]) == Some(Next(m, a));
  }

  lemma Start(s: State)
    ensures Leads(s, s)
  {
    assert Play(s, []) == Some(s);
  }

  lemma {:induction false} PlayKeeps(s: State, acts: seq<Action>)
    requires Inv(s) && Play(s, acts).Some?
    ensures Inv(Play(s, acts).value) && Grows(s, Play(s, acts).value)
    decreases |acts|
  {
    if acts != [] {
      StepKeeps(s, acts[0]);
      PlayKeeps(Next(s, acts[0]), acts[1..]);
      GrowsTransitive(s, Next(s, acts[0]), Play(s, acts).value);
    }
  }

  lemma LeadsKeeps(s: State, t: State)
    requires Inv(s) && Leads(s, t)
    ensures Inv(t) && Grows(s, t)
  {
    var acts :| Play(s, acts) == Some(t);
    PlayKeeps(s, acts);
  }

  lemma LeadsOn(s: State, m: State, t: State)
    requires Leads(s, m) && Leads(m, t)
    ensures Leads(s, t)
  {
    var acts :| Play(s, acts) == Some(m);
    var more :| Play(m, more) == Some(t);
    PlayOn(s, acts, m, more);
  }

  // ---- Single steps ----

  ghost predicate At(st: State, c: nat, op: Op, pc: Pc) {
    WellFormed(st) && c in st.ops && st.ops[c] == op && st.pcs[c] == pc
  }

  /** The call's own step. */
  lemma CallGoes(s: State, st: State, c: nat, op: Op, pc: Pc, ev: Event)
    requires Leads(s, st) && At(st, c, op, pc) && CallEnabled(|st.servers|, c, op, pc, ev) && (ev.Take? ==> ev.m in st.net)
    ensures var t, e := DoCall(st, c, ev), CallStep(|st.servers|, st.flag, c, op, pc, ev);
            && Leads(s, t) && At(t, c, op, e.pc) && t.servers == st.servers && t.seqr == st.seqr
            && t.flag == (st.flag || e.setFlag)
            && (forall m :: m in e.sent ==> m in t.net) && (forall m :: m in st.net && ev != Take(m) ==> m in t.net)
  {
    Then(s, st, Call(c, ev));
  }

  lemma Begins(s: State, st: State, c: nat, op: Op)
    requires Leads(s, st) && WellFormed(st) && c !in st.ops
    ensures var t := DoBegin(st, c, op);
            Leads(s, t) && At(t, c, op, Begun) && t.servers == st.servers && t.seqr == st.seqr && t.flag == st.flag
  {
    Then(s, st, Begin(c, op));
  }

  lemma ServerAnswers(s: State, st: State, c: nat, op: Op, pc: Pc, m: Msg)
    requires Leads(s, st) && At(st, c, op, pc) && m in st.net && ForServer(m) && m.s < |st.servers|
    ensures var t := DoServer(st, m);
            && Leads(s, t) && At(t, c, op, pc) && |t.servers| == |st.servers| && t.seqr == st.seqr && t.flag == st.flag
            && (forall i :: 0 <= i < |st.servers| && i != m.s ==> t.servers[i] == st.servers[i])
            && (forall x :: x in st.net && x != m ==> x in t.net)
            && (m.StoreReq? ==> StoreRep(m.c, m.s, m.pos, StoreAt(st.servers[m.s], m.pos, m.entry).1) in t.net)
            && (m.SealReq? ==> SealRep(m.c, m.s, st.servers[m.s].tail) in t.net)
            && (m.ReadReq? ==> ReadRep(m.c, m.s, m.pos, ReadAt(st.servers[m.s], m.pos)) in t.net)
            && (m.TrimReq? ==> TrimRep(m.c, m.s, m.pos) in t.net)
  {
    Then(s, st, AtServer(m));
  }

  lemma SequencerAnswers(s: State, st: State, c: nat, op: Op, pc: Pc, m: Msg)
    requires Leads(s, st) && At(st, c, op, pc) && m in st.net && ForSequencer(m)
    ensures var t := DoSequencer(st, m);
            && Leads(s, t) && At(t, c, op, pc) && t.servers == st.servers && t.flag == st.flag
            && (m.NextReq? ==> NextRep(m.c, if st.seqr.sealed then None else Some(st.seqr.next)) in t.net)
            && (m.SeqSealReq? ==> SeqSealRep(m.c, st.seqr.next) in t.net)
            && (m.TailReq? ==> TailRep(m.c, st.seqr.next, m.sealed) in t.net)
            && (!m.NextReq? || st.seqr.sealed ==> t.seqr.next == st.seqr.next)
  {
    Then(s, st, AtSequencer(m));
  }

  // ---- Append ----

  ghost predicate StoresSent(st: State, c: nat, e: Entry, pos: LogPos, from: nat, to: nat) {
    forall i :: from <= i < to ==> StoreReq(c, i, pos, e) in st.net
  }

  lemma {:induction false} FanStores(s: State, st: State, c: nat, e: Entry, pos: LogPos, k: nat) returns (t: State)
    requires Leads(s, st) && At(st, c, AppendOp(e), FanStore(pos, k)) && k <= |st.servers| && StoresSent(st, c, e, pos, 0, k)
    ensures Leads(s, t) && At(t, c, AppendOp(e), CollectStore(pos, 0, 0, None, {})) && t.servers == st.servers
    ensures StoresSent(t, c, e, pos, 0, |st.servers|)
    decreases |st.servers| - k
  {
    CallGoes(s, st, c, AppendOp(e), FanStore(pos, k), Go);
    t := DoCall(st, c, Go);
    if k < |st.servers| {
      t := FanStores(s, t, c, e, pos, k + 1);
    }
  }

  /** The unsealed ones among the first i servers. */
  function Open(sealed: seq<bool>, i: nat): set<nat>
    requires i <= |sealed|
  {
    set k | 0 <= k < i && !sealed[k]
  }

  lemma OpenStep(sealed: seq<bool>, i: nat)
    requires i < |sealed|
    ensures Open(sealed, i + 1) == if sealed[i] then Open(sealed, i) else Open(sealed, i) + {i}
    ensures i !in Open(sealed, i)
  {
  }

  ghost predicate SealedAs(st: State, sealed: seq<bool>) {
    |sealed| == |st.servers| && forall i :: 0 <= i < |sealed| ==> st.servers[i].sealed == sealed[i]
  }

  lemma CollectOneStore(s: State, st: State, c: nat, e: Entry, sealed: seq<bool>) returns (t: State)
    requires Leads(s, st) && c in st.pcs && st.pcs[c].CollectStore? && At(st, c, AppendOp(e), st.pcs[c]) && SealedAs(st, sealed)
    requires st.pcs[c].i < |sealed| && StoresSent(st, c, e, st.pcs[c].pos, st.pcs[c].i, |sealed|)
    ensures c in t.pcs && t.pcs[c].CollectStore? && Leads(s, t) && At(t, c, AppendOp(e), t.pcs[c]) && SealedAs(t, sealed)
    ensures t.pcs[c].pos == st.pcs[c].pos && t.pcs[c].i == st.pcs[c].i + 1
    ensures StoresSent(t, c, e, t.pcs[c].pos, t.pcs[c].i, |sealed|)
    ensures var i := st.pcs[c].i;
            if sealed[i] then t.pcs[c].acks == st.pcs[c].acks && t.pcs[c].ackCount == st.pcs[c].ackCount
            else t.pcs[c].acks == st.pcs[c].acks + {i} && t.pcs[c].ackCount == st.pcs[c].ackCount + 1
  {
    var pc := st.pcs[c];
    var m := StoreReq(c, pc.i, pc.pos, e);
    ServerAnswers(s, st, c, AppendOp(e), pc, m);
    var st1 := DoServer(st, m);
    var rep := StoreRep(c, pc.i, pc.pos, StoreAt(st.servers[pc.i], pc.pos, e).1);
    CallGoes(s, st1, c, AppendOp(e), pc, Take(rep));
    t := DoCall(st1, c, Take(rep));
  }

  lemma {:induction false} CollectStores(s: State, st: State, c: nat, e: Entry, sealed: seq<bool>) returns (t: State)
    requires Leads(s, st) && c in st.pcs && st.pcs[c].CollectStore? && At(st, c, AppendOp(e), st.pcs[c]) && SealedAs(st, sealed)
    requires st.pcs[c].i <= |sealed| && StoresSent(st, c, e, st.pcs[c].pos, st.pcs[c].i, |sealed|)
    requires st.pcs[c].acks == Open(sealed, st.pcs[c].i) && st.pcs[c].ackCount == |st.pcs[c].acks|
    requires 2 * |Open(sealed, |sealed|)| > |sealed|
    ensures Leads(s, t) && At(t, c, AppendOp(e), AppendOk(st.pcs[c].pos, Open(sealed, |sealed|)))
    decreases |sealed| - st.pcs[c].i
  {
    if st.pcs[c].i == |sealed| {
      QuorumIsMajority(|sealed|, |st.pcs[c].acks|);
      CallGoes(s, st, c, AppendOp(e), st.pcs[c], Go);
      t := DoCall(st, c, Go);
    } else {
      OpenStep(sealed, st.pcs[c].i);
      var u := CollectOneStore(s, st, c, e, sealed);
      t := CollectStores(s, u, c, e, sealed);
    }
  }

  /** A new append on an unsealed loglet, with a bare majority of its servers unsealed, can be acknowledged,
      at the next position and by exactly those servers. */
  lemma AppendCompletes(st: State, c: nat, e: Entry, sealed: seq<bool>) returns (t: State)
    requires WellFormed(st) && c !in st.ops && !st.flag && !st.seqr.sealed && SealedAs(st, sealed)
    requires 2 * |Open(sealed, |sealed|)| > |sealed|
    ensures Leads(st, t) && At(t, c, AppendOp(e), AppendOk(st.seqr.next, Open(sealed, |sealed|)))
  {
    Start(st);
    Begins(st, st, c, AppendOp(e));
    var s1 := DoBegin(st, c, AppendOp(e));
    CallGoes(st, s1, c, AppendOp(e), Begun, Go);
    var s2 := DoCall(s1, c, Go);
    SequencerAnswers(st, s2, c, AppendOp(e), WaitPos, NextReq(c));
    var s3 := DoSequencer(s2, NextReq(c));
    var rep := Take(NextRep(c, Some(st.seqr.next)));
    CallGoes(st, s3, c, AppendOp(e), WaitPos, rep);
    var s4 := FanStores(st, DoCall(s3, c, rep), c, e, st.seqr.next, 0);
    t := CollectStores(st, s4, c, e, sealed);
  }

  /** A new append on a sealed loglet is told so, with the final tail. */
  lemma SealedAppendCompletes(st: State, c: nat, e: Entry) returns (t: State)
    requires Inv(st) && c !in st.ops && st.seqr.sealed
    ensures Leads(st, t) && At(t, c, AppendOp(e), AppendSealed(st.seqr.next))
  {
    Start(st);
    Begins(st, st, c, AppendOp(e));
    var s1 := DoBegin(st, c, AppendOp(e));
    CallGoes(st, s1, c, AppendOp(e), Begun, Go);
    var s2 := DoCall(s1, c, Go);
    if !st.flag {
      SequencerAnswers(st, s2, c, AppendOp(e), WaitPos, NextReq(c));
      var s3 := DoSequencer(s2, NextReq(c));
      CallGoes(st, s3, c, AppendOp(e), WaitPos, Take(NextRep(c, None)));
      s2 := DoCall(s3, c, Take(NextRep(c, None)));
    }
    SequencerAnswers(st, s2, c, AppendOp(e), WaitSealedTail, TailReq(c, true));
    var s4 := DoSequencer(s2, TailReq(c, true));
    var rep := Take(TailRep(c, st.seqr.next, true));
    CallGoes(st, s4, c, AppendOp(e), WaitSealedTail, rep);
    t := DoCall(s4, c, rep);
  }

  // ---- check_tail ----

  lemma TailCompletes(st: State, c: nat) returns (t: State)
    requires WellFormed(st) && c !in st.ops
    ensures Leads(st, t) && At(t, c, CheckTailOp, TailOk(st.seqr.next))
  {
    Start(st);
    Begins(st, st, c, CheckTailOp);
    var s1 := DoBegin(st, c, CheckTailOp);
    CallGoes(st, s1, c, CheckTailOp, Begun, Go);
    var s2 := DoCall(s1, c, Go);
    SequencerAnswers(st, s2, c, CheckTailOp, WaitTail, TailReq(c, false));
    var s3 := DoSequencer(s2, TailReq(c, false));
    var rep := Take(TailRep(c, st.seqr.next, false));
    CallGoes(st, s3, c, CheckTailOp, WaitTail, rep);
    t := DoCall(s3, c, rep);
  }

  // ---- Seal ----

  ghost predicate SealsSent(st: State, c: nat, from: nat, to: nat) {
    forall i :: from <= i < to ==> SealReq(c, i) in st.net
  }

  lemma {:induction false} FanSeals(s: State, st: State, c: nat, tail: LogPos, k: nat) returns (t: State)
    requires Leads(s, st) && At(st, c, SealOp, FanSeal(tail, k)) && k <= |st.servers| && SealsSent(st, c, 0, k)
    ensures Leads(s, t) && At(t, c, SealOp, CollectSeal(tail, 0, 0, LOG_POS_BEGIN, map[])) && t.servers == st.servers
    ensures SealsSent(t, c, 0, |st.servers|)
    decreases |st.servers| - k
  {
    CallGoes(s, st, c, SealOp, FanSeal(tail, k), Go);
    t := DoCall(st, c, Go);
    if k < |st.servers| {
      t := FanSeals(s, t, c, tail, k + 1);
    }
  }

  lemma CollectOneSeal(s: State, st: State, c: nat) returns (t: State)
    requires Leads(s, st) && c in st.pcs && st.pcs[c].CollectSeal? && At(st, c, SealOp, st.pcs[c])
    requires st.pcs[c].i < |st.servers| && SealsSent(st, c, st.pcs[c].i, |st.servers|)
    ensures c in t.pcs && t.pcs[c].CollectSeal? && Leads(s, t) && At(t, c, SealOp, t.pcs[c]) && |t.servers| == |st.servers|
    ensures t.pcs[c].seqTail == st.pcs[c].seqTail && t.pcs[c].i == st.pcs[c].i + 1 && t.pcs[c].sealedCount == st.pcs[c].sealedCount + 1
    ensures SealsSent(t, c, t.pcs[c].i, |st.servers|)
  {
    var pc := st.pcs[c];
    ServerAnswers(s, st, c, SealOp, pc, SealReq(c, pc.i));
    var st1 := DoServer(st, SealReq(c, pc.i));
    var rep := Take(SealRep(c, pc.i, st.servers[pc.i].tail));
    CallGoes(s, st1, c, SealOp, pc, rep);
    t := DoCall(st1, c, rep);
  }

  lemma {:induction false} CollectSeals(s: State, st: State, c: nat) returns (t: State)
    requires Leads(s, st) && c in st.pcs && st.pcs[c].CollectSeal? && At(st, c, SealOp, st.pcs[c])
    requires st.pcs[c].i <= |st.servers| && SealsSent(st, c, st.pcs[c].i, |st.servers|) && st.pcs[c].sealedCount == st.pcs[c].i
    ensures Leads(s, t) && c in t.pcs && t.pcs[c].SealOk? && At(t, c, SealOp, t.pcs[c]) && t.pcs[c].tail >= st.pcs[c].seqTail
    decreases |st.servers| - st.pcs[c].i
  {
    if st.pcs[c].i == |st.servers| {
      QuorumIsMajority(|st.servers|, |st.servers|);
      CallGoes(s, st, c, SealOp, st.pcs[c], Go);
      t := DoCall(st, c, Go);
    } else {
      var u := CollectOneSeal(s, st, c);
      t := CollectSeals(s, u, c);
    }
  }

  /** A new seal can always succeed. */
  lemma SealCompletes(st: State, c: nat) returns (t: State)
    requires Inv(st) && c !in st.ops
    ensures Leads(st, t) && c in t.pcs && t.pcs[c].SealOk? && t.pcs[c].tail >= st.seqr.next
    ensures Inv(t)
  {
    Start(st);
    Begins(st, st, c, SealOp);
    var s1 := DoBegin(st, c, SealOp);
    CallGoes(st, s1, c, SealOp, Begun, Go);
    var s2 := DoCall(s1, c, Go);
    SequencerAnswers(st, s2, c, SealOp, WaitSeqSeal, SeqSealReq(c));
    var s3 := DoSequencer(s2, SeqSealReq(c));
    var rep := Take(SeqSealRep(c, st.seqr.next));
    CallGoes(st, s3, c, SealOp, WaitSeqSeal, rep);
    var s4 := FanSeals(st, DoCall(s3, c, rep), c, st.seqr.next, 0);
    t := CollectSeals(st, s4, c);
    LeadsKeeps(st, t);
  }

  // ---- Read ----

  lemma AskOne(s: State, st: State, c: nat, pos: LogPos, i: nat) returns (t: State, r: ReadReply)
    requires Leads(s, st) && At(st, c, ReadOp(pos), ReadFrom(i)) && i < |st.servers|
    ensures Leads(s, t) && At(t, c, ReadOp(pos), ReadWait(i)) && |t.servers| == |st.servers| && t.ops == st.ops
    ensures ReadRep(c, i, pos, r) in t.net
  {
    CallGoes(s, st, c, ReadOp(pos), ReadFrom(i), Go);
    var st0 := DoCall(st, c, Go);
    ServerAnswers(s, st0, c, ReadOp(pos), ReadWait(i), ReadReq(c, i, pos));
    t, r := DoServer(st0, ReadReq(c, i, pos)), ReadAt(st0.servers[i], pos);
  }

  lemma ReadOne(s: State, st: State, c: nat, pos: LogPos, i: nat) returns (t: State)
    requires Leads(s, st) && At(st, c, ReadOp(pos), ReadFrom(i)) && i < |st.servers|
    ensures Leads(s, t) && c in t.pcs && At(t, c, ReadOp(pos), t.pcs[c]) && |t.servers| == |st.servers|
    ensures t.pcs[c].ReadOk? || t.pcs[c].ReadTrimmed? || t.pcs[c] == ReadFrom(i + 1)
    ensures t.ops == st.ops
  {
    var st1, r := AskOne(s, st, c, pos, i);
    var rep := Take(ReadRep(c, i, pos, r));
    CallGoes(s, st1, c, ReadOp(pos), ReadWait(i), rep);
    t := DoCall(st1, c, rep);
  }

  lemma {:induction false} Reads(s: State, st: State, c: nat, pos: LogPos, i: nat) returns (t: State)
    requires Leads(s, st) && At(st, c, ReadOp(pos), ReadFrom(i)) && i <= |st.servers|
    ensures Leads(s, t) && c in t.pcs && At(t, c, ReadOp(pos), t.pcs[c]) && (t.pcs[c].ReadOk? || t.pcs[c].ReadTrimmed?)
    ensures t.ops == st.ops
    decreases |st.servers| - i
  {
    if i == |st.servers| {
      CallGoes(s, st, c, ReadOp(pos), ReadFrom(i), Go);
      t := DoCall(st, c, Go);
    } else {
      t := ReadOne(s, st, c, pos, i);
      if t.pcs[c] == ReadFrom(i + 1) {
        t := Reads(s, t, c, pos, i + 1);
      }
    }
  }

  lemma ReadFromBegun(s: State, c: nat, pos: LogPos) returns (t: State)
    requires At(s, c, ReadOp(pos), Begun)
    ensures Leads(s, t) && c in t.pcs && (t.pcs[c].ReadOk? || t.pcs[c].ReadTrimmed?) && t.ops == s.ops
  {
    Start(s);
    CallGoes(s, s, c, ReadOp(pos), Begun, Go);
    t := Reads(s, DoCall(s, c, Go), c, pos, 0);
  }

  /** A new read can always be answered, and at an acknowledged position that no trim has asked to pass the
      answer is the acknowledged entry. */
  lemma ReadCompletes(st: State, c: nat, pos: LogPos) returns (t: State)
    requires Inv(st) && c !in st.ops
    ensures Leads(st, t) && c in t.pcs && (t.pcs[c].ReadOk? || t.pcs[c].ReadTrimmed?)
    ensures forall d | d in st.pcs && st.pcs[d].AppendOk? && st.pcs[d].pos == pos ::
              !TrimAskedBeyond(st, pos) ==> d in st.ops && st.ops[d].AppendOp? && t.pcs[c] == ReadOk(Some(st.ops[d].entry))
  {
    Start(st);
    Begins(st, st, c, ReadOp(pos));
    var s1 := DoBegin(st, c, ReadOp(pos));
    t := ReadFromBegun(s1, c, pos);
    LeadsOn(st, s1, t);
    StepKeeps(st, Begin(c, ReadOp(pos)));
    LeadsKeeps(s1, t);
    forall d | d in st.pcs && st.pcs[d].AppendOk? && st.pcs[d].pos == pos && !TrimAskedBeyond(st, pos)
      ensures d in st.ops && st.ops[d].AppendOp? && t.pcs[c] == ReadOk(Some(st.ops[d].entry))
    {
      InvPc(st, d);
      InvPc(t, d);
      InvPc(t, c);
      ReadsAcked(st, s1, t, c, pos, d);
    }
  }

  lemma InvPc(st: State, c: nat)
    requires Inv(st) && (c in st.ops || c in st.pcs)
    ensures WellFormed(st) && c in st.ops && c in st.pcs && PcOk(st, c)
    ensures st.pcs[c].AppendOk? ==> Belongs(st, st.pcs[c].pos, st.ops[c].entry) && st.ops[c].AppendOp?
  {
  }

  lemma ReadsAcked(st: State, s1: State, t: State, c: nat, pos: LogPos, d: nat)
    requires WellFormed(st) && c !in st.ops && s1 == DoBegin(st, c, ReadOp(pos)) && Grows(s1, t) && t.ops == s1.ops
    requires c in t.pcs && (t.pcs[c].ReadOk? || t.pcs[c].ReadTrimmed?) && PcOk(t, c) && pos > 0
    requires d in st.pcs && st.pcs[d].AppendOk? && st.pcs[d].pos == pos && !TrimAskedBeyond(st, pos)
    requires d in t.pcs && PcOk(t, d) && st.ops[d].AppendOp?
    ensures t.pcs[c] == ReadOk(Some(st.ops[d].entry))
  {
    assert CallGrows(s1, t, c) && CallGrows(s1, t, d);
    assert pos in AckedNow(st);
    NoNewTrim(st, s1, t, pos, c);
  }

  lemma NoNewTrim(st: State, s1: State, t: State, pos: LogPos, c: nat)
    requires WellFormed(st) && c !in st.ops && s1 == DoBegin(st, c, ReadOp(pos)) && t.ops == s1.ops && !TrimAskedBeyond(st, pos)
    ensures !TrimAskedBeyond(t, pos)
  {
  }

  // ---- Trim ----

  ghost predicate TrimsSent(st: State, c: nat, pos: LogPos, from: nat, to: nat) {
    forall i :: from <= i < to ==> TrimReq(c, i, pos) in st.net
  }

  lemma {:induction false} FanTrims(s: State, st: State, c: nat, pos: LogPos, k: nat) returns (t: State)
    requires Leads(s, st) && At(st, c, TrimOp(pos), FanTrim(k)) && k <= |st.servers| && TrimsSent(st, c, pos, 0, k)
    ensures Leads(s, t) && At(t, c, TrimOp(pos), CollectTrim(0)) && |t.servers| == |st.servers|
    ensures TrimsSent(t, c, pos, 0, |st.servers|)
    decreases |st.servers| - k
  {
    CallGoes(s, st, c, TrimOp(pos), FanTrim(k), Go);
    t := DoCall(st, c, Go);
    if k < |st.servers| {
      t := FanTrims(s, t, c, pos, k + 1);
    }
  }

  lemma TrimOne(s: State, st: State, c: nat, pos: LogPos, i: nat) returns (t: State)
    requires Leads(s, st) && At(st, c, TrimOp(pos), CollectTrim(i)) && i < |st.servers| && TrimsSent(st, c, pos, i, |st.servers|)
    ensures Leads(s, t) && At(t, c, TrimOp(pos), CollectTrim(i)) && |t.servers| == |st.servers|
    ensures TrimsSent(t, c, pos, i + 1, |st.servers|) && TrimRep(c, i, pos) in t.net
  {
    ServerAnswers(s, st, c, TrimOp(pos), CollectTrim(i), TrimReq(c, i, pos));
    t := DoServer(st, TrimReq(c, i, pos));
  }

  lemma TakeTrim(s: State, st: State, c: nat, pos: LogPos, i: nat) returns (t: State)
    requires Leads(s, st) && At(st, c, TrimOp(pos), CollectTrim(i)) && i < |st.servers|
    requires TrimsSent(st, c, pos, i + 1, |st.servers|) && TrimRep(c, i, pos) in st.net
    ensures Leads(s, t) && At(t, c, TrimOp(pos), CollectTrim(i + 1)) && |t.servers| == |st.servers|
    ensures TrimsSent(t, c, pos, i + 1, |st.servers|)
  {
    CallGoes(s, st, c, TrimOp(pos), CollectTrim(i), Take(TrimRep(c, i, pos)));
    t := DoCall(st, c, Take(TrimRep(c, i, pos)));
  }

  lemma CollectOneTrim(s: State, st: State, c: nat, pos: LogPos, i: nat) returns (t: State)
    requires Leads(s, st) && At(st, c, TrimOp(pos), CollectTrim(i)) && i < |st.servers| && TrimsSent(st, c, pos, i, |st.servers|)
    ensures Leads(s, t) && At(t, c, TrimOp(pos), CollectTrim(i + 1)) && |t.servers| == |st.servers|
    ensures TrimsSent(t, c, pos, i + 1, |st.servers|)
  {
    var u := TrimOne(s, st, c, pos, i);
    t := TakeTrim(s, u, c, pos, i);
  }

  lemma TrimsDone(s: State, st: State, c: nat, pos: LogPos) returns (t: State)
    requires Leads(s, st) && At(st, c, TrimOp(pos), CollectTrim(|st.servers|))
    ensures Leads(s, t) && At(t, c, TrimOp(pos), TrimOk)
  {
    CallGoes(s, st, c, TrimOp(pos), CollectTrim(|st.servers|), Go);
    t := DoCall(st, c, Go);
  }

  lemma {:induction false} CollectTrims(s: State, st: State, c: nat, pos: LogPos, i: nat) returns (t: State)
    requires Leads(s, st) && At(st, c, TrimOp(pos), CollectTrim(i)) && i <= |st.servers| && TrimsSent(st, c, pos, i, |st.servers|)
    ensures Leads(s, t) && At(t, c, TrimOp(pos), TrimOk)
    decreases |st.servers| - i
  {
    if i == |st.servers| {
      t := TrimsDone(s, st, c, pos);
    } else {
      var u := CollectOneTrim(s, st, c, pos, i);
      t := CollectTrims(s, u, c, pos, i + 1);
    }
  }

  lemma TrimFromBegun(s: State, c: nat, pos: LogPos) returns (t: State)
    requires At(s, c, TrimOp(pos), Begun)
    ensures Leads(s, t) && At(t, c, TrimOp(pos), TrimOk)
  {
    Start(s);
    CallGoes(s, s, c, TrimOp(pos), Begun, Go);
    var s2 := FanTrims(s, DoCall(s, c, Go), c, pos, 0);
    t := CollectTrims(s, s2, c, pos, 0);
  }

  /** A new trim can always succeed, and then every server has trimmed up to it. */
  lemma TrimCompletes(st: State, c: nat, pos: LogPos) returns (t: State)
    requires Inv(st) && c !in st.ops
    ensures Leads(st, t) && At(t, c, TrimOp(pos), TrimOk)
    ensures forall i :: 0 <= i < |t.servers| ==> pos <= t.servers[i].trimPos
  {
    Start(st);
    Begins(st, st, c, TrimOp(pos));
    t := TrimFromBegun(DoBegin(st, c, TrimOp(pos)), c, pos);
    LeadsOn(st, DoBegin(st, c, TrimOp(pos)), t);
    LeadsKeeps(st, t);
    InvPc(t, c);
  }
}
