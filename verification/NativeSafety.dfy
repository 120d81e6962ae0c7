/** What every run of the NativeLoglet protocol keeps, for any number of servers. */
module NativeSafety {
  import opened RelosCore
  import opened NativeTasks
  import opened NativeProtocol

  // ---- The invariant is inductive ----

  ghost predicate SameServer(st: State, st': State, s: nat)
    requires WellFormed(st) && WellFormed(st') && s < |st.servers| == |st'.servers|
  {
    st'.servers[s] == st.servers[s] && st'.stored[s] == st.stored[s] && st'.sealedWith[s] == st.sealedWith[s]
  }

  /** The parts that a step touched are in order. */
  ghost predicate Touched(st: State, st': State)
    requires WellFormed(st) && WellFormed(st') && |st'.servers| == |st.servers|
  {
    && SequencerOk(st')
    && (forall s :: 0 <= s < |st.servers| ==> SameServer(st, st', s) || ServerOk(st', s))
    && (forall c :: c in st'.pcs ==> (c in st.pcs && st'.pcs[c] == st.pcs[c]) || PcOk(st', c))
    && (forall c :: c in st'.acked ==> c in st.acked || (AckedOk(st', c) && TrimmedOk(st', c)))
    && (forall c :: c in st'.pcs && st'.pcs[c].Begun? ==> c !in st'.issued)
    && (forall m :: m in st'.net ==> m in st.net || MsgOk(st', m))
    && (forall m :: m in st'.net ==> Fresh(st', m))
  }

  /** The others are kept. */
  lemma Assemble(st: State, st': State)
    requires Inv(st) && Grows(st, st') && Touched(st, st')
    ensures Inv(st')
  {
    forall s | 0 <= s < |st'.servers| ensures ServerOk(st', s) {
      if SameServer(st, st', s) { KeepServer(st, st', s); }
    }
    forall c | c in st'.pcs ensures PcOk(st', c) {
      if c in st.pcs && st'.pcs[c] == st.pcs[c] { KeepPc(st, st', c); }
    }
    forall c | c in st'.acked ensures AckedOk(st', c) {
      if c in st.acked { KeepAcked(st, st', c); }
    }
    forall c | c in st'.trimmed ensures TrimmedOk(st', c) {
      if c in st.trimmed { KeepTrims(st, st', c); }
    }
    forall m | m in st'.net ensures MsgOk(st', m) {
      if m in st.net { KeepMsg(st, st', m); }
    }
  }

  lemma BeginAckedOk(st: State, c: nat, op: Op)
    requires WellFormed(st) && c !in st.ops
    requires forall d :: d in st.pcs ==> PcOk(st, d)
    ensures AckedOk(DoBegin(st, c, op), c) && TrimmedOk(DoBegin(st, c, op), c)
  {
  }

  lemma BeginKeeps(st: State, c: nat, op: Op)
    requires Inv(st) && Enabled(st, Begin(c, op))
    ensures Inv(DoBegin(st, c, op))
  {
    StepGrows(st, Begin(c, op));
    BeginTouched(st, c, op);
    Assemble(st, DoBegin(st, c, op));
  }

  lemma BeginTouched(st: State, c: nat, op: Op)
    requires WellFormed(st) && c !in st.ops && SequencerOk(st)
    requires forall d :: d in st.pcs ==> PcOk(st, d)
    requires forall d :: d in st.pcs && st.pcs[d].Begun? ==> d !in st.issued
    requires forall m :: m in st.net ==> Fresh(st, m)
    ensures WellFormed(DoBegin(st, c, op)) && Touched(st, DoBegin(st, c, op))
  {
    BeginAckedOk(st, c, op);
    var st' := DoBegin(st, c, op);
    forall m | m in st'.net ensures Fresh(st', m) {
      assert Fresh(st, m);
    }
  }

  /** An acknowledged position has a server that acknowledged it, so not all servers missed it. */
  lemma NotMissedByAll(st: State, c: nat, p: LogPos)
    requires WellFormed(st) && c in st.acked && p in st.acked[c] && AckedOk(st, c)
    requires PcOk(st, st.issued[p - 1])
    ensures !MissedBelow(st, c, p, |st.servers|)
  {
    var acks := st.pcs[st.issued[p - 1]].acks;
    assert |acks| > 0;
    var s :| s in acks;
    assert !Missed(st, c, p, s);
  }

  lemma StoreCallKeeps(st: State, c: nat, ev: Event)
    requires WellFormed(st) && Enabled(st, Call(c, ev)) && PcOk(st, c)
    requires st.pcs[c].WaitPos? || st.pcs[c].FanStore? || st.pcs[c].CollectStore?
    requires ev.Take? ==> MsgOk(st, ev.m)
    ensures WellFormed(DoCall(st, c, ev)) && PcOk(DoCall(st, c, ev), c)
  {
  }

  lemma SealCallKeeps(st: State, c: nat, ev: Event)
    requires WellFormed(st) && Enabled(st, Call(c, ev)) && PcOk(st, c)
    requires st.pcs[c].WaitSeqSeal? || st.pcs[c].FanSeal? || st.pcs[c].CollectSeal?
    requires ev.Take? ==> MsgOk(st, ev.m)
    requires forall s :: 0 <= s < |st.servers| ==> st.servers[s].tail <= st.seqr.next
    requires st.seqr.next >= 1
    ensures WellFormed(DoCall(st, c, ev)) && PcOk(DoCall(st, c, ev), c)
  {
  }

  lemma ReadCallKeeps(st: State, c: nat, ev: Event)
    requires WellFormed(st) && Enabled(st, Call(c, ev)) && PcOk(st, c)
    requires st.pcs[c].ReadFrom? || st.pcs[c].ReadWait?
    requires ev.Take? ==> MsgOk(st, ev.m)
    requires forall p :: p in st.acked[c] ==> !MissedBelow(st, c, p, |st.servers|)
    requires Grows(st, DoCall(st, c, ev))
    ensures PcOk(DoCall(st, c, ev), c)
  {
    var st' := DoCall(st, c, ev);
    var p, i := st.ops[c].pos, st.pcs[c].i;
    KeepMissed(st, st', c, p, i);
    if ev.Take? && ev.m.read.NotFound? { KeepMissedAt(st, st', c, p, i); }
    if ev.Take? && ev.m.read.Found? { KeepBelongs(st, st', p, ev.m.read.entry); }
  }

  lemma OtherCallKeeps(st: State, c: nat, ev: Event)
    requires WellFormed(st) && Enabled(st, Call(c, ev)) && PcOk(st, c) && (st.flag ==> st.seqr.sealed)
    requires var pc := st.pcs[c]; pc.Begun? || pc.FanTrim? || pc.CollectTrim? || pc.WaitTail? || pc.WaitSealedTail?
    requires ev.Take? ==> MsgOk(st, ev.m)
    ensures WellFormed(DoCall(st, c, ev)) && PcOk(DoCall(st, c, ev), c)
  {
  }

  lemma CallPcKeeps(st: State, c: nat, ev: Event)
    requires WellFormed(st) && Enabled(st, Call(c, ev)) && PcOk(st, c) && st.seqr.next >= 1 && (st.flag ==> st.seqr.sealed)
    requires ev.Take? ==> MsgOk(st, ev.m)
    requires forall s :: 0 <= s < |st.servers| ==> st.servers[s].tail <= st.seqr.next
    requires forall p :: p in st.acked[c] ==> !MissedBelow(st, c, p, |st.servers|)
    requires Grows(st, DoCall(st, c, ev))
    ensures PcOk(DoCall(st, c, ev), c)
  {
    var pc := st.pcs[c];
    if pc.WaitPos? || pc.FanStore? || pc.CollectStore? {
      StoreCallKeeps(st, c, ev);
    } else if pc.WaitSeqSeal? || pc.FanSeal? || pc.CollectSeal? {
      SealCallKeeps(st, c, ev);
    } else if pc.ReadFrom? || pc.ReadWait? {
      ReadCallKeeps(st, c, ev);
    } else {
      OtherCallKeeps(st, c, ev);
    }
  }

  lemma CallFlagOk(st: State, c: nat, ev: Event)
    requires WellFormed(st) && Enabled(st, Call(c, ev)) && PcOk(st, c) && SequencerOk(st)
    requires ev.Take? ==> MsgOk(st, ev.m)
    ensures SequencerOk(DoCall(st, c, ev))
    ensures !DoCall(st, c, ev).pcs[c].Begun?
  {
  }

  lemma CallSendsOk(st: State, c: nat, ev: Event)
    requires WellFormed(st) && Enabled(st, Call(c, ev)) && PcOk(st, c) && SequencerOk(st)
    requires forall s :: 0 <= s < |st.servers| ==> ServerOk(st, s)
    requires ev.Take? ==> MsgOk(st, ev.m)
    requires st.pcs[c].Begun? ==> c !in st.issued
    ensures var st' := DoCall(st, c, ev);
            forall m :: m in st'.net && m !in st.net ==> MsgOk(st', m) && Fresh(st', m)
  {
    var pc := st.pcs[c];
    if pc.FanStore? && pc.k < |st.servers| {
      assert ServerOk(st, pc.k);
      assert pc.pos in st.stored[pc.k] ==> Placed(st, pc.k, pc.pos);
    }
  }

  /** A call's own step leaves earlier messages fresh. */
  lemma MoveFresh(st: State, st': State, c: nat)
    requires WellFormed(st) && WellFormed(st') && st'.issued == st.issued && st'.stored == st.stored
    requires st'.pcs.Keys == st.pcs.Keys && st'.servers == st.servers
    requires c in st.pcs && !st'.pcs[c].Begun? && forall d :: d in st.pcs && d != c ==> st'.pcs[d] == st.pcs[d]
    requires forall m :: m in st.net ==> Fresh(st, m)
    ensures forall m :: m in st.net ==> Fresh(st', m)
  {
  }

  lemma CallKeeps(st: State, c: nat, ev: Event)
    requires Inv(st) && Enabled(st, Call(c, ev))
    ensures Inv(DoCall(st, c, ev))
  {
    var st' := DoCall(st, c, ev);
    StepGrows(st, Call(c, ev));
    forall p | p in st.acked[c] ensures !MissedBelow(st, c, p, |st.servers|) {
      assert AckedOk(st, c) && PcOk(st, st.issued[p - 1]);
      NotMissedByAll(st, c, p);
    }
    forall s | 0 <= s < |st.servers| ensures st.servers[s].tail <= st.seqr.next {
      assert ServerOk(st, s);
    }
    CallPcKeeps(st, c, ev);
    CallTouched(st, c, ev);
    Assemble(st, st');
  }

  lemma CallTouched(st: State, c: nat, ev: Event)
    requires WellFormed(st) && Enabled(st, Call(c, ev)) && PcOk(st, c) && SequencerOk(st)
    requires forall s :: 0 <= s < |st.servers| ==> ServerOk(st, s)
    requires ev.Take? ==> MsgOk(st, ev.m)
    requires forall d :: d in st.pcs && st.pcs[d].Begun? ==> d !in st.issued
    requires forall m :: m in st.net ==> Fresh(st, m)
    requires WellFormed(DoCall(st, c, ev)) && PcOk(DoCall(st, c, ev), c)
    ensures Touched(st, DoCall(st, c, ev))
  {
    CallFlagOk(st, c, ev);
    CallSendsOk(st, c, ev);
    MoveFresh(st, DoCall(st, c, ev), c);
  }

  lemma AbandonKeeps(st: State, c: nat)
    requires Inv(st) && Enabled(st, Abandon(c))
    ensures Inv(DoAbandon(st, c))
  {
    StepGrows(st, Abandon(c));
    AbandonTouched(st, c);
    Assemble(st, DoAbandon(st, c));
  }

  lemma AbandonTouched(st: State, c: nat)
    requires WellFormed(st) && Enabled(st, Abandon(c)) && SequencerOk(st)
    requires forall d :: d in st.pcs && st.pcs[d].Begun? ==> d !in st.issued
    requires forall m :: m in st.net ==> Fresh(st, m)
    ensures WellFormed(DoAbandon(st, c)) && Touched(st, DoAbandon(st, c))
  {
    MoveFresh(st, DoAbandon(st, c), c);
  }

  lemma LoseKeeps(st: State, m: Msg)
    requires Inv(st) && m in st.net
    ensures Inv(st.(net := st.net - {m}))
  {
    StepGrows(st, Lose(m));
    LoseTouched(st, m);
    Assemble(st, st.(net := st.net - {m}));
  }

  lemma LoseTouched(st: State, m: Msg)
    requires WellFormed(st) && SequencerOk(st)
    requires forall d :: d in st.pcs && st.pcs[d].Begun? ==> d !in st.issued
    requires forall m' :: m' in st.net ==> Fresh(st, m')
    ensures Touched(st, st.(net := st.net - {m}))
  {
    var st' := st.(net := st.net - {m});
    forall m' | m' in st'.net ensures Fresh(st', m') {
      assert Fresh(st, m');
    }
  }

  lemma SequencerFresh(st: State, m: Msg)
    requires WellFormed(st) && Enabled(st, AtSequencer(m))
    requires forall m' :: m' in st.net ==> Fresh(st, m')
    ensures var st' := DoSequencer(st, m); WellFormed(st') && forall m' :: m' in st'.net ==> Fresh(st', m')
  {
  }

  lemma SequencerOwnOk(st: State, m: Msg)
    requires WellFormed(st) && Enabled(st, AtSequencer(m)) && SequencerOk(st) && MsgOk(st, m) && Fresh(st, m)
    requires m.TailReq? ==> AckedOk(st, m.c)
    ensures var st' := DoSequencer(st, m);
            SequencerOk(st') && forall m' :: m' in st'.net && m' !in st.net ==> MsgOk(st', m')
  {
  }

  lemma SequencerKeeps(st: State, m: Msg)
    requires Inv(st) && Enabled(st, AtSequencer(m))
    ensures Inv(DoSequencer(st, m))
  {
    StepGrows(st, AtSequencer(m));
    assert MsgOk(st, m) && Fresh(st, m);
    if m.TailReq? { assert AckedOk(st, m.c); }
    SequencerTouched(st, m);
    Assemble(st, DoSequencer(st, m));
  }

  lemma SequencerTouched(st: State, m: Msg)
    requires WellFormed(st) && Enabled(st, AtSequencer(m)) && SequencerOk(st) && MsgOk(st, m)
    requires m.TailReq? ==> AckedOk(st, m.c)
    requires forall d :: d in st.pcs && st.pcs[d].Begun? ==> d !in st.issued
    requires forall m' :: m' in st.net ==> Fresh(st, m')
    ensures WellFormed(DoSequencer(st, m)) && Touched(st, DoSequencer(st, m))
  {
    assert Fresh(st, m);
    SequencerFresh(st, m);
    SequencerOwnOk(st, m);
  }

  lemma ServerFresh(st: State, m: Msg)
    requires WellFormed(st) && Enabled(st, AtServer(m))
    requires forall m' :: m' in st.net ==> MsgOk(st, m') && Fresh(st, m')
    ensures var st' := DoServer(st, m); WellFormed(st') && forall m' :: m' in st'.net ==> Fresh(st', m')
  {
  }

  lemma StoreServerOk(st: State, m: Msg)
    requires WellFormed(st) && Enabled(st, AtServer(m)) && m.StoreReq? && SequencerOk(st)
    requires MsgOk(st, m) && Fresh(st, m) && ServerOk(st, m.s)
    ensures var st' := DoServer(st, m);
            WellFormed(st') && ServerOk(st', m.s) && forall m' :: m' in st'.net && m' !in st.net ==> MsgOk(st', m')
  {
  }

  lemma SealServerOk(st: State, m: Msg)
    requires WellFormed(st) && Enabled(st, AtServer(m)) && m.SealReq?
    requires MsgOk(st, m) && ServerOk(st, m.s)
    ensures var st' := DoServer(st, m);
            WellFormed(st') && ServerOk(st', m.s) && forall m' :: m' in st'.net && m' !in st.net ==> MsgOk(st', m')
  {
  }

  lemma ReadServerOk(st: State, m: Msg)
    requires WellFormed(st) && Enabled(st, AtServer(m)) && m.ReadReq?
    requires MsgOk(st, m) && ServerOk(st, m.s) && AckedOk(st, m.c) && TrimmedOk(st, m.c)
    requires m.pos in st.acked[m.c] ==> PcOk(st, st.issued[m.pos - 1])
    ensures var st' := DoServer(st, m);
            WellFormed(st') && forall m' :: m' in st'.net && m' !in st.net ==> MsgOk(st', m')
  {
  }

  lemma TrimServerOk(st: State, m: Msg)
    requires WellFormed(st) && Enabled(st, AtServer(m)) && m.TrimReq? && MsgOk(st, m) && ServerOk(st, m.s)
    ensures var st' := DoServer(st, m); WellFormed(st') && ServerOk(st', m.s)
  {
  }

  /** What the server did and what it replied is in order. */
  lemma HandledOk(st: State, m: Msg)
    requires WellFormed(st) && Enabled(st, AtServer(m)) && SequencerOk(st)
    requires MsgOk(st, m) && Fresh(st, m) && ServerOk(st, m.s)
    requires m.ReadReq? ==> AckedOk(st, m.c) && TrimmedOk(st, m.c) && (m.pos in st.acked[m.c] ==> PcOk(st, st.issued[m.pos - 1]))
    ensures var st' := DoServer(st, m);
            && WellFormed(st') && (m.ReadReq? || ServerOk(st', m.s))
            && forall m' :: m' in st'.net && m' !in st.net ==> MsgOk(st', m')
  {
    match m
    case StoreReq(_, _, _, _) => StoreServerOk(st, m);
    case SealReq(_, _) => SealServerOk(st, m);
    case ReadReq(_, _, _) => ReadServerOk(st, m);
    case TrimReq(_, _, _) => TrimServerOk(st, m);
  }

  lemma ServerTouched(st: State, m: Msg)
    requires WellFormed(st) && Enabled(st, AtServer(m)) && SequencerOk(st)
    requires forall d :: d in st.pcs && st.pcs[d].Begun? ==> d !in st.issued
    requires forall m' :: m' in st.net ==> MsgOk(st, m') && Fresh(st, m')
    requires WellFormed(DoServer(st, m)) && (m.ReadReq? || ServerOk(DoServer(st, m), m.s))
    requires forall m' :: m' in DoServer(st, m).net && m' !in st.net ==> MsgOk(DoServer(st, m), m')
    ensures |DoServer(st, m).servers| == |st.servers| && Touched(st, DoServer(st, m))
  {
    ServerFresh(st, m);
    ServerLocal(st, m);
  }

  lemma ServerKeeps(st: State, m: Msg)
    requires Inv(st) && Enabled(st, AtServer(m))
    ensures Inv(DoServer(st, m))
  {
    StepGrows(st, AtServer(m));
    assert MsgOk(st, m) && Fresh(st, m) && ServerOk(st, m.s);
    if m.ReadReq? {
      assert AckedOk(st, m.c) && TrimmedOk(st, m.c) && (m.pos in st.acked[m.c] ==> PcOk(st, st.issued[m.pos - 1]));
    }
    HandledOk(st, m);
    ServerTouched(st, m);
    Assemble(st, DoServer(st, m));
  }

  lemma ServerLocal(st: State, m: Msg)
    requires WellFormed(st) && Enabled(st, AtServer(m)) && SequencerOk(st)
    ensures var st' := DoServer(st, m);
            && WellFormed(st') && SequencerOk(st') && st'.seqr == st.seqr
            && st'.pcs == st.pcs && st'.acked == st.acked && st'.issued == st.issued
            && |st'.servers| == |st.servers|
            && (forall s :: 0 <= s < |st.servers| && s != m.s ==> SameServer(st, st', s))
            && (m.ReadReq? ==> SameServer(st, st', m.s))
  {
  }

  lemma StepKeeps(st: State, a: Action)
    requires Inv(st) && Enabled(st, a)
    ensures Inv(Next(st, a))
    ensures Grows(st, Next(st, a))
  {
    StepGrows(st, a);
    match a
    case Begin(c, op) => BeginKeeps(st, c, op);
    case Call(c, ev) => CallKeeps(st, c, ev);
    case Abandon(c) => AbandonKeeps(st, c);
    case AtSequencer(m) => SequencerKeeps(st, m);
    case AtServer(m) => ServerKeeps(st, m);
    case Lose(m) => LoseKeeps(st, m);
  }
}
