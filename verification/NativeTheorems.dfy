/** The promises of NativeLoglet, over every run with any number of servers and calls. */
module NativeTheorems {
  import opened RelosCore
  import opened NativeTasks
  import opened NativeProtocol
  import opened NativeSafety
  import LogletSpec

  ghost predicate Run(n: nat, tr: seq<State>, acts: seq<Action>) {
    && |tr| == |acts| + 1
    && Init(tr[0], n)
    && forall i :: 0 <= i < |acts| ==> WellFormed(tr[i]) && Enabled(tr[i], acts[i]) && tr[i + 1] == Next(tr[i], acts[i])
  }

  lemma {:induction false} RunInv(n: nat, tr: seq<State>, acts: seq<Action>, i: nat)
    requires Run(n, tr, acts) && i < |tr|
    ensures Inv(tr[i]) && |tr[i].servers| == n
  {
    if i == 0 {
      InitInv(tr[0], n);
    } else {
      RunInv(n, tr, acts, i - 1);
      StepKeeps(tr[i - 1], acts[i - 1]);
    }
  }

  lemma {:induction false} RunGrows(n: nat, tr: seq<State>, acts: seq<Action>, i: nat, j: nat)
    requires Run(n, tr, acts) && i <= j < |tr|
    ensures Grows(tr[i], tr[j])
    decreases j - i
  {
    RunInv(n, tr, acts, i);
    if i < j {
      StepKeeps(tr[i], acts[i]);
      RunGrows(n, tr, acts, i + 1, j);
      GrowsTransitive(tr[i], tr[i + 1], tr[j]);
    }
  }

  lemma RunPc(n: nat, tr: seq<State>, acts: seq<Action>, i: nat, c: nat)
    requires Run(n, tr, acts) && i < |tr| && WellFormed(tr[i]) && c in tr[i].pcs
    ensures PcOk(tr[i], c)
  {
    RunInv(n, tr, acts, i);
  }

  lemma RunShape(n: nat, tr: seq<State>, acts: seq<Action>, i: nat)
    requires Run(n, tr, acts) && i < |tr|
    ensures WellFormed(tr[i]) && SequencerOk(tr[i])
  {
    RunInv(n, tr, acts, i);
  }

  lemma RunStep(n: nat, tr: seq<State>, acts: seq<Action>, i: nat)
    requires Run(n, tr, acts) && i < |acts|
    ensures WellFormed(tr[i]) && Enabled(tr[i], acts[i]) && tr[i + 1] == Next(tr[i], acts[i]) && Grows(tr[i], tr[i + 1])
  {
    RunInv(n, tr, acts, i);
    StepKeeps(tr[i], acts[i]);
  }

  /** A call that has returned stays as it was, whichever of the two moments is later. */
  lemma Settled(n: nat, tr: seq<State>, acts: seq<Action>, i: nat, j: nat, c: nat)
    requires Run(n, tr, acts) && i < |tr| && j < |tr|
    requires c in tr[i].pcs && Final(tr[i].pcs[c]) && i <= j
    ensures c in tr[j].pcs && tr[j].pcs[c] == tr[i].pcs[c] && c in tr[i].ops && c in tr[j].ops && tr[j].ops[c] == tr[i].ops[c]
  {
    RunGrows(n, tr, acts, i, j);
    RunInv(n, tr, acts, i);
    assert CallGrows(tr[i], tr[j], c);
  }

  // ---- Quorums ----

  lemma {:induction false} SubsetOfRange(a: set<nat>, n: nat)
    requires forall s :: s in a ==> s < n
    ensures |a| <= n
  {
    if n == 0 {
      assert a == {};
    } else {
      SubsetOfRange(a - {n - 1}, n - 1);
      assert |a - {n - 1}| >= |a| - 1;
    }
  }

  /** Two majorities of n servers share a server. */
  lemma QuorumsMeet(a: set<nat>, b: set<nat>, n: nat) returns (s: nat)
    requires forall s :: s in a || s in b ==> s < n
    requires |a| >= QuorumSize(n) && |b| >= QuorumSize(n)
    ensures s in a && s in b
  {
    SubsetOfRange(a + b, n);
    assert |a + b| == |a| + |b| - |a * b|;
    assert |a * b| > 0;
    s :| s in a * b;
  }

  // ---- Agreement ----

  /** In every reachable state: a position is given to one call and acknowledged to no other, no two
      servers hold different entries at a position, and no server ever finds a position occupied. */
  lemma Agreement(n: nat, tr: seq<State>, acts: seq<Action>, i: nat)
    requires Run(n, tr, acts) && i < |tr|
    ensures forall p, q :: 0 <= p < q < |tr[i].issued| ==> tr[i].issued[p] != tr[i].issued[q]
    ensures forall c, d | c in tr[i].pcs && d in tr[i].pcs && tr[i].pcs[c].AppendOk? && tr[i].pcs[d].AppendOk? ::
              tr[i].pcs[c].pos == tr[i].pcs[d].pos ==> c == d
    ensures |tr[i].servers| == n
    ensures forall s, t, p | 0 <= s < n && 0 <= t < n && p in tr[i].servers[s].entries && p in tr[i].servers[t].entries ::
              tr[i].servers[s].entries[p] == tr[i].servers[t].entries[p]
    ensures forall m :: m in tr[i].net && m.StoreRep? ==> m.stored != Occupied
  {
    RunInv(n, tr, acts, i);
    var st := tr[i];
    forall c, d | c in st.pcs && d in st.pcs && st.pcs[c].AppendOk? && st.pcs[d].AppendOk? && st.pcs[c].pos == st.pcs[d].pos
      ensures c == d
    {
      assert PcOk(st, c) && PcOk(st, d);
    }
    forall s, t, p | 0 <= s < n && 0 <= t < n && p in st.servers[s].entries && p in st.servers[t].entries
      ensures st.servers[s].entries[p] == st.servers[t].entries[p]
    {
      assert ServerOk(st, s) && ServerOk(st, t);
    }
    forall m | m in st.net && m.StoreRep? ensures m.stored != Occupied {
      assert MsgOk(st, m);
    }
  }

  // ---- Sealing ----

  /** Within one state: a sealing server stored the acknowledged position before it sealed. */
  lemma SealMeetsAppend(st: State, z: nat, c: nat) returns (s: nat)
    requires Inv(st) && z in st.pcs && st.pcs[z].SealOk? && c in st.pcs && st.pcs[c].AppendOk?
    ensures s in st.pcs[z].tails && s < |st.sealedWith|
    ensures st.sealedWith[s].Some? && st.pcs[c].pos in st.sealedWith[s].value
    ensures st.pcs[c].pos < st.pcs[z].tails[s] <= st.pcs[z].maxTail <= st.pcs[z].tail
  {
    assert PcOk(st, z) && PcOk(st, c);
    var tails := st.pcs[z].tails;
    assert |tails.Keys| == |tails|;
    s := QuorumsMeet(st.pcs[c].acks, tails.Keys, |st.servers|);
    assert ServerOk(st, s);
  }

  lemma SealedWithKept(st: State, st': State, z: nat, s: nat)
    requires Inv(st) && Grows(st, st') && z in st.pcs && st.pcs[z].SealOk? && s in st.pcs[z].tails
    ensures s < |st.sealedWith| == |st'.sealedWith| && st.sealedWith[s].Some? && st'.sealedWith[s] == st.sealedWith[s]
  {
    assert PcOk(st, z);
    assert ServerOk(st, s) && ServerGrows(st, st', s);
  }

  /** Once call z has sealed with replies from the servers in tails, every append that ever returns
      Ok(pos), before or after, was stored by one of those servers before it sealed, so pos is below
      the largest tail they reported and below the tail that the seal returned. */
  lemma QuorumSealSafety(n: nat, tr: seq<State>, acts: seq<Action>, i: nat, z: nat, j: nat, c: nat) returns (s: nat)
    requires Run(n, tr, acts) && i < |tr| && j < |tr|
    requires z in tr[i].pcs && tr[i].pcs[z].SealOk?
    requires c in tr[j].pcs && tr[j].pcs[c].AppendOk?
    ensures s in tr[i].pcs[z].tails && s < |tr[i].sealedWith|
    ensures tr[i].sealedWith[s].Some? && tr[j].pcs[c].pos in tr[i].sealedWith[s].value
    ensures tr[j].pcs[c].pos < tr[i].pcs[z].tails[s] <= tr[i].pcs[z].maxTail <= tr[i].pcs[z].tail
  {
    var k := if i < j then j else i;
    RunInv(n, tr, acts, i);
    RunInv(n, tr, acts, k);
    RunGrows(n, tr, acts, i, k);
    Settled(n, tr, acts, i, k, z);
    Settled(n, tr, acts, j, k, c);
    s := SealMeetsAppend(tr[k], z, c);
    SealedWithKept(tr[i], tr[k], z, s);
  }

  /** A position that none of the sealing servers had stored is never acknowledged, at any time. */
  lemma UnstoredNeverAcked(n: nat, tr: seq<State>, acts: seq<Action>, i: nat, z: nat, pos: LogPos)
    requires Run(n, tr, acts) && i < |tr|
    requires z in tr[i].pcs && tr[i].pcs[z].SealOk?
    requires forall s :: s in tr[i].pcs[z].tails && s < |tr[i].sealedWith| && tr[i].sealedWith[s].Some? ==>
                           pos !in tr[i].sealedWith[s].value
    ensures forall j :: 0 <= j < |tr| ==> pos !in AckedNow(tr[j])
  {
    forall j | 0 <= j < |tr| ensures pos !in AckedNow(tr[j]) {
      if pos in AckedNow(tr[j]) {
        var c :| c in tr[j].pcs && tr[j].pcs[c].AppendOk? && tr[j].pcs[c].pos == pos;
        var s := QuorumSealSafety(n, tr, acts, i, z, j, c);
      }
    }
  }

  /** In every reachable state: no server's tail passes the sequencer's next position, and a sealed server
      or a set flag means that the sequencer is sealed. */
  lemma SequencerLeads(n: nat, tr: seq<State>, acts: seq<Action>, i: nat)
    requires Run(n, tr, acts) && i < |tr|
    ensures forall s :: 0 <= s < |tr[i].servers| ==>
              tr[i].servers[s].tail <= tr[i].seqr.next && (tr[i].servers[s].sealed ==> tr[i].seqr.sealed)
    ensures tr[i].flag ==> tr[i].seqr.sealed
  {
    RunInv(n, tr, acts, i);
    forall s | 0 <= s < |tr[i].servers|
      ensures tr[i].servers[s].tail <= tr[i].seqr.next && (tr[i].servers[s].sealed ==> tr[i].seqr.sealed)
    {
      assert ServerOk(tr[i], s);
    }
  }

  /** A seal's answer is final: no later moment has issued more. */
  lemma SealIsFinal(n: nat, tr: seq<State>, acts: seq<Action>, i: nat, z: nat, k: nat)
    requires Run(n, tr, acts) && i <= k < |tr|
    requires z in tr[i].pcs && tr[i].pcs[z].SealOk?
    ensures tr[i].pcs[z].tail == |tr[k].issued| + 1 && tr[k].issued == tr[i].issued
  {
    RunShape(n, tr, acts, i);
    RunPc(n, tr, acts, i, z);
    RunGrows(n, tr, acts, i, k);
  }

  /** All successful seals return the same tail, the sequencer's last position plus one. */
  lemma OneFinalTail(n: nat, tr: seq<State>, acts: seq<Action>, i: nat, z: nat, j: nat, y: nat)
    requires Run(n, tr, acts) && i < |tr| && j < |tr|
    requires z in tr[i].pcs && tr[i].pcs[z].SealOk?
    requires y in tr[j].pcs && tr[j].pcs[y].SealOk?
    ensures tr[i].pcs[z].tail == tr[j].pcs[y].tail == |tr[i].issued| + 1
    ensures tr[i].issued == tr[j].issued
  {
    var k := if i < j then j else i;
    SealIsFinal(n, tr, acts, i, z, k);
    SealIsFinal(n, tr, acts, j, y, k);
  }

  /** An append that begins after a seal has returned is never acknowledged. */
  lemma NoAppendAfterSeal(n: nat, tr: seq<State>, acts: seq<Action>, i: nat, z: nat, j: nat, c: nat)
    requires Run(n, tr, acts) && i <= j < |tr|
    requires z in tr[i].pcs && tr[i].pcs[z].SealOk?
    requires c !in tr[i].ops && c in tr[j].pcs
    ensures !tr[j].pcs[c].AppendOk?
  {
    RunShape(n, tr, acts, i);
    RunShape(n, tr, acts, j);
    RunPc(n, tr, acts, i, z);
    RunPc(n, tr, acts, j, c);
    RunGrows(n, tr, acts, i, j);
  }

  // ---- Reads ----

  /** A new call learns every acknowledgement and every completed trim. */
  lemma NewCallKnows(st: State, a: Action, r: nat)
    requires WellFormed(st) && Enabled(st, a) && r !in st.ops && r in Next(st, a).ops
    ensures r in Next(st, a).acked && r in Next(st, a).trimmed
    ensures Next(st, a).acked[r] == AckedNow(st) && Next(st, a).trimmed[r] == TrimmedNow(st)
  {
  }

  /** A call that has not begun at moment i began at some later step k of the run, and what it knows
      it learned there. */
  lemma {:induction false} BeganAt(n: nat, tr: seq<State>, acts: seq<Action>, i: nat, j: nat, r: nat) returns (k: nat)
    requires Run(n, tr, acts) && i <= j < |tr| && r !in tr[i].ops && r in tr[j].ops
    ensures i <= k < j && WellFormed(tr[k]) && WellFormed(tr[j])
    ensures tr[j].acked[r] == AckedNow(tr[k]) && tr[j].trimmed[r] == TrimmedNow(tr[k])
    decreases j
  {
    RunStep(n, tr, acts, j - 1);
    if r in tr[j - 1].ops {
      k := BeganAt(n, tr, acts, i, j - 1, r);
      assert CallGrows(tr[j - 1], tr[j], r);
    } else {
      NewCallKnows(tr[j - 1], acts[j - 1], r);
      k := j - 1;
    }
  }

  /** A call that begins later knows every earlier acknowledgement. */
  lemma LaterCallKnows(n: nat, tr: seq<State>, acts: seq<Action>, i: nat, j: nat, c: nat, r: nat)
    requires Run(n, tr, acts) && i <= j < |tr|
    requires c in tr[i].pcs && tr[i].pcs[c].AppendOk?
    requires r !in tr[i].ops && r in tr[j].ops
    ensures r in tr[j].acked && tr[i].pcs[c].pos in tr[j].acked[r]
  {
    RunShape(n, tr, acts, j);
    var k := BeganAt(n, tr, acts, i, j, r);
    Settled(n, tr, acts, i, k, c);
  }

  /** And every trim that has returned. */
  lemma LaterCallKnowsTrim(n: nat, tr: seq<State>, acts: seq<Action>, i: nat, j: nat, c: nat, r: nat)
    requires Run(n, tr, acts) && i <= j < |tr|
    requires c in tr[i].pcs && tr[i].pcs[c].TrimOk?
    requires r !in tr[i].ops && r in tr[j].ops
    ensures c in tr[i].ops && tr[i].ops[c].TrimOp? && r in tr[j].trimmed && tr[i].ops[c].pos in tr[j].trimmed[r]
  {
    RunShape(n, tr, acts, i);
    RunShape(n, tr, acts, j);
    RunPc(n, tr, acts, i, c);
    var k := BeganAt(n, tr, acts, i, j, r);
    Settled(n, tr, acts, i, k, c);
  }

  /** A read below a trim point that begins after the trim returned never answers without a trim error. */
  lemma TrimmedStaysTrimmed(n: nat, tr: seq<State>, acts: seq<Action>, i: nat, c: nat, j: nat, r: nat)
    requires Run(n, tr, acts) && i <= j < |tr|
    requires c in tr[i].pcs && tr[i].pcs[c].TrimOk?
    requires r !in tr[i].ops && r in tr[j].pcs && tr[j].pcs[r].ReadOk?
    ensures c in tr[i].ops && tr[i].ops[c].TrimOp? && r in tr[j].ops && tr[j].ops[r].ReadOp? && tr[i].ops[c].pos <= tr[j].ops[r].pos
  {
    RunShape(n, tr, acts, j);
    RunPc(n, tr, acts, j, r);
    LaterCallKnowsTrim(n, tr, acts, i, j, c, r);
  }

  /** A tail check that begins after an append returned Ok(pos) reports a tail beyond pos. */
  lemma TailCoversAcked(n: nat, tr: seq<State>, acts: seq<Action>, i: nat, c: nat, j: nat, r: nat)
    requires Run(n, tr, acts) && i <= j < |tr|
    requires c in tr[i].pcs && tr[i].pcs[c].AppendOk?
    requires r !in tr[i].ops && r in tr[j].pcs && tr[j].pcs[r].TailOk?
    ensures tr[i].pcs[c].pos < tr[j].pcs[r].tail <= tr[j].seqr.next
  {
    RunShape(n, tr, acts, j);
    RunPc(n, tr, acts, j, r);
    LaterCallKnows(n, tr, acts, i, j, c, r);
  }

  /** A read answers with a trim error only if a trim beyond its position has begun. */
  lemma TrimErrorMeansTrim(n: nat, tr: seq<State>, acts: seq<Action>, j: nat, r: nat)
    requires Run(n, tr, acts) && j < |tr| && r in tr[j].pcs && tr[j].pcs[r].ReadTrimmed?
    ensures r in tr[j].ops && tr[j].ops[r].ReadOp?
    ensures tr[j].ops[r].pos == 0 || exists d :: d in tr[j].ops && tr[j].ops[d].TrimOp? && tr[j].ops[r].pos < tr[j].ops[d].pos
  {
    RunShape(n, tr, acts, j);
    RunPc(n, tr, acts, j, r);
  }

  /** A read of pos that begins after an append returned Ok(pos), once it answers, answers with the
      acknowledged entry, or with a trim error if a trim beyond pos has begun. It never finds nothing. */
  lemma StableRead(n: nat, tr: seq<State>, acts: seq<Action>, i: nat, c: nat, j: nat, r: nat)
    requires Run(n, tr, acts) && i <= j < |tr|
    requires c in tr[i].pcs && tr[i].pcs[c].AppendOk?
    requires r !in tr[i].ops && r in tr[j].pcs && r in tr[j].ops && tr[j].ops[r] == ReadOp(tr[i].pcs[c].pos)
    requires tr[j].pcs[r].ReadOk? || tr[j].pcs[r].ReadTrimmed?
    ensures c in tr[i].ops && tr[i].ops[c].AppendOp?
    ensures tr[j].pcs[r] == ReadOk(Some(tr[i].ops[c].entry)) ||
            (tr[j].pcs[r].ReadTrimmed? && exists d :: d in tr[j].ops && tr[j].ops[d].TrimOp? && tr[i].pcs[c].pos < tr[j].ops[d].pos)
  {
    RunShape(n, tr, acts, i);
    RunShape(n, tr, acts, j);
    LaterCallKnows(n, tr, acts, i, j, c, r);
    Settled(n, tr, acts, i, j, c);
    RunPc(n, tr, acts, j, r);
    RunPc(n, tr, acts, j, c);
  }

  /** Once a seal or an append has answered that the loglet is sealed, its flag is set for ever. */
  lemma SealSetsFlag(n: nat, tr: seq<State>, acts: seq<Action>, i: nat, c: nat, j: nat)
    requires Run(n, tr, acts) && i <= j < |tr| && c in tr[i].pcs && (tr[i].pcs[c].SealOk? || tr[i].pcs[c].AppendSealed?)
    ensures tr[j].flag
  {
    RunShape(n, tr, acts, i);
    RunPc(n, tr, acts, i, c);
    RunGrows(n, tr, acts, i, j);
  }

  /** Whatever a read finds, acknowledged or not, is the entry of the call that was given the position. */
  lemma ReadsAgree(n: nat, tr: seq<State>, acts: seq<Action>, i: nat, r: nat, j: nat, q: nat)
    requires Run(n, tr, acts) && i <= j < |tr|
    requires r in tr[i].pcs && tr[i].pcs[r].ReadOk? && tr[i].pcs[r].result.Some?
    requires q in tr[j].pcs && tr[j].pcs[q].ReadOk? && tr[j].pcs[q].result.Some?
    requires r in tr[i].ops && q in tr[j].ops && tr[i].ops[r] == tr[j].ops[q]
    ensures tr[i].pcs[r].result == tr[j].pcs[q].result
  {
    RunShape(n, tr, acts, i);
    RunShape(n, tr, acts, j);
    RunPc(n, tr, acts, i, r);
    RunPc(n, tr, acts, j, q);
    RunGrows(n, tr, acts, i, j);
    KeepBelongs(tr[i], tr[j], tr[i].ops[r].pos, tr[i].pcs[r].result.value);
  }

  // ---- NativeLoglet is a loglet ----

  ghost function Abs(st: State): LogletSpec.Loglet
    requires WellFormed(st) && SequencerOk(st)
  {
    LogletSpec.Loglet(seq(|st.issued|, i requires 0 <= i < |st.issued| => LogletSpec.Stamp(st.issued[i], st.ops[st.issued[i]].entry)),
                      st.seqr.sealed)
  }

  lemma StepIssues(st: State, a: Action)
    requires WellFormed(st) && Enabled(st, a)
    ensures |Next(st, a).issued| <= |st.issued| + 1
    ensures |Next(st, a).issued| > |st.issued| ==> Next(st, a).seqr.sealed == st.seqr.sealed
  {
  }

  lemma AbsGrows(st: State, st': State)
    requires Grows(st, st') && SequencerOk(st) && SequencerOk(st') && |st'.issued| <= |st.issued| + 1
    requires |st'.issued| > |st.issued| ==> st'.seqr.sealed == st.seqr.sealed
    ensures LogletSpec.Step(Abs(st), Abs(st'))
  {
    var l, l' := Abs(st), Abs(st');
    forall i | 0 <= i < |l.issued| ensures l'.issued[i] == l.issued[i] {
      assert CallGrows(st, st', st.issued[i]);
    }
    if |l'.issued| == |l.issued| {
      assert l'.issued == l.issued;
    } else {
      assert l'.issued == l.issued + [l'.issued[|l.issued|]];
    }
  }

  /** Every step is a step of the loglet specification: issue one position, seal, or nothing. */
  lemma RefinesLoglet(st: State, a: Action)
    requires Inv(st) && Enabled(st, a)
    ensures Inv(Next(st, a)) && LogletSpec.Step(Abs(st), Abs(Next(st, a)))
  {
    StepKeeps(st, a);
    StepIssues(st, a);
    AbsGrows(st, Next(st, a));
  }

  /** And what calls return is what the specification allows. */
  lemma AnswersLikeLoglet(st: State, c: nat)
    requires Inv(st) && c in st.pcs
    ensures st.pcs[c].AppendOk? ==>
              st.ops[c].AppendOp? && LogletSpec.Holds(Abs(st), st.pcs[c].pos, LogletSpec.Stamp(c, st.ops[c].entry))
    ensures st.pcs[c].SealOk? ==> Abs(st).sealed && st.pcs[c].tail == LogletSpec.Tail(Abs(st))
    ensures st.pcs[c].AppendSealed? ==> Abs(st).sealed && 1 <= st.pcs[c].tail <= LogletSpec.Tail(Abs(st))
    ensures st.pcs[c].TailOk? ==> 1 <= st.pcs[c].tail <= LogletSpec.Tail(Abs(st))
    ensures st.pcs[c].ReadOk? && st.pcs[c].result.Some? ==>
              st.ops[c].ReadOp? && exists d :: LogletSpec.Holds(Abs(st), st.ops[c].pos, LogletSpec.Stamp(d, st.pcs[c].result.value))
  {
    assert PcOk(st, c);
    if st.pcs[c].ReadOk? && st.pcs[c].result.Some? {
      var d := st.issued[st.ops[c].pos - 1];
      assert LogletSpec.Holds(Abs(st), st.ops[c].pos, LogletSpec.Stamp(d, st.pcs[c].result.value));
    }
  }
}
