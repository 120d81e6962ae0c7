/** What group commit means for the log: the entries that the flush loop sends reach the state that the
    proposals in them reach one by one, whatever the loop cut, failed to send or got errors for. */
module GroupCommit {
  import opened RelosCore
  import opened LocalStore
  import opened Engine
  import opened Batching

  /** The proposals among the requests. */
  function Proposals(items: seq<Item>): seq<Proposal> {
    if items == [] then []
    else Proposals(items[..|items| - 1]) + if items[|items| - 1].ProposeItem? then [items[|items| - 1].p] else []
  }

  /** The results among the answers, one for each proposal. */
  function Results(answers: seq<Answer>): seq<Result<ReturnValue>> {
    if answers == [] then []
    else Results(answers[..|answers| - 1]) +
         if answers[|answers| - 1].ProposeAnswer? then [answers[|answers| - 1].result] else []
  }

  /** Which batches ended in the log: every one whose downstream proposal succeeded, none that was not sent.
      One whose proposal failed downstream may be in the log or not. */
  ghost predicate Landed(trace: seq<Down>, landed: seq<bool>) {
    && |landed| == |trace|
    && forall i :: 0 <= i < |trace| ==>
         (trace[i].Flushed? && trace[i].result.Ok? ==> landed[i]) && (landed[i] ==> trace[i].Flushed?)
  }

  function EntriesOf(d: Down, landed: bool): seq<Entry> {
    if d.Flushed? && landed then [BatchEntry(Payloads(d.batch))] else []
  }

  /** The log's share of the run. */
  function DownLog(trace: seq<Down>, landed: seq<bool>): seq<Entry>
    requires |landed| == |trace|
  {
    if trace == [] then []
    else DownLog(trace[..|trace| - 1], landed[..|trace| - 1]) + EntriesOf(trace[|trace| - 1], landed[|trace| - 1])
  }

  function MaskOf(d: Down, landed: bool): seq<bool> {
    if d.Synced? then [] else seq(|d.batch|, i => landed)
  }

  /** For each proposal, whether its batch ended in the log. */
  function Mask(trace: seq<Down>, landed: seq<bool>): seq<bool>
    requires |landed| == |trace|
  {
    if trace == [] then []
    else Mask(trace[..|trace| - 1], landed[..|trace| - 1]) + MaskOf(trace[|trace| - 1], landed[|trace| - 1])
  }

  function Select(ps: seq<Proposal>, mask: seq<bool>): seq<Proposal>
    requires |ps| == |mask|
  {
    if ps == [] then []
    else Select(ps[..|ps| - 1], mask[..|ps| - 1]) + if mask[|ps| - 1] then [ps[|ps| - 1]] else []
  }

  lemma {:induction false} SelectConcat(a: seq<Proposal>, m: seq<bool>, b: seq<Proposal>, n: seq<bool>)
    requires |a| == |m| && |b| == |n|
    ensures Select(a + b, m + n) == Select(a, m) + Select(b, n)
    decreases |b|
  {
    if b == [] {
      assert a + b == a && m + n == m;
    } else {
      assert (a + b)[..|a + b| - 1] == a + b[..|b| - 1] && (m + n)[..|a + b| - 1] == m + n[..|b| - 1];
      SelectConcat(a, m, b[..|b| - 1], n[..|b| - 1]);
    }
  }

  /** A whole batch is selected or left out. */
  lemma {:induction false} SelectBatch(ps: seq<Proposal>, landed: bool)
    ensures Select(ps, seq(|ps|, i => landed)) == if landed then ps else []
    decreases |ps|
  {
    if ps != [] {
      assert seq(|ps|, i => landed)[..|ps| - 1] == seq(|ps| - 1, i => landed);
      SelectBatch(ps[..|ps| - 1], landed);
    }
  }

  lemma {:induction false} ProposalsConcat(a: seq<Item>, b: seq<Item>)
    ensures Proposals(a + b) == Proposals(a) + Proposals(b)
    decreases |b|
  {
    if b == [] {
      assert a + b == a;
    } else {
      assert (a + b)[..|a + b| - 1] == a + b[..|b| - 1];
      ProposalsConcat(a, b[..|b| - 1]);
    }
  }

  lemma {:induction false} ResultsConcat(a: seq<Answer>, b: seq<Answer>)
    ensures Results(a + b) == Results(a) + Results(b)
    decreases |b|
  {
    if b == [] {
      assert a + b == a;
    } else {
      assert (a + b)[..|a + b| - 1] == a + b[..|b| - 1];
      ResultsConcat(a, b[..|b| - 1]);
    }
  }

  lemma {:induction false} ProposalsOfItems(ps: seq<Proposal>)
    ensures Proposals(AsItems(ps)) == ps
    decreases |ps|
  {
    if ps != [] {
      assert AsItems(ps)[..|ps| - 1] == AsItems(ps[..|ps| - 1]);
      ProposalsOfItems(ps[..|ps| - 1]);
    }
  }

  lemma {:induction false} ResultsOfBatch(ps: seq<Proposal>, r: Result<ReturnValue>)
    ensures Results(AnswersOf(Flushed(ps, r))) == seq(|ps|, i => r)
    decreases |ps|
  {
    if ps != [] {
      var all := AnswersOf(Flushed(ps, r));
      assert all[..|ps| - 1] == AnswersOf(Flushed(ps[..|ps| - 1], r));
      ResultsOfBatch(ps[..|ps| - 1], r);
    }
  }

  /** A proposal answered Ok is in a batch that ended in the log. */
  ghost predicate OkIsKept(results: seq<Result<ReturnValue>>, mask: seq<bool>) {
    |results| == |mask| && forall i :: 0 <= i < |mask| && results[i].Ok? ==> mask[i]
  }

  /** What one batch adds to the log and to the mask. */
  lemma OneBatch(batch: seq<Proposal>, landed: bool)
    ensures var mask := seq(|batch|, i => landed);
            && |mask| == |Proposals(AsItems(batch))|
            && Unbatched(if landed then [BatchEntry(Payloads(batch))] else []) == Payloads(Select(Proposals(AsItems(batch)), mask))
  {
    ProposalsOfItems(batch);
    SelectBatch(batch, landed);
    UnbatchedOne(BatchEntry(Payloads(batch)));
  }

  lemma SyncIsNoProposal(id: nat, t: Result<LogPos>)
    ensures Proposals([SyncItem(id)]) == [] && Results([SyncAnswer(id, t)]) == []
  {
    assert [SyncItem(id)][..0] == [] && [SyncAnswer(id, t)][..0] == [];
  }

  lemma OneDown(d: Down, landed: bool)
    requires landed ==> d.Flushed?
    ensures |MaskOf(d, landed)| == |Proposals(ItemsOf(d))|
    ensures Unbatched(EntriesOf(d, landed)) == Payloads(Select(Proposals(ItemsOf(d)), MaskOf(d, landed)))
  {
    if d.Synced? {
      SyncIsNoProposal(d.id, d.tail);
    } else {
      OneBatch(d.batch, landed);
    }
  }

  lemma OneDownOk(d: Down, landed: bool)
    requires d.Flushed? && d.result.Ok? ==> landed
    ensures OkIsKept(Results(AnswersOf(d)), MaskOf(d, landed))
  {
    match d
    case Flushed(batch, r) => ResultsOfBatch(batch, r);
    case Unsent(batch) =>
      ResultsOfBatch(batch, Err(Serialization));
      assert AnswersOf(d) == AnswersOf(Flushed(batch, Err(Serialization)));
    case Synced(id, t) => SyncIsNoProposal(id, t);
  }

  lemma PayloadsConcat(a: seq<Proposal>, b: seq<Proposal>)
    ensures Payloads(a + b) == Payloads(a) + Payloads(b)
  {
  }

  lemma OkIsKeptConcat(a: seq<Result<ReturnValue>>, m: seq<bool>, b: seq<Result<ReturnValue>>, n: seq<bool>)
    requires OkIsKept(a, m) && OkIsKept(b, n)
    ensures OkIsKept(a + b, m + n)
  {
  }

  lemma MoreContents(log: seq<Entry>, ps: seq<Proposal>, mask: seq<bool>, more: seq<Entry>, qs: seq<Proposal>, tail: seq<bool>)
    requires |mask| == |ps| && Unbatched(log) == Payloads(Select(ps, mask))
    requires |tail| == |qs| && Unbatched(more) == Payloads(Select(qs, tail))
    ensures Unbatched(log + more) == Payloads(Select(ps + qs, mask + tail))
  {
    UnbatchedConcat(log, more);
    SelectConcat(ps, mask, qs, tail);
    PayloadsConcat(Select(ps, mask), Select(qs, tail));
  }

  /** The log's share holds, in order, exactly the handled proposals whose batch landed. */
  lemma {:induction false} LogHoldsLanded(trace: seq<Down>, landed: seq<bool>)
    requires Landed(trace, landed)
    ensures |Mask(trace, landed)| == |Proposals(Handled(trace))|
    ensures Unbatched(DownLog(trace, landed)) == Payloads(Select(Proposals(Handled(trace)), Mask(trace, landed)))
    decreases |trace|
  {
    if trace != [] {
      var front, lf, d, l := trace[..|trace| - 1], landed[..|trace| - 1], trace[|trace| - 1], landed[|trace| - 1];
      LogHoldsLanded(front, lf);
      OneDown(d, l);
      ProposalsConcat(Handled(front), ItemsOf(d));
      MoreContents(DownLog(front, lf), Proposals(Handled(front)), Mask(front, lf), EntriesOf(d, l), Proposals(ItemsOf(d)), MaskOf(d, l));
    }
  }

  lemma {:induction false} LogWellMade(trace: seq<Down>, landed: seq<bool>)
    requires |landed| == |trace|
    ensures forall i :: 0 <= i < |DownLog(trace, landed)| ==> WellMade(DownLog(trace, landed)[i])
    decreases |trace|
  {
    if trace != [] { LogWellMade(trace[..|trace| - 1], landed[..|trace| - 1]); }
  }

  /** Every proposal answered Ok landed. */
  lemma {:induction false} OkLanded(trace: seq<Down>, landed: seq<bool>)
    requires Landed(trace, landed)
    ensures OkIsKept(Results(Answers(trace)), Mask(trace, landed))
    decreases |trace|
  {
    if trace != [] {
      var front, lf, d, l := trace[..|trace| - 1], landed[..|trace| - 1], trace[|trace| - 1], landed[|trace| - 1];
      OkLanded(front, lf);
      OneDownOk(d, l);
      ResultsConcat(Answers(front), AnswersOf(d));
      OkIsKeptConcat(Results(Answers(front)), Mask(front, lf), Results(AnswersOf(d)), MaskOf(d, l));
    }
  }

  /** For every run of the flush loop, however it cut the proposals and whatever failed: applying the log's
      share reaches the state, or the first error, that applying one by one exactly the received proposals
      of the batches that landed reaches, and every proposal answered Ok is among them. */
  lemma GroupCommitMeaning(inner: Applicator, st: Data, events: seq<Event>, trace: seq<Down>, landed: seq<bool>, from: LogPos)
    requires PayloadOnly(inner) && Handled(trace) == Requests(events) && Landed(trace, landed)
    ensures var ps, mask := Proposals(Requests(events)), Mask(trace, landed);
            && |mask| == |ps| && OkIsKept(Results(Answers(trace)), mask)
            && Through(Batched(inner), st, DownLog(trace, landed), from) == OneByOne(inner, st, Payloads(Select(ps, mask)))
  {
    LogHoldsLanded(trace, landed);
    OkLanded(trace, landed);
    LogWellMade(trace, landed);
    BatchingPreserves(inner, st, DownLog(trace, landed), from);
  }

  lemma {:induction false} AllLanded(trace: seq<Down>, landed: seq<bool>)
    requires |landed| == |trace| && forall i :: 0 <= i < |trace| ==> trace[i].Synced? || landed[i]
    ensures forall i :: 0 <= i < |Mask(trace, landed)| ==> Mask(trace, landed)[i]
    decreases |trace|
  {
    if trace != [] { AllLanded(trace[..|trace| - 1], landed[..|trace| - 1]); }
  }

  lemma {:induction false} SelectAll(ps: seq<Proposal>, mask: seq<bool>)
    requires |ps| == |mask| && forall i :: 0 <= i < |mask| ==> mask[i]
    ensures Select(ps, mask) == ps
    decreases |ps|
  {
    if ps != [] { SelectAll(ps[..|ps| - 1], mask[..|ps| - 1]); }
  }

  /** When nothing failed, that is the state all received proposals reach. */
  lemma GroupCommitWhole(inner: Applicator, st: Data, events: seq<Event>, trace: seq<Down>, landed: seq<bool>, from: LogPos)
    requires PayloadOnly(inner) && Handled(trace) == Requests(events) && Landed(trace, landed)
    requires forall i :: 0 <= i < |trace| ==> trace[i].Synced? || landed[i]
    ensures Through(Batched(inner), st, DownLog(trace, landed), from) == OneByOne(inner, st, Payloads(Proposals(Requests(events))))
  {
    GroupCommitMeaning(inner, st, events, trace, landed, from);
    AllLanded(trace, landed);
    SelectAll(Proposals(Requests(events)), Mask(trace, landed));
  }

  /** The entries among the calls made downstream. */
  function ProposedIn(calls: seq<DownCall>): seq<Entry> {
    if calls == [] then []
    else ProposedIn(calls[..|calls| - 1]) + if calls[|calls| - 1].ProposeCall? then [calls[|calls| - 1].entry] else []
  }

  /** With every batch that was sent, the log's share is what was proposed downstream. */
  lemma {:induction false} ShareIsProposed(trace: seq<Down>, landed: seq<bool>)
    requires |landed| == |trace| && forall i :: 0 <= i < |trace| ==> landed[i] == trace[i].Flushed?
    ensures DownLog(trace, landed) == ProposedIn(Calls(trace))
    decreases |trace|
  {
    if trace != [] {
      var front, d := trace[..|trace| - 1], trace[|trace| - 1];
      ShareIsProposed(front, landed[..|trace| - 1]);
      if CallsOf(d) == [] {
        assert Calls(trace) == Calls(front);
      } else {
        assert Calls(trace)[..|Calls(trace)| - 1] == Calls(front);
      }
    }
  }
}
