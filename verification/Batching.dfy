/** Group commit: cutting proposals into batches changes neither what reaches the store nor the order
    in which requests reach the downstream engine. */
module Batching {
  import opened RelosCore
  import opened LocalStore
  import opened Engine

  const BATCHING := "batching"

  function BatchEntry(ps: seq<Payload>): Entry {
    Entry(map[BATCHING := BatchCount(|ps|)], BatchPayload(ps))
  }

  function Plain(p: Payload): Entry {
    Entry(map[], p)
  }

  // ---- The batching applicator ----

  /** Applies payloads one after the other and keeps the last return value. */
  function ApplyAll(inner: Applicator, st: Data, ps: seq<Payload>, pos: LogPos, last: ReturnValue): Result<(Data, ReturnValue)>
    decreases |ps|
  {
    if ps == [] then Ok((st, last))
    else match inner(st, Plain(ps[0]), pos)
         case Ok((st', rv)) => ApplyAll(inner, st', ps[1..], pos, rv)
         case Err(e) => Err(e)
  }

  function BatchApply(inner: Applicator, st: Data, e: Entry, pos: LogPos): Result<(Data, ReturnValue)> {
    if BATCHING !in e.headers then inner(st, e, pos)
    else if !e.headers[BATCHING].BatchCount? || !e.payload.BatchPayload? then Err(Serialization)
    else if |e.payload.payloads| != e.headers[BATCHING].count then Err(Internal)
    else ApplyAll(inner, st, e.payload.payloads, pos, Success)
  }

  function Batched(inner: Applicator): Applicator {
    (st, e, pos) => BatchApply(inner, st, e, pos)
  }

  /** The same on a transaction: a loop over the batch that stops at the first error. */
  method ApplyBatchIn(inner: Applicator, txn: WriteTxn, e: Entry, pos: LogPos) returns (r: Result<ReturnValue>)
    modifies txn
    ensures match BatchApply(inner, old(txn.working), e, pos)
            case Ok((st, rv)) => r == Ok(rv) && txn.working == st
            case Err(err) => r == Err(err)
    ensures BATCHING in e.headers && !(e.headers[BATCHING].BatchCount? && e.payload.BatchPayload?) ==> r == Err(Serialization)
    ensures BATCHING in e.headers && e.payload.BatchPayload? && e.headers[BATCHING].BatchCount? ==>
              (e.headers[BATCHING].count != |e.payload.payloads| ==> r == Err(Internal))
  {
    if BATCHING !in e.headers {
      var one := inner(txn.working, e, pos);
      if one.Err? {
        return Err(one.error);
      }
      txn.working := one.value.0;
      return Ok(one.value.1);
    }
    if !e.headers[BATCHING].BatchCount? || !e.payload.BatchPayload? {
      return Err(Serialization);
    }
    var payloads := e.payload.payloads;
    if |payloads| != e.headers[BATCHING].count {
      return Err(Internal);
    }
    var last := Success;
    assert payloads[0..] == payloads;
    for i := 0 to |payloads|
      invariant ApplyAll(inner, old(txn.working), payloads, pos, Success) == ApplyAll(inner, txn.working, payloads[i..], pos, last)
    {
      assert payloads[i..][0] == payloads[i] && payloads[i..][1..] == payloads[i + 1..];
      var one := inner(txn.working, Plain(payloads[i]), pos);
      if one.Err? {
        return Err(one.error);
      }
      txn.working, last := one.value.0, one.value.1;
    }
    return Ok(last);
  }

  // ---- Batching preserves meaning ----

  /** The applicator looks at the payload only. */
  ghost predicate PayloadOnly(inner: Applicator) {
    forall st, e: Entry, p, q :: inner(st, e, p) == inner(st, Plain(e.payload), q)
  }

  /** Proposals applied one by one, without batches; only the state reached, or the first error. */
  function OneByOne(inner: Applicator, st: Data, ps: seq<Payload>): Result<Data>
    decreases |ps|
  {
    if ps == [] then Ok(st)
    else match inner(st, Plain(ps[0]), LOG_POS_BEGIN)
         case Ok((st', _)) => OneByOne(inner, st', ps[1..])
         case Err(e) => Err(e)
  }

  /** A log applied entry by entry at positions from, from + 1, ... */
  function Through(app: Applicator, st: Data, log: seq<Entry>, from: LogPos): Result<Data>
    decreases |log|
  {
    if log == [] then Ok(st)
    else match app(st, log[0], from)
         case Ok((st', _)) => Through(app, st', log[1..], from + 1)
         case Err(e) => Err(e)
  }

  /** A plain entry, or a batch whose header matches its payload. */
  predicate WellMade(e: Entry) {
    BATCHING in e.headers ==>
      e.payload.BatchPayload? && e.headers[BATCHING] == BatchCount(|e.payload.payloads|)
  }

  function Contents(e: Entry): seq<Payload> {
    if BATCHING in e.headers && e.payload.BatchPayload? then e.payload.payloads else [e.payload]
  }

  function Unbatched(log: seq<Entry>): seq<Payload> {
    if log == [] then [] else Contents(log[0]) + Unbatched(log[1..])
  }

  lemma {:induction false} OneByOneConcat(inner: Applicator, st: Data, a: seq<Payload>, b: seq<Payload>)
    ensures OneByOne(inner, st, a + b) ==
            match OneByOne(inner, st, a) case Ok(st') => OneByOne(inner, st', b) case Err(e) => Err(e)
    decreases |a|
  {
    if a == [] {
      assert a + b == b;
    } else {
      assert (a + b)[1..] == a[1..] + b;
      var r := inner(st, Plain(a[0]), LOG_POS_BEGIN);
      if r.Ok? { OneByOneConcat(inner, r.value.0, a[1..], b); }
    }
  }

  lemma {:induction false} BatchIsOneByOne(inner: Applicator, st: Data, ps: seq<Payload>, pos: LogPos, last: ReturnValue)
    requires PayloadOnly(inner)
    ensures match OneByOne(inner, st, ps)
            case Ok(st') => ApplyAll(inner, st, ps, pos, last).Ok? && ApplyAll(inner, st, ps, pos, last).value.0 == st'
            case Err(e) => ApplyAll(inner, st, ps, pos, last) == Err(e)
    decreases |ps|
  {
    if ps != [] {
      assert inner(st, Plain(ps[0]), pos) == inner(st, Plain(ps[0]), LOG_POS_BEGIN);
      var r := inner(st, Plain(ps[0]), pos);
      if r.Ok? { BatchIsOneByOne(inner, r.value.0, ps[1..], pos, r.value.1); }
    }
  }

  /** A batch returns what its last payload returned, applied to the state that the others reached. */
  lemma {:induction false} BatchReturnsLast(inner: Applicator, st: Data, ps: seq<Payload>, pos: LogPos, last: ReturnValue) returns (before: Data)
    requires ps != [] && ApplyAll(inner, st, ps, pos, last).Ok?
    ensures ApplyAll(inner, st, ps[..|ps| - 1], pos, last).Ok? && ApplyAll(inner, st, ps[..|ps| - 1], pos, last).value.0 == before
    ensures inner(before, Plain(ps[|ps| - 1]), pos) == ApplyAll(inner, st, ps, pos, last)
    decreases |ps|
  {
    var r := inner(st, Plain(ps[0]), pos).value;
    if |ps| == 1 {
      before := st;
      assert ps[1..] == [] && ps[..0] == [];
    } else {
      before := BatchReturnsLast(inner, r.0, ps[1..], pos, r.1);
      assert ps[1..][..|ps| - 2] == ps[..|ps| - 1][1..];
    }
  }

  lemma EntryIsItsContents(inner: Applicator, st: Data, e: Entry, pos: LogPos)
    requires PayloadOnly(inner) && WellMade(e)
    ensures match OneByOne(inner, st, Contents(e))
            case Ok(st') => Batched(inner)(st, e, pos).Ok? && Batched(inner)(st, e, pos).value.0 == st'
            case Err(err) => Batched(inner)(st, e, pos) == Err(err)
  {
    if BATCHING in e.headers {
      BatchIsOneByOne(inner, st, e.payload.payloads, pos, Success);
    } else {
      assert inner(st, e, pos) == inner(st, Plain(e.payload), LOG_POS_BEGIN);
      var r := inner(st, e, pos);
      if r.Ok? {
        assert OneByOne(inner, r.value.0, [e.payload][1..]) == Ok(r.value.0);
      }
    }
  }

  /** However the proposals were cut into batches, applying the log reaches the same state, or the
      same first error, as applying the proposals one by one. */
  lemma {:induction false} BatchingPreserves(inner: Applicator, st: Data, log: seq<Entry>, from: LogPos)
    requires PayloadOnly(inner) && forall i :: 0 <= i < |log| ==> WellMade(log[i])
    ensures Through(Batched(inner), st, log, from) == OneByOne(inner, st, Unbatched(log))
    decreases |log|
  {
    if log != [] {
      EntryIsItsContents(inner, st, log[0], from);
      OneByOneConcat(inner, st, Contents(log[0]), Unbatched(log[1..]));
      var r := Batched(inner)(st, log[0], from);
      if r.Ok? {
        forall i | 0 <= i < |log[1..]| ensures WellMade(log[1..][i]) {
          assert log[1..][i] == log[i + 1];
        }
        BatchingPreserves(inner, r.value.0, log[1..], from + 1);
      }
    }
  }

  lemma {:induction false} UnbatchedConcat(a: seq<Entry>, b: seq<Entry>)
    ensures Unbatched(a + b) == Unbatched(a) + Unbatched(b)
    decreases |a|
  {
    if a == [] {
      assert a + b == b;
    } else {
      assert (a + b)[1..] == a[1..] + b;
      UnbatchedConcat(a[1..], b);
    }
  }

  lemma UnbatchedOne(e: Entry)
    ensures Unbatched([e]) == Contents(e)
  {
  }

  // ---- The flush loop ----

  datatype Proposal = Proposal(id: nat, payload: Payload)

  /** What arrives on the channel, and the timeout that may fire while proposals are pending. */
  datatype Event = Submit(p: Proposal) | SyncRequest(id: nat) | Timeout

  /** What the loop did: proposed a batch downstream, failed to serialize one, or synced downstream. */
  datatype Down =
    | Flushed(batch: seq<Proposal>, result: Result<ReturnValue>)
    | Unsent(batch: seq<Proposal>)
    | Synced(id: nat, tail: Result<LogPos>)

  /** One answer on one caller's channel. */
  datatype Answer = ProposeAnswer(id: nat, result: Result<ReturnValue>) | SyncAnswer(id: nat, tail: Result<LogPos>)

  datatype Item = ProposeItem(p: Proposal) | SyncItem(id: nat)

  function AsItems(ps: seq<Proposal>): seq<Item> {
    seq(|ps|, i requires 0 <= i < |ps| => ProposeItem(ps[i]))
  }

  function RequestOf(ev: Event): seq<Item> {
    match ev
    case Submit(p) => [ProposeItem(p)]
    case SyncRequest(id) => [SyncItem(id)]
    case Timeout => []
  }

  /** The requests in the order received. */
  function Requests(events: seq<Event>): seq<Item> {
    if events == [] then [] else Requests(events[..|events| - 1]) + RequestOf(events[|events| - 1])
  }

  function ItemsOf(d: Down): seq<Item> {
    match d
    case Flushed(batch, _) => AsItems(batch)
    case Unsent(batch) => AsItems(batch)
    case Synced(id, _) => [SyncItem(id)]
  }

  /** The requests in the order handled downstream. */
  function Handled(trace: seq<Down>): seq<Item> {
    if trace == [] then [] else Handled(trace[..|trace| - 1]) + ItemsOf(trace[|trace| - 1])
  }

  function AnswersOf(d: Down): seq<Answer> {
    match d
    case Flushed(batch, r) => seq(|batch|, i requires 0 <= i < |batch| => ProposeAnswer(batch[i].id, r))
    case Unsent(batch) => seq(|batch|, i requires 0 <= i < |batch| => ProposeAnswer(batch[i].id, Err(Serialization)))
    case Synced(id, t) => [SyncAnswer(id, t)]
  }

  function Answers(trace: seq<Down>): seq<Answer> {
    if trace == [] then [] else Answers(trace[..|trace| - 1]) + AnswersOf(trace[|trace| - 1])
  }

  /** The answer goes to the caller of the request and is of its kind. */
  predicate AnswersItem(a: Answer, item: Item) {
    match item
    case ProposeItem(p) => a.ProposeAnswer? && a.id == p.id
    case SyncItem(id) => a.SyncAnswer? && a.id == id
  }

  ghost predicate AnswerEach(answers: seq<Answer>, items: seq<Item>) {
    |answers| == |items| && forall i :: 0 <= i < |items| ==> AnswersItem(answers[i], items[i])
  }

  /** Each request that was handled is answered once, in the order handled. */
  lemma {:induction false} AnswersHandled(trace: seq<Down>)
    ensures AnswerEach(Answers(trace), Handled(trace))
    decreases |trace|
  {
    if trace != [] {
      AnswersHandled(trace[..|trace| - 1]);
    }
  }

  /** Step j of the trace, by the answers: each caller of its batch gets the outcome of that batch, the
      caller of its sync the tail that the sync got. */
  ghost predicate Carries(answers: seq<Answer>, trace: seq<Down>, j: nat)
    requires j < |trace|
  {
    var from := |Handled(trace[..j])|;
    match trace[j]
    case Flushed(batch, r) =>
      from + |batch| <= |answers| && forall i :: 0 <= i < |batch| ==> answers[from + i] == ProposeAnswer(batch[i].id, r)
    case Unsent(batch) =>
      from + |batch| <= |answers| && forall i :: 0 <= i < |batch| ==> answers[from + i] == ProposeAnswer(batch[i].id, Err(Serialization))
    case Synced(id, t) => from < |answers| && answers[from] == SyncAnswer(id, t)
  }

  lemma CarriesLonger(answers: seq<Answer>, more: seq<Answer>, trace: seq<Down>, d: Down, j: nat)
    requires j < |trace| && Carries(answers, trace, j)
    ensures Carries(answers + more, trace + [d], j)
  {
    assert (trace + [d])[..j] == trace[..j];
  }

  lemma CarriesLast(trace: seq<Down>, d: Down)
    ensures Carries(Answers(trace) + AnswersOf(d), trace + [d], |trace|)
  {
    AnswersHandled(trace);
    assert (trace + [d])[..|trace|] == trace;
  }

  lemma {:induction false} AnswersCarry(trace: seq<Down>, j: nat)
    requires j < |trace|
    ensures Carries(Answers(trace), trace, j)
    decreases |trace|
  {
    var front, d := trace[..|trace| - 1], trace[|trace| - 1];
    assert front + [d] == trace;
    if j < |front| {
      AnswersCarry(front, j);
      CarriesLonger(Answers(front), AnswersOf(d), front, d, j);
    } else {
      CarriesLast(front, d);
    }
  }

  // ---- The downstream engine ----

  /** A call to the downstream engine, with what it answered. */
  datatype DownCall = ProposeCall(entry: Entry, result: Result<ReturnValue>) | SyncCall(tail: Result<LogPos>)

  class Downstream {
    var calls: seq<DownCall>

    constructor ()
      ensures calls == []
    {
      calls := [];
    }

    method Propose(e: Entry) returns (r: Result<ReturnValue>)
      modifies this
      ensures calls == old(calls) + [ProposeCall(e, r)]
    {
      r := *;
      calls := calls + [ProposeCall(e, r)];
    }

    method Sync() returns (t: Result<LogPos>)
      modifies this
      ensures calls == old(calls) + [SyncCall(t)]
    {
      t := *;
      calls := calls + [SyncCall(t)];
    }
  }

  function Payloads(ps: seq<Proposal>): seq<Payload> {
    seq(|ps|, i requires 0 <= i < |ps| => ps[i].payload)
  }

  function CallsOf(d: Down): seq<DownCall> {
    match d
    case Flushed(batch, r) => [ProposeCall(BatchEntry(Payloads(batch)), r)]
    case Unsent(_) => []
    case Synced(_, t) => [SyncCall(t)]
  }

  /** The calls that the trace stands for. */
  function Calls(trace: seq<Down>): seq<DownCall> {
    if trace == [] then [] else Calls(trace[..|trace| - 1]) + CallsOf(trace[|trace| - 1])
  }

  type Encodes = seq<Payload> -> bool

  /** Batches have between 1 and limit proposals, and are sent exactly if their payloads serialize. */
  ghost predicate BatchOk(d: Down, limit: nat, encodes: Encodes) {
    d.Synced? || (1 <= |d.batch| <= limit && (d.Flushed? <==> encodes(Payloads(d.batch))))
  }

  ghost predicate BatchesOk(trace: seq<Down>, limit: nat, encodes: Encodes) {
    forall i :: 0 <= i < |trace| ==> BatchOk(trace[i], limit, encodes)
  }

  lemma OneMore(trace: seq<Down>, d: Down, limit: nat, encodes: Encodes)
    requires BatchesOk(trace, limit, encodes) && BatchOk(d, limit, encodes)
    ensures Handled(trace + [d]) == Handled(trace) + ItemsOf(d)
    ensures Answers(trace + [d]) == Answers(trace) + AnswersOf(d)
    ensures Calls(trace + [d]) == Calls(trace) + CallsOf(d)
    ensures BatchesOk(trace + [d], limit, encodes)
  {
  }

  class FlushLoop {
    const maxBatch: nat
    const down: Downstream
    const encodes: Encodes
    var pending: seq<Proposal>
    var answers: seq<Answer>
    ghost var trace: seq<Down>

    constructor (maxBatch: nat, down: Downstream, encodes: Encodes)
      requires down.calls == []
      ensures this.maxBatch == maxBatch && this.down == down && this.encodes == encodes
      ensures pending == [] && trace == [] && answers == [] && Valid()
    {
      this.maxBatch, this.down, this.encodes := maxBatch, down, encodes;
      pending, trace, answers := [], [], [];
    }

    /** Batches hold at least one proposal, even when the configured maximum is 0. */
    function Limit(): nat
      reads this
    {
      if maxBatch == 0 then 1 else maxBatch
    }

    /** The trace is what was called downstream and what was answered, and its batches are in order. */
    ghost predicate Told()
      reads this, down
    {
      answers == Answers(trace) && down.calls == Calls(trace) && BatchesOk(trace, Limit(), encodes)
    }

    ghost predicate Valid()
      reads this, down
    {
      Told() && |pending| <= Limit()
    }

    /** One answer for each caller of the batch. */
    method AnswerAll(batch: seq<Proposal>, reply: Result<ReturnValue>)
      modifies this`answers
      ensures answers == old(answers) + AnswersOf(Flushed(batch, reply))
    {
      ghost var all := AnswersOf(Flushed(batch, reply));
      for i := 0 to |batch|
        invariant answers == old(answers) + all[..i]
      {
        answers := answers + [ProposeAnswer(batch[i].id, reply)];
      }
      assert all[..|batch|] == all;
    }

    /** The batch goes downstream as one entry or fails to serialize; each caller is answered with the outcome. */
    method Send(batch: seq<Proposal>)
      requires Told() && 1 <= |batch| <= Limit()
      modifies this`trace, this`answers, down
      ensures Told()
      ensures |trace| == |old(trace)| + 1 && old(trace) <= trace
      ensures Handled(trace) == Handled(old(trace)) + AsItems(batch)
    {
      var payloads := Payloads(batch);
      if !encodes(payloads) {
        AnswerAll(batch, Err(Serialization));
        OneMore(trace, Unsent(batch), Limit(), encodes);
        trace := trace + [Unsent(batch)];
        return;
      }
      var result := down.Propose(BatchEntry(payloads));
      AnswerAll(batch, result);
      OneMore(trace, Flushed(batch, result), Limit(), encodes);
      trace := trace + [Flushed(batch, result)];
    }

    /** Proposes the pending list downstream as one batch and answers each caller with the result. */
    method FlushBatch()
      requires Valid()
      modifies this, down
      ensures Valid() && pending == [] && old(trace) <= trace
      ensures Handled(trace) == Handled(old(trace)) + AsItems(old(pending))
      ensures |trace| == |old(trace)| + if old(pending) == [] then 0 else 1
    {
      if pending == [] {
        return;
      }
      var batch := pending;
      pending := [];
      Send(batch);
    }

    method SyncDownstream(id: nat)
      requires Valid() && pending == []
      modifies this, down
      ensures Valid() && pending == [] && old(trace) <= trace
      ensures Handled(trace) == Handled(old(trace)) + [SyncItem(id)]
    {
      var tail := down.Sync();
      OneMore(trace, Down.Synced(id, tail), Limit(), encodes);
      trace := trace + [Down.Synced(id, tail)];
      answers := answers + [SyncAnswer(id, tail)];
    }

    /** A proposal joins the pending list, which is sent once it is full. */
    method Accept(p: Proposal)
      requires Valid() && |pending| < Limit()
      modifies this, down
      ensures Valid() && |pending| < Limit() && old(trace) <= trace
      ensures trace == old(trace) <==> |old(pending)| + 1 < maxBatch
      ensures Handled(trace) + AsItems(pending) == old(Handled(trace) + AsItems(pending)) + [ProposeItem(p)]
    {
      assert AsItems(pending + [p]) == AsItems(pending) + [ProposeItem(p)];
      pending := pending + [p];
      if |pending| >= maxBatch {
        FlushBatch();
      }
    }

    /** Serves one event. What was handled, followed by what is pending, grows by the event's request. A
        batch is sent when it is full, on a timeout and before a sync, and not otherwise. */
    method Serve(ev: Event)
      requires Valid() && |pending| < Limit()
      modifies this, down
      ensures Valid() && |pending| < Limit() && old(trace) <= trace
      ensures !ev.Submit? ==> pending == []
      ensures ev.Submit? ==> (trace == old(trace) <==> |old(pending)| + 1 < maxBatch)
      ensures Handled(trace) + AsItems(pending) == old(Handled(trace) + AsItems(pending)) + RequestOf(ev)
    {
      match ev {
        case Submit(p) => Accept(p);
        case SyncRequest(id) =>
          if pending != [] {
            FlushBatch();
          }
          SyncDownstream(id);
        case Timeout =>
          if pending != [] {
            FlushBatch();
          }
      }
    }

    /** Serves events until the channel closes. At the end every request has been handled downstream in
        the order it was received, so a sync follows every earlier proposal, and answered once, with what
        the downstream engine answered for it. */
    method Run(events: seq<Event>)
      requires Valid() && pending == [] && trace == []
      modifies this, down
      ensures Valid() && pending == []
      ensures Handled(trace) == Requests(events)
      ensures AnswerEach(answers, Requests(events))
      ensures forall j :: 0 <= j < |trace| ==> Carries(answers, trace, j)
    {
      for i := 0 to |events|
        invariant Valid() && |pending| < Limit()
        invariant Handled(trace) + AsItems(pending) == Requests(events[..i])
      {
        assert events[..i + 1][..i] == events[..i];
        Serve(events[i]);
      }
      assert events[..|events|] == events;
      if pending != [] {
        FlushBatch();
      }
      AnswersHandled(trace);
      forall j | 0 <= j < |trace| ensures Carries(answers, trace, j) {
        AnswersCarry(trace, j);
      }
    }
  }
}
