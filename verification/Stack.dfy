/** Engines over virtual logs in one system: every engine has its own virtual log and store, runs one call
    at a time, and crashes and restarts between any two steps. All virtual logs share the MetaStore and the
    loglets. The engines' single apply loops are what makes every reconfiguration run alone. */
module Stack {
  import opened RelosCore
  import opened LocalStore
  import opened Engine
  import Batching
  import Table
  import TableReads
  import EndToEnd
  import FlatLog
  import LogletSpec
  import R = Reconfig
  import S = ReconfigSafety
  import T = ReconfigTheorems

  /** What the apply loop is doing; o is the virtual-log call it awaits. A play runs to `until`, which the
      append or tail check `goal` has set, and keeps the result of applying the last entry before it. */
  datatype Job =
    | Idle
    | Proposing(o: nat)
    | Checking(o: nat)
    | Playing(goal: nat, until: LogPos, result: Option<ReturnValue>)
    | Reading(goal: nat, until: LogPos, result: Option<ReturnValue>, o: nat)
    | Bumping(goal: nat, until: LogPos, result: Option<ReturnValue>)

  /** The virtual log, the cursor and the job are lost in a crash, the store is not. */
  datatype Memory = Down | Up(vlog: nat, cursor: LogPos, job: Job)

  datatype Node = Node(store: Data, memory: Memory)

  datatype State = State(log: R.State, nodes: map<nat, Node>)

  datatype Action =
    | Boot(r: nat, v: nat)
    | Crash(r: nat)
    | LogStep(la: R.Action)
    | Propose(r: nat, o: nat, e: Entry)
    | Sync(r: nat, o: nat)
    | Appended(r: nat)
    | TailKnown(r: nat)
    | Read(r: nat, o: nat)
    | Commit(r: nat)
    | Bump(r: nat)
    | GiveUp(r: nat)
    | Finish(r: nat)

  ghost predicate Init(st: State, initialId: string) {
    R.Init(st.log, initialId) && st.nodes == map[]
  }

  function InFlight(job: Job): Option<nat> {
    match job
    case Proposing(o) => Some(o)
    case Checking(o) => Some(o)
    case Reading(_, _, _, o) => Some(o)
    case _ => None
  }

  predicate IsUp(st: State, r: nat) {
    r in st.nodes && st.nodes[r].memory.Up?
  }

  /** A new node starts with an empty store. */
  function StoreOf(st: State, r: nat): Data {
    if r in st.nodes then st.nodes[r].store else map[]
  }

  /** What the step does to the virtual logs: a boot joins with a new one, a crash drops the call in flight. */
  ghost function LogAction(st: State, a: Action): Option<R.Action> {
    match a
    case Boot(_, v) => Some(R.Join(v))
    case Crash(r) =>
      if IsUp(st, r) && InFlight(st.nodes[r].memory.job).Some?
         && R.Enabled(st.log, R.Drop(InFlight(st.nodes[r].memory.job).value))
      then Some(R.Drop(InFlight(st.nodes[r].memory.job).value)) else None
    case LogStep(la) => Some(la)
    case Propose(r, o, e) => if IsUp(st, r) then Some(R.Begin(o, st.nodes[r].memory.vlog, R.Append(e))) else None
    case Sync(r, o) => if IsUp(st, r) then Some(R.Begin(o, st.nodes[r].memory.vlog, R.CheckTail)) else None
    case Read(r, o) =>
      if IsUp(st, r) then Some(R.Begin(o, st.nodes[r].memory.vlog, R.Read(st.nodes[r].memory.cursor))) else None
    case _ => None
  }

  /** The node awaits a call, and what that call has come to. */
  ghost predicate Awaits(st: State, r: nat) {
    IsUp(st, r) && InFlight(st.nodes[r].memory.job).Some? && InFlight(st.nodes[r].memory.job).value in st.log.calls
  }

  ghost function AnswerTo(st: State, r: nat): R.Pc
    requires Awaits(st, r)
  {
    st.log.calls[InFlight(st.nodes[r].memory.job).value].pc
  }

  /** The awaited call failed, or found nothing to apply, or found an entry that the applicator refuses. */
  ghost predicate MustGiveUp(app: Applicator, n: Node, answer: R.Pc)
    requires n.memory.Up?
  {
    || answer.Dead?
    || (n.memory.job.Reading? && answer.ReadDone?
        && (answer.answer.Found? ==> ApplyEntry(app, n.store, answer.answer.entry, n.memory.cursor).Err?))
  }

  ghost predicate NodeEnabled(app: Applicator, st: State, a: Action) {
    match a
    case Boot(r, v) => !IsUp(st, r) && StoredCursor(StoreOf(st, r)).Ok?
    case Crash(r) => IsUp(st, r)
    case LogStep(la) => !la.Join? && !la.Begin?
    case Propose(r, _, _) => IsUp(st, r) && st.nodes[r].memory.job.Idle?
    case Sync(r, _) => IsUp(st, r) && st.nodes[r].memory.job.Idle?
    case Appended(r) => Awaits(st, r) && st.nodes[r].memory.job.Proposing? && AnswerTo(st, r).Acked?
    case TailKnown(r) => Awaits(st, r) && st.nodes[r].memory.job.Checking? && AnswerTo(st, r).TailDone?
    case Read(r, _) => IsUp(st, r) && st.nodes[r].memory.job.Playing? && st.nodes[r].memory.cursor < st.nodes[r].memory.job.until
    case Commit(r) =>
      && Awaits(st, r) && st.nodes[r].memory.job.Reading?
      && AnswerTo(st, r).ReadDone? && AnswerTo(st, r).answer.Found?
      && ApplyEntry(app, st.nodes[r].store, AnswerTo(st, r).answer.entry, st.nodes[r].memory.cursor).Ok?
    case Bump(r) => IsUp(st, r) && st.nodes[r].memory.job.Bumping?
    case GiveUp(r) => Awaits(st, r) && MustGiveUp(app, st.nodes[r], AnswerTo(st, r))
    case Finish(r) => IsUp(st, r) && st.nodes[r].memory.job.Playing? && st.nodes[r].memory.cursor >= st.nodes[r].memory.job.until
  }

  ghost predicate Enabled(app: Applicator, st: State, a: Action) {
    NodeEnabled(app, st, a) && (LogAction(st, a).Some? ==> R.Enabled(st.log, LogAction(st, a).value))
  }

  ghost function LogAfter(st: State, a: Action): R.State
    requires LogAction(st, a).Some? ==> R.Enabled(st.log, LogAction(st, a).value)
  {
    if LogAction(st, a).Some? then R.Next(st.log, LogAction(st, a).value) else st.log
  }

  ghost function WithJob(st: State, r: nat, job: Job): map<nat, Node>
    requires IsUp(st, r)
  {
    st.nodes[r := st.nodes[r].(memory := Up(st.nodes[r].memory.vlog, st.nodes[r].memory.cursor, job))]
  }

  /** Effect and cursor committed together; the result of the last entry is kept. */
  ghost function CommitNode(app: Applicator, n: Node, e: Entry): Node
    requires n.memory.Up? && n.memory.job.Reading? && ApplyEntry(app, n.store, e, n.memory.cursor).Ok?
  {
    var (st', rv) := ApplyEntry(app, n.store, e, n.memory.cursor).value;
    var j := n.memory.job;
    Node(st', Up(n.memory.vlog, n.memory.cursor, Bumping(j.goal, j.until, if n.memory.cursor + 1 == j.until then Some(rv) else j.result)))
  }

  ghost function NodesAfter(app: Applicator, st: State, a: Action): map<nat, Node>
    requires NodeEnabled(app, st, a)
  {
    match a
    case Boot(r, v) => st.nodes[r := Node(StoreOf(st, r), Up(v, StoredCursor(StoreOf(st, r)).value, Idle))]
    case Crash(r) => st.nodes[r := st.nodes[r].(memory := Down)]
    case LogStep(_) => st.nodes
    case Propose(r, o, _) => WithJob(st, r, Proposing(o))
    case Sync(r, o) => WithJob(st, r, Checking(o))
    case Appended(r) => WithJob(st, r, Playing(st.nodes[r].memory.job.o, AnswerTo(st, r).g + 1, None))
    case TailKnown(r) => WithJob(st, r, Playing(st.nodes[r].memory.job.o, AnswerTo(st, r).tail, None))
    case Read(r, o) =>
      var j := st.nodes[r].memory.job;
      WithJob(st, r, Reading(j.goal, j.until, j.result, o))
    case Commit(r) =>
      st.nodes[r := CommitNode(app, st.nodes[r], AnswerTo(st, r).answer.entry)]
    case Bump(r) =>
      var n := st.nodes[r];
      st.nodes[r := Node(n.store, Up(n.memory.vlog, n.memory.cursor + 1, Playing(n.memory.job.goal, n.memory.job.until, n.memory.job.result)))]
    case GiveUp(r) => WithJob(st, r, Idle)
    case Finish(r) => WithJob(st, r, Idle)
  }

  ghost function Next(app: Applicator, st: State, a: Action): State
    requires Enabled(app, st, a)
  {
    State(LogAfter(st, a), NodesAfter(app, st, a))
  }

  // ---- The invariant ----

  ghost function LogOf(st: State): seq<Entry> {
    T.Entries(R.Log(st.log))
  }

  ghost predicate Owns(st: State, r: nat, o: nat)
    requires o in st.log.calls
  {
    IsUp(st, r) && InFlight(st.nodes[r].memory.job) == Some(o) && st.nodes[r].memory.vlog == st.log.calls[o].replica
  }

  /** Every call that is still running is awaited by the node whose virtual log it runs on. */
  ghost predicate Owned(st: State) {
    forall o :: o in st.log.calls && !R.Done(st.log.calls[o].pc) ==> exists r :: Owns(st, r, o)
  }

  /** No two running nodes share a virtual log. */
  ghost predicate OwnLogs(st: State) {
    && (forall r :: IsUp(st, r) ==> st.nodes[r].memory.vlog in st.log.replicas)
    && (forall r, q :: IsUp(st, r) && IsUp(st, q) && r != q ==> st.nodes[r].memory.vlog != st.nodes[q].memory.vlog)
  }

  /** No entry below the cursor is call o's. */
  ghost predicate NotYet(log: R.State, cursor: LogPos, o: nat) {
    forall i :: 0 <= i < |R.Log(log)| && i + 1 < cursor ==> R.Log(log)[i].op != o
  }

  /** The play up to `until` that call goal asked for: an acknowledged append is played up to its own entry,
      and once it is reached the result is that of the entry; a tail check up to its tail. */
  ghost predicate PlayOk(app: Applicator, log: R.State, committed: LogPos, goal: nat, until: LogPos, result: Option<ReturnValue>) {
    && goal in log.calls
    && (if log.calls[goal].kind.Append? then
          && log.calls[goal].pc.Acked? && until == log.calls[goal].pc.g + 1 && committed <= until
          && (committed == until ==>
                result.Some? && ResultAt(app, T.Entries(R.Log(log)), log.calls[goal].kind.entry, until - 1, result.value))
        else log.calls[goal].pc == R.TailDone(until))
  }

  ghost predicate JobOk(app: Applicator, log: R.State, cursor: LogPos, job: Job) {
    match job
    case Idle => true
    case Proposing(o) => o in log.calls && log.calls[o].kind.Append? && NotYet(log, cursor, o)
    case Checking(o) => o in log.calls && log.calls[o].kind.CheckTail?
    case Playing(goal, until, result) => PlayOk(app, log, cursor, goal, until, result)
    case Reading(goal, until, result, o) =>
      PlayOk(app, log, cursor, goal, until, result) && cursor < until && o in log.calls && log.calls[o].kind == R.Read(cursor)
    case Bumping(goal, until, result) => PlayOk(app, log, cursor + 1, goal, until, result)
  }

  /** The store is the log replayed up to its cursor, and the cursor in memory is the committed one, except
      right after a commit, when it is one behind. */
  ghost predicate NodeOk(app: Applicator, log: R.State, n: Node) {
    && Replayed(app, T.Entries(R.Log(log)), n.store)
    && (n.memory.Up? ==>
          && StoredCursor(n.store) == Ok(if n.memory.job.Bumping? then n.memory.cursor + 1 else n.memory.cursor)
          && JobOk(app, log, n.memory.cursor, n.memory.job))
  }

  /** Every entry of the log was appended by a call that has begun. */
  ghost predicate Stamped(log: R.State) {
    forall i :: 0 <= i < |R.Log(log)| ==> R.Log(log)[i].op in log.calls
  }

  ghost predicate NodesOk(app: Applicator, st: State) {
    forall r :: r in st.nodes ==> NodeOk(app, st.log, st.nodes[r])
  }

  ghost predicate Inv(app: Applicator, st: State, initialId: string) {
    R.Inv(st.log, initialId) && Stamped(st.log) && Owned(st) && OwnLogs(st) && NodesOk(app, st)
  }

  // ---- Engines supply the discipline ----

  /** A node runs one call at a time on a virtual log of its own, so a reconfiguration always runs alone. */
  lemma EnginesAreDisciplined(st: State, la: R.Action)
    requires Owned(st) && OwnLogs(st)
    ensures R.Disciplined(st.log, la)
  {
    if la.Go? && la.o in st.log.calls && st.log.calls[la.o].pc.NeedReconf? {
      var r :| Owns(st, r, la.o);
    }
  }

  lemma LogKeeps(st: State, a: Action, initialId: string)
    requires R.Inv(st.log, initialId) && Owned(st) && OwnLogs(st) && Stamped(st.log)
    requires LogAction(st, a).Some? ==> R.Enabled(st.log, LogAction(st, a).value)
    ensures R.Inv(LogAfter(st, a), initialId) && S.Grows(st.log, LogAfter(st, a)) && Stamped(LogAfter(st, a))
  {
    if LogAction(st, a).Some? {
      var la := LogAction(st, a).value;
      EnginesAreDisciplined(st, la);
      T.StepKeeps(st.log, la, initialId);
      T.StepAppends(st.log, la, initialId);
      StillStamped(st.log, LogAfter(st, a), la);
    } else {
      S.OlderViewRefl(st.log.meta.chain);
    }
  }

  lemma StillStamped(log: R.State, log': R.State, la: R.Action)
    requires S.Grows(log, log') && Stamped(log)
    requires R.Log(log') == R.Log(log) ||
             (la.Go? && la.o in log.calls && log.calls[la.o].kind.Append?
              && R.Log(log') == R.Log(log) + [LogletSpec.Stamp(la.o, log.calls[la.o].kind.entry)])
    ensures Stamped(log')
  {
  }

  // ---- What a log step leaves of the nodes' part ----

  lemma EntriesGrow(log: R.State, log': R.State)
    requires S.Grows(log, log')
    ensures T.Entries(R.Log(log)) <= T.Entries(R.Log(log'))
  {
  }

  lemma PlayLater(app: Applicator, log: R.State, log': R.State, committed: LogPos, goal: nat, until: LogPos, result: Option<ReturnValue>)
    requires PlayOk(app, log, committed, goal, until, result) && S.Grows(log, log')
    ensures PlayOk(app, log', committed, goal, until, result)
  {
    EntriesGrow(log, log');
    if log.calls[goal].kind.Append? && committed == until {
      ResultLater(app, T.Entries(R.Log(log)), T.Entries(R.Log(log')), log.calls[goal].kind.entry, until - 1, result.value);
    }
  }

  lemma JobLater(app: Applicator, log: R.State, log': R.State, cursor: LogPos, job: Job)
    requires JobOk(app, log, cursor, job) && S.Grows(log, log') && cursor <= |R.Log(log)| + 1
    ensures JobOk(app, log', cursor, job)
  {
    match job
    case Playing(goal, until, result) => PlayLater(app, log, log', cursor, goal, until, result);
    case Reading(goal, until, result, _) => PlayLater(app, log, log', cursor, goal, until, result);
    case Bumping(goal, until, result) => PlayLater(app, log, log', cursor + 1, goal, until, result);
    case _ =>
  }

  lemma NodeLater(app: Applicator, log: R.State, log': R.State, n: Node)
    requires NodeOk(app, log, n) && S.Grows(log, log')
    ensures NodeOk(app, log', n)
  {
    EntriesGrow(log, log');
    ReplayedLater(app, T.Entries(R.Log(log)), T.Entries(R.Log(log')), n.store);
    if n.memory.Up? { JobLater(app, log, log', n.memory.cursor, n.memory.job); }
  }

  /** The actor of a node step. */
  function Actor(a: Action): Option<nat> {
    match a
    case LogStep(_) => None
    case _ => Some(a.r)
  }

  lemma OthersStay(app: Applicator, st: State, a: Action, r: nat)
    requires NodeEnabled(app, st, a) && Actor(a) != Some(r) && r in NodesAfter(app, st, a)
    ensures r in st.nodes && NodesAfter(app, st, a)[r] == st.nodes[r]
  {
  }

  ghost predicate CallFine(log: R.State, o: nat) {
    o in log.calls && log.calls[o].replica in log.replicas && R.CallOk(log, o)
  }

  lemma CoreCall(log: R.State, o: nat)
    requires R.Core(log) && o in log.calls
    ensures CallFine(log, o)
  {
    S.CallFacts(log, o);
  }

  lemma FoundIsEntry(log: R.State, o: nat)
    requires CallFine(log, o) && log.calls[o].pc.ReadDone? && log.calls[o].pc.answer.Found?
    ensures var es, call := T.Entries(R.Log(log)), log.calls[o];
            call.kind.Read? && 1 <= call.kind.g <= |es| && es[call.kind.g - 1] == call.pc.answer.entry
  {
  }

  lemma CommitIs(app: Applicator, st: State, r: nat)
    requires NodeEnabled(app, st, Commit(r))
    ensures NodesAfter(app, st, Commit(r))[r] == CommitNode(app, st.nodes[r], AnswerTo(st, r).answer.entry)
  {
  }

  /** A committed entry is the log's entry at the cursor, and the last one gives the goal's result. */
  lemma CommitOk(app: Applicator, log: R.State, n: Node, e: Entry)
    requires NodeOk(app, log, n) && n.memory.Up? && n.memory.job.Reading?
    requires CallFine(log, n.memory.job.o) && CallFine(log, n.memory.job.goal)
    requires log.calls[n.memory.job.o].pc == R.ReadDone(R.Found(e)) && ApplyEntry(app, n.store, e, n.memory.cursor).Ok?
    ensures NodeOk(app, log, CommitNode(app, n, e))
  {
    FoundIsEntry(log, n.memory.job.o);
    if log.calls[n.memory.job.goal].kind.Append? { GoalEntry(log, n.memory.job.goal); }
    Committed(app, T.Entries(R.Log(log)), n.store, n.memory.cursor, e);
    CommitPlayOk(app, log, T.Entries(R.Log(log)), n, e);
  }

  lemma CommitPlayOk(app: Applicator, log: R.State, es: seq<Entry>, n: Node, e: Entry)
    requires n.memory.Up? && n.memory.job.Reading? && ApplyEntry(app, n.store, e, n.memory.cursor).Ok?
    requires es == T.Entries(R.Log(log)) && 1 <= n.memory.cursor <= |es| && es[n.memory.cursor - 1] == e
    requires Replayed(app, es, n.store) && StoredCursor(n.store) == Ok(n.memory.cursor)
    requires var j := n.memory.job; PlayOk(app, log, n.memory.cursor, j.goal, j.until, j.result) && n.memory.cursor < j.until
    requires var call := log.calls[n.memory.job.goal]; call.kind.Append? ==> call.pc.g <= |es| && es[call.pc.g - 1] == call.kind.entry
    ensures var m := CommitNode(app, n, e).memory; JobOk(app, log, m.cursor, m.job)
  {
    var c := n.memory.cursor;
    var (st', rv) := ApplyEntry(app, n.store, e, c).value;
    ResultHere(app, es, es, n.store, c, st', rv);
  }

  lemma GoalEntry(log: R.State, goal: nat)
    requires CallFine(log, goal) && log.calls[goal].pc.Acked?
    ensures var es, call := T.Entries(R.Log(log)), log.calls[goal];
            call.kind.Append? && 1 <= call.pc.g <= |es| && es[call.pc.g - 1] == call.kind.entry
            && R.Log(log)[call.pc.g - 1] == LogletSpec.Stamp(goal, call.kind.entry)
  {
  }

  lemma Committed(app: Applicator, es: seq<Entry>, st: Data, c: LogPos, e: Entry)
    requires Replayed(app, es, st) && StoredCursor(st) == Ok(c) && c <= |es| && es[c - 1] == e && ApplyEntry(app, st, e, c).Ok?
    ensures var st' := ApplyEntry(app, st, e, c).value.0; Replayed(app, es, st') && StoredCursor(st') == Ok(c + 1)
  {
    ApplyReplayed(app, es, st);
  }

  lemma ActorOk(app: Applicator, st: State, a: Action)
    requires R.Core(st.log) && Stamped(st.log) && NodesOk(app, st) && Enabled(app, st, a) && Actor(a).Some?
    requires S.Grows(st.log, LogAfter(st, a))
    ensures Actor(a).value in NodesAfter(app, st, a) && NodeOk(app, LogAfter(st, a), NodesAfter(app, st, a)[Actor(a).value])
  {
    var r := a.r;
    if a.Commit? {
      CommitIs(app, st, r);
      CoreCall(st.log, st.nodes[r].memory.job.o);
      CoreCall(st.log, st.nodes[r].memory.job.goal);
      CommitOk(app, st.log, st.nodes[r], AnswerTo(st, r).answer.entry);
    } else if r in st.nodes {
      NodeLater(app, st.log, LogAfter(st, a), st.nodes[r]);
      if IsUp(st, r) { NewJobOk(app, st, a); }
      StoreStays(app, st, a);
    } else {
      EmptyReplayed(app, T.Entries(R.Log(LogAfter(st, a))));
    }
  }

  /** Other steps of a node leave its store, and its cursor as the store has it. */
  lemma StoreStays(app: Applicator, st: State, a: Action)
    requires Enabled(app, st, a) && Actor(a).Some? && !a.Commit? && a.r in st.nodes
    requires NodeOk(app, LogAfter(st, a), st.nodes[a.r])
    requires IsUp(st, a.r) && NodesAfter(app, st, a)[a.r].memory.Up? ==>
               JobOk(app, LogAfter(st, a), NodesAfter(app, st, a)[a.r].memory.cursor, NodesAfter(app, st, a)[a.r].memory.job)
    ensures NodeOk(app, LogAfter(st, a), NodesAfter(app, st, a)[a.r])
  {
  }

  lemma NewJobOk(app: Applicator, st: State, a: Action)
    requires R.Core(st.log) && Stamped(st.log) && NodesOk(app, st)
    requires Enabled(app, st, a) && Actor(a).Some? && !a.Commit? && IsUp(st, a.r)
    requires NodeOk(app, LogAfter(st, a), st.nodes[a.r])
    ensures var m := NodesAfter(app, st, a)[a.r].memory; m.Up? ==> JobOk(app, LogAfter(st, a), m.cursor, m.job)
  {
    if a.Propose? || a.Sync? || a.Read? {
      BegunJobOk(app, st, a);
    } else if a.Appended? || a.TailKnown? {
      AnsweredJobOk(app, st, a);
    }
  }

  /** A call that a node begins is the one its new job awaits; a new append has no entry in the log yet. */
  lemma BegunJobOk(app: Applicator, st: State, a: Action)
    requires Enabled(app, st, a) && (a.Propose? || a.Sync? || a.Read?) && Stamped(st.log) && NodeOk(app, LogAfter(st, a), st.nodes[a.r])
    ensures var m := NodesAfter(app, st, a)[a.r].memory; m.Up? && JobOk(app, LogAfter(st, a), m.cursor, m.job)
  {
    if a.Propose? {
      assert R.Log(LogAfter(st, a)) == R.Log(st.log);
      forall i | 0 <= i < |R.Log(st.log)| ensures R.Log(st.log)[i].op != a.o {
        assert R.Log(st.log)[i].op in st.log.calls;
      }
    }
  }

  /** The answer to the awaited call sets the play; an append's own position is not below the cursor. */
  lemma AnsweredJobOk(app: Applicator, st: State, a: Action)
    requires R.Core(st.log) && Enabled(app, st, a) && (a.Appended? || a.TailKnown?) && NodeOk(app, st.log, st.nodes[a.r])
    ensures var m := NodesAfter(app, st, a)[a.r].memory; m.Up? && JobOk(app, LogAfter(st, a), m.cursor, m.job)
  {
    if a.Appended? {
      CoreCall(st.log, st.nodes[a.r].memory.job.o);
      GoalEntry(st.log, st.nodes[a.r].memory.job.o);
    }
  }

  lemma BegunOwns(app: Applicator, st: State, a: Action)
    requires Enabled(app, st, a) && (a.Propose? || a.Sync? || a.Read?)
    ensures a.o in LogAfter(st, a).calls && Owns(Next(app, st, a), a.r, a.o)
  {
  }

  /** A proposal or sync ends by finishing, by giving up for one of the reasons above, or in a crash. */
  lemma WaysOut(app: Applicator, st: State, a: Action, r: nat)
    requires Enabled(app, st, a) && IsUp(st, r) && !st.nodes[r].memory.job.Idle?
    requires r in Next(app, st, a).nodes && !(IsUp(Next(app, st, a), r) && !Next(app, st, a).nodes[r].memory.job.Idle?)
    ensures a == Finish(r) || a == GiveUp(r) || a == Crash(r)
  {
  }

  lemma NodesKeep(app: Applicator, st: State, a: Action)
    requires R.Core(st.log) && Stamped(st.log) && NodesOk(app, st) && Enabled(app, st, a) && S.Grows(st.log, LogAfter(st, a))
    ensures NodesOk(app, Next(app, st, a))
  {
    var nodes := NodesAfter(app, st, a);
    forall r | r in nodes ensures NodeOk(app, LogAfter(st, a), nodes[r]) {
      if Actor(a) == Some(r) {
        ActorOk(app, st, a);
      } else {
        OthersStay(app, st, a, r);
        NodeLater(app, st.log, LogAfter(st, a), st.nodes[r]);
      }
    }
  }

  lemma OwnLogsKeep(app: Applicator, st: State, a: Action)
    requires OwnLogs(st) && Enabled(app, st, a) && S.Grows(st.log, LogAfter(st, a))
    ensures OwnLogs(Next(app, st, a))
  {
    var st' := Next(app, st, a);
    forall r | IsUp(st', r) ensures st'.nodes[r].memory.vlog in st'.log.replicas {
      LogOfNode(app, st, a, r);
    }
    forall r, q | IsUp(st', r) && IsUp(st', q) && r != q ensures st'.nodes[r].memory.vlog != st'.nodes[q].memory.vlog {
      LogOfNode(app, st, a, r);
      LogOfNode(app, st, a, q);
    }
  }

  /** A running node has the virtual log it had, or has just booted with a new one. */
  lemma LogOfNode(app: Applicator, st: State, a: Action, r: nat)
    requires Enabled(app, st, a) && IsUp(Next(app, st, a), r)
    ensures var v := Next(app, st, a).nodes[r].memory.vlog;
            if a.Boot? && a.r == r then v == a.v && v !in st.log.replicas && v in Next(app, st, a).log.replicas
            else IsUp(st, r) && st.nodes[r].memory.vlog == v
  {
  }

  /** New calls are begun by nodes. */
  lemma NewCalls(app: Applicator, st: State, a: Action, o: nat)
    requires Enabled(app, st, a) && o in LogAfter(st, a).calls && o !in st.log.calls
    ensures (a.Propose? || a.Sync? || a.Read?) && a.o == o
  {
  }

  /** A node that stops awaiting a call does so because the call has ended, or ends it. */
  lemma OwnerStays(app: Applicator, st: State, a: Action, r: nat, o: nat)
    requires Enabled(app, st, a) && S.Grows(st.log, LogAfter(st, a))
    requires o in st.log.calls && Owns(st, r, o) && !R.Done(LogAfter(st, a).calls[o].pc)
    ensures Owns(Next(app, st, a), r, o)
  {
  }

  lemma OwnedKeeps(app: Applicator, st: State, a: Action)
    requires Owned(st) && Enabled(app, st, a) && S.Grows(st.log, LogAfter(st, a))
    ensures Owned(Next(app, st, a))
  {
    var st' := Next(app, st, a);
    forall o | o in st'.log.calls && !R.Done(st'.log.calls[o].pc) ensures exists r :: Owns(st', r, o) {
      if o in st.log.calls {
        var r :| Owns(st, r, o);
        OwnerStays(app, st, a, r, o);
      } else {
        NewCalls(app, st, a, o);
        BegunOwns(app, st, a);
      }
    }
  }

  lemma StepKeeps(app: Applicator, st: State, a: Action, initialId: string)
    requires Inv(app, st, initialId) && Enabled(app, st, a)
    ensures Inv(app, Next(app, st, a), initialId) && S.Grows(st.log, Next(app, st, a).log)
  {
    LogKeeps(st, a, initialId);
    NodesKeep(app, st, a);
    OwnLogsKeep(app, st, a);
    OwnedKeeps(app, st, a);
  }

  // ---- Runs ----

  ghost predicate Run(app: Applicator, initialId: string, tr: seq<State>, acts: seq<Action>) {
    && |tr| == |acts| + 1
    && FlatLog.SafeId(initialId)
    && Init(tr[0], initialId)
    && forall i :: 0 <= i < |acts| ==> Enabled(app, tr[i], acts[i]) && tr[i + 1] == Next(app, tr[i], acts[i])
  }

  lemma {:induction false} RunInv(app: Applicator, initialId: string, tr: seq<State>, acts: seq<Action>, i: nat)
    requires Run(app, initialId, tr, acts) && i < |tr|
    ensures Inv(app, tr[i], initialId)
  {
    if i == 0 {
      R.InitInv(tr[0].log, initialId);
      T.FreshLog(tr[0].log, initialId);
    } else {
      RunInv(app, initialId, tr, acts, i - 1);
      StepKeeps(app, tr[i - 1], acts[i - 1], initialId);
    }
  }

  lemma {:induction false} RunGrows(app: Applicator, initialId: string, tr: seq<State>, acts: seq<Action>, i: nat, j: nat)
    requires Run(app, initialId, tr, acts) && i <= j < |tr|
    ensures S.Grows(tr[i].log, tr[j].log)
    decreases j - i
  {
    RunInv(app, initialId, tr, acts, i);
    if i == j {
      S.OlderViewRefl(tr[i].log.meta.chain);
    } else {
      StepKeeps(app, tr[i], acts[i], initialId);
      RunGrows(app, initialId, tr, acts, i + 1, j);
      S.GrowsTransitive(tr[i].log, tr[i + 1].log, tr[j].log);
    }
  }

  /** Every step that the engines cause in the virtual logs is disciplined: nothing is assumed. */
  lemma AlwaysDisciplined(app: Applicator, initialId: string, tr: seq<State>, acts: seq<Action>, i: nat)
    requires Run(app, initialId, tr, acts) && i < |acts| && LogAction(tr[i], acts[i]).Some?
    ensures R.Disciplined(tr[i].log, LogAction(tr[i], acts[i]).value)
  {
    RunInv(app, initialId, tr, acts, i);
    EnginesAreDisciplined(tr[i], LogAction(tr[i], acts[i]).value);
  }

  lemma RunCallFine(app: Applicator, initialId: string, tr: seq<State>, acts: seq<Action>, i: nat, o: nat)
    requires Run(app, initialId, tr, acts) && i < |tr| && o in tr[i].log.calls
    ensures CallFine(tr[i].log, o)
  {
    RunInv(app, initialId, tr, acts, i);
    CoreCall(tr[i].log, o);
  }

  lemma RunNode(app: Applicator, initialId: string, tr: seq<State>, acts: seq<Action>, i: nat, r: nat)
    requires Run(app, initialId, tr, acts) && i < |tr| && r in tr[i].nodes
    ensures NodeOk(app, tr[i].log, tr[i].nodes[r])
  {
    RunInv(app, initialId, tr, acts, i);
  }

  lemma RunAcked(app: Applicator, initialId: string, tr: seq<State>, acts: seq<Action>, i: nat, o: nat)
    requires Run(app, initialId, tr, acts) && i < |tr| && o in tr[i].log.calls && tr[i].log.calls[o].pc.Acked?
    ensures var call, log := tr[i].log.calls[o], R.Log(tr[i].log);
            call.kind.Append? && 1 <= call.pc.g <= |log| && log[call.pc.g - 1] == LogletSpec.Stamp(o, call.kind.entry)
  {
    RunCallFine(app, initialId, tr, acts, i, o);
    GoalEntry(tr[i].log, o);
  }

  /** Acknowledged appends of all engines have distinct positions and stay where they are in the one log. */
  lemma StackAcks(app: Applicator, initialId: string, tr: seq<State>, acts: seq<Action>, i: nat, o: nat, j: nat)
    requires Run(app, initialId, tr, acts) && i <= j < |tr|
    requires o in tr[i].log.calls && tr[i].log.calls[o].pc.Acked?
    ensures var call := tr[i].log.calls[o];
            call.kind.Append? && 1 <= call.pc.g <= |LogOf(tr[j])| && LogOf(tr[j])[call.pc.g - 1] == call.kind.entry
    ensures forall p :: p in tr[j].log.calls && tr[j].log.calls[p].pc.Acked? && p != o ==>
              tr[j].log.calls[p].pc.g != tr[i].log.calls[o].pc.g
  {
    RunAcked(app, initialId, tr, acts, i, o);
    RunGrows(app, initialId, tr, acts, i, j);
    forall p | p in tr[j].log.calls && tr[j].log.calls[p].pc.Acked? && p != o
      ensures tr[j].log.calls[p].pc.g != tr[i].log.calls[o].pc.g
    {
      RunAcked(app, initialId, tr, acts, j, p);
    }
  }

  /** What a finished play means for the call that asked for it: a proposal has been played to, and the
      result kept is that of applying its own entry, at its position in the one log, to the state made by all
      earlier entries; a sync has the store cover every entry below the tail reported. */
  ghost predicate Answers(app: Applicator, log: R.State, n: Node)
    requires n.memory.Up? && n.memory.job.Playing?
  {
    var goal, result := n.memory.job.goal, n.memory.job.result;
    && goal in log.calls && StoredCursor(n.store).Ok?
    && (log.calls[goal].kind.Append? ==>
          && log.calls[goal].pc.Acked? && StoredCursor(n.store).value == log.calls[goal].pc.g + 1
          && result.Some? && ResultAt(app, T.Entries(R.Log(log)), log.calls[goal].kind.entry, log.calls[goal].pc.g, result.value))
    && (!log.calls[goal].kind.Append? ==> log.calls[goal].pc.TailDone? && log.calls[goal].pc.tail <= StoredCursor(n.store).value)
  }

  lemma FinishAnswers(app: Applicator, log: R.State, n: Node)
    requires NodeOk(app, log, n) && n.memory.Up? && n.memory.job.Playing? && n.memory.cursor >= n.memory.job.until
    ensures Answers(app, log, n)
  {
  }

  /** Every proposal and sync that an engine finishes is answered so. */
  lemma StackAnswers(app: Applicator, initialId: string, tr: seq<State>, acts: seq<Action>, i: nat)
    requires Run(app, initialId, tr, acts) && i < |acts| && acts[i].Finish?
    ensures IsUp(tr[i], acts[i].r) && tr[i].nodes[acts[i].r].memory.job.Playing?
    ensures Answers(app, tr[i].log, tr[i].nodes[acts[i].r])
  {
    assert NodeEnabled(app, tr[i], acts[i]);
    RunNode(app, initialId, tr, acts, i, acts[i].r);
    FinishAnswers(app, tr[i].log, tr[i].nodes[acts[i].r]);
  }

  /** Exactly once, over the real log: at every moment every store is the log, as the loglets hold it,
      replayed up to the store's own cursor, and stores at the same cursor, at any two moments, are equal. */
  lemma ExactlyOnce(app: Applicator, initialId: string, tr: seq<State>, acts: seq<Action>, i: nat, r: nat, j: nat, q: nat)
    requires Run(app, initialId, tr, acts) && i <= j < |tr| && r in tr[i].nodes && q in tr[j].nodes
    ensures Replayed(app, LogOf(tr[i]), tr[i].nodes[r].store) && Replayed(app, LogOf(tr[j]), tr[j].nodes[q].store)
    ensures StoredCursor(tr[i].nodes[r].store) == StoredCursor(tr[j].nodes[q].store) ==>
              tr[i].nodes[r].store == tr[j].nodes[q].store
  {
    RunNode(app, initialId, tr, acts, i, r);
    RunNode(app, initialId, tr, acts, j, q);
    RunGrows(app, initialId, tr, acts, i, j);
    EntriesGrow(tr[i].log, tr[j].log);
    if StoredCursor(tr[i].nodes[r].store) == StoredCursor(tr[j].nodes[q].store) {
      SameCursorSameStore(app, LogOf(tr[i]), tr[i].nodes[r].store, LogOf(tr[j]), tr[j].nodes[q].store);
    }
  }

  /** And with the table applicators every store represents the relational database made by the commands in
      the loglets below its cursor, through every reconfiguration, crash, batch and failure. */
  lemma StackTable(initialId: string, tr: seq<State>, acts: seq<Action>, i: nat, r: nat)
    requires Run(Batching.Batched(EndToEnd.TableApp()), initialId, tr, acts) && i < |tr| && r in tr[i].nodes
    ensures var log, st := LogOf(tr[i]), tr[i].nodes[r].store;
            && StoredCursor(st).Ok? && 1 <= StoredCursor(st).value <= |log| + 1
            && TableReads.TableInv(st)
            && (EndToEnd.SlashFreeHistory(log, StoredCursor(st).value - 1) ==>
                  Table.Represents(st, EndToEnd.DatabaseAt(log, StoredCursor(st).value - 1)))
  {
    ExactlyOnce(Batching.Batched(EndToEnd.TableApp()), initialId, tr, acts, i, r, i, r);
    var log, n := LogOf(tr[i]), StoredCursor(tr[i].nodes[r].store).value - 1;
    EndToEnd.ReplayKeepsInv(log, n);
    if EndToEnd.SlashFreeHistory(log, n) { EndToEnd.ReplayIsDatabase(log, n); }
  }
}
