/** The virtual log as an object: append with its retry loop, reconfiguration, reads and trims. */
module VirtualLogObject {
  import opened RelosCore
  import opened LogletSpec
  import opened Chain
  import opened FlatLog
  import opened MemoryLoglet
  import opened VirtualLog
  import opened VirtualLogViews

  /** What the environment does around one attempt of append: an outside sealer may seal the active
      loglet first, and the factory may fail to create the next one. */
  datatype Turn = Turn(sealFirst: bool, createFails: bool)

  /** At turn i of an append that began with the active loglet blocked or not, the attempt finds it
      sealed: reconfigurations leave a fresh one, so after turn 0 only the outside sealer matters. */
  predicate FindsSealed(env: seq<Turn>, i: nat, blocked: bool)
    requires i < |env|
  {
    env[i].sealFirst || (i == 0 && blocked)
  }

  /** All earlier turns found the loglet sealed and created the next one. */
  predicate Reached(env: seq<Turn>, i: nat, blocked: bool)
    requires i <= |env|
  {
    forall j :: 0 <= j < i ==> FindsSealed(env, j, blocked) && !env[j].createFails
  }

  /** Some turn is reached, finds the loglet sealed and cannot create the next one. */
  predicate AppendFails(env: seq<Turn>, blocked: bool) {
    exists i :: 0 <= i < |env| && Reached(env, i, blocked) && FindsSealed(env, i, blocked) && env[i].createFails
  }

  /** An append that came to turn i; behind env nobody seals. */
  ghost predicate Came(env: seq<Turn>, i: nat, blocked: bool) {
    if i <= |env| then Reached(env, i, blocked) else i == 1 && blocked
  }

  /** Coming to turn i decides, with that turn, whether the append fails. */
  lemma TurnEnds(env: seq<Turn>, i: nat, blocked: bool)
    requires Came(env, i, blocked)
    ensures i >= |env| ==> !AppendFails(env, blocked)
    ensures i < |env| && !FindsSealed(env, i, blocked) ==> !AppendFails(env, blocked)
    ensures i < |env| && FindsSealed(env, i, blocked) && env[i].createFails ==> AppendFails(env, blocked)
  {
  }

  /** Each turn but the last was caused by a seal. */
  lemma {:induction false} CameBound(env: seq<Turn>, i: nat, blocked: bool)
    requires Came(env, i, blocked)
    ensures i + SealsFrom(env, i) <= SealsFrom(env, 0) + if blocked then 1 else 0
  {
    if 0 < i <= |env| { CameBound(env, i - 1, blocked); }
  }

  /** How often the outside sealer strikes from turn i on. */
  function SealsFrom(env: seq<Turn>, i: nat): nat
    decreases |env| - i
  {
    if i >= |env| then 0 else SealsFrom(env, i + 1) + if env[i].sealFirst then 1 else 0
  }

  type Loglets = map<string, Mem>

  ghost function RegOf(ls: Loglets): Registry {
    map id | id in ls :: ls[id].loglet
  }

  ghost function TrimsOf(ls: Loglets): Trims {
    map id | id in ls :: ls[id].trimPos
  }

  lemma Projections(ls: Loglets, id: string, m: Mem)
    ensures RegOf(ls[id := m]) == RegOf(ls)[id := m.loglet]
    ensures TrimsOf(ls[id := m]) == TrimsOf(ls)[id := m.trimPos]
    ensures id in ls && m.loglet == ls[id].loglet ==> RegOf(ls[id := m]) == RegOf(ls)
    ensures id in ls && m.trimPos == ls[id].trimPos ==> TrimsOf(ls[id := m]) == TrimsOf(ls)
  {
  }

  /** 1 when the active loglet takes no appends. */
  ghost function Blocked(v: View): nat {
    if HasActive(v) && ActiveLoglet(v).sealed then 1 else 0
  }

  /** What an append must account for: version, trim point, flat length, and whether the loglet is blocked. */
  datatype Books = Books(version: nat, trimPoint: LogPos, length: nat, blocked: nat)

  ghost function Account(v: View): Books {
    Books(v.version, v.trimPoint, |LogOf(v)|, Blocked(v))
  }

  /** What a reconfiguration changes. */
  ghost function NextBooks(b: Books): Books {
    Books(b.version + 1, Min(b.trimPoint, b.length + 1), b.length, 0)
  }

  lemma ReconfigureBooks(v: View)
    requires HasActive(v) && OneMissing(Offered(v)) && LogOf(Offered(v)) == LogOf(v) && Installed(v, CaughtUp(Offered(v)))
    ensures Account(CaughtUp(Offered(v))) == NextBooks(Account(v))
    ensures Account(Offered(v)) == Account(v).(blocked := 1)
  {
  }

  /** The books at turn i of an append. */
  ghost predicate Kept(env: seq<Turn>, start: Books, i: nat, now: Books) {
    && Came(env, i, start.blocked == 1) && now.version == start.version + i && now.length == start.length
    && now.trimPoint == (if i == 0 then start.trimPoint else Min(start.trimPoint, start.length + 1))
    && now.blocked == (if i == 0 then start.blocked else 0)
  }

  /** One round of append: it ends with an answer, or has reconfigured and is to be tried again. */
  ghost predicate Attempted(before: Books, turn: Turn, done: bool, r: Result<LogPos>, now: Books) {
    var sealed := turn.sealFirst || before.blocked == 1;
    && (done && r.Ok? <==> !sealed) && (!done <==> sealed && !turn.createFails)
    && (done && r.Ok? ==> r.value == before.length + 1) && (r.Err? ==> !r.error.Sealed?)
    && (done ==> now.version == before.version && now.trimPoint == before.trimPoint)
    && (!done ==> r.Err? && now == NextBooks(before))
  }

  lemma SealedFirst(before: Books, turn: Turn, mid: Books, done: bool, r: Result<LogPos>, now: Books)
    requires mid == before.(blocked := if turn.sealFirst then 1 else before.blocked)
    requires Attempted(mid, Turn(false, turn.createFails), done, r, now)
    ensures Attempted(before, turn, done, r, now)
  {
  }

  lemma KeptOn(env: seq<Turn>, start: Books, i: nat, before: Books, turn: Turn, r: Result<LogPos>, now: Books)
    requires Kept(env, start, i, before) && turn == (if i < |env| then env[i] else Turn(false, false)) && start.blocked <= 1
    requires Attempted(before, turn, false, r, now)
    ensures Kept(env, start, i + 1, now) && i <= |env|
  {
  }

  /** How a whole append ends. */
  ghost predicate Appended(env: seq<Turn>, start: Books, r: Result<LogPos>, now: Books) {
    && (r.Ok? ==> r.value == start.length + 1) && (r.Err? ==> !r.error.Sealed?)
    && (r.Err? <==> AppendFails(env, start.blocked == 1))
    && now.trimPoint == (if now.version == start.version then start.trimPoint else Min(start.trimPoint, start.length + 1))
    && start.version <= now.version <= start.version + start.blocked + SealsFrom(env, 0)
    && (r.Ok? && start.blocked == 1 ==> now.version > start.version)
  }

  lemma KeptEnds(env: seq<Turn>, start: Books, i: nat, before: Books, turn: Turn, r: Result<LogPos>, now: Books)
    requires Kept(env, start, i, before) && turn == (if i < |env| then env[i] else Turn(false, false)) && start.blocked <= 1
    requires Attempted(before, turn, true, r, now)
    ensures Appended(env, start, r, now)
  {
    TurnEnds(env, i, start.blocked == 1);
    CameBound(env, i, start.blocked == 1);
  }

  /** The first i segments are trimmed for u, the others for t. */
  ghost predicate HalfTrimmed(c: Segments, trims: Trims, t: LogPos, u: LogPos, i: nat) {
    forall j :: 0 <= j < |c| ==> c[j].id in trims && TrimOk(c[j], trims[c[j].id], if j < i then u else t)
  }

  /** Trimming segment i for g. */
  lemma TrimStep(c: Segments, trims: Trims, t: LogPos, g: LogPos, i: nat)
    requires Partition(c) && Distinct(c) && i < |c|
    requires HalfTrimmed(c, trims, t, if g > t then g else t, i)
    ensures var q, p := TrimRequest(c[i], g), trims[c[i].id];
            && c[i].id in trims
            && HalfTrimmed(c, trims[c[i].id := if q.Some? && q.value > p then q.value else p], t, if g > t then g else t, i + 1)
            && (!(q.Some? && q.value > p) ==> HalfTrimmed(c, trims, t, if g > t then g else t, i + 1))
  {
  }

  /** The loglets with those of the chain added, empty, where they are not known. */
  function WithMissing(ls: Loglets, c: Segments): Loglets {
    map id | id in ls.Keys + Ids(c) :: if id in ls then ls[id] else FRESH_MEM
  }

  lemma MissingStep(ls: Loglets, c: Segments, i: nat)
    requires i < |c|
    ensures var w := WithMissing(ls, c[..i]);
            WithMissing(ls, c[..i + 1]) == if c[i].id in w then w else w[c[i].id := FRESH_MEM]
  {
    var a, b := c[..i], c[..i + 1];
    assert forall j :: 0 <= j < i ==> a[j] == b[j];
    assert b[i] == c[i];
    forall id ensures id in Ids(b) <==> id in Ids(a) + {c[i].id} {
      if id in Ids(a) { var j :| 0 <= j < i && a[j].id == id; assert b[j].id == id; }
    }
  }

  lemma NoneMissing(ls: Loglets, c: Segments, k: nat)
    requires k <= |c| && forall i :: 0 <= i < k ==> c[i].id in ls
    ensures WithMissing(ls, c[..k]) == ls
  {
    assert forall id :: id in Ids(c[..k]) ==> id in ls;
  }

  lemma LastMissing(ls: Loglets, c: Segments)
    requires c != [] && (forall i :: 0 <= i < |c| - 1 ==> c[i].id in ls) && c[|c| - 1].id !in ls
    ensures WithMissing(ls, c) == ls[c[|c| - 1].id := FRESH_MEM]
  {
    NoneMissing(ls, c, |c| - 1);
    MissingStep(ls, c, |c| - 1);
    assert c[..|c|] == c;
  }

  lemma FreshIsOpen(c: Segments, ls: Loglets)
    requires |c| > 1 && ls == WithMissing(map[], c)
    ensures !Closed(c, RegOf(ls))
  {
    assert c[0].id in Ids(c);
    assert !ClosedAt(c, RegOf(ls), 0);
  }

  /** Segment k is the first whose loglet is neither known nor creatable. */
  ghost predicate FailsFirst(ls: Loglets, c: Segments, failing: set<string>, k: nat)
    requires k < |c|
  {
    c[k].id !in ls && c[k].id in failing && forall j :: 0 <= j < k ==> c[j].id in ls || c[j].id !in failing
  }

  /** With only the last segment's loglet missing, syncing creates that one or leaves all as it was. */
  lemma SyncOne(ls: Loglets, c: Segments, createFails: bool)
    requires c != [] && (forall i :: 0 <= i < |c| ==> (c[i].id in ls <==> i < |c| - 1))
    ensures WithMissing(ls, c) == ls[c[|c| - 1].id := FRESH_MEM]
    ensures var failing := if createFails then Ids(c) else {};
            && ((forall i :: 0 <= i < |c| ==> c[i].id in ls || c[i].id !in failing) <==> !createFails)
            && forall k :: 0 <= k < |c| && FailsFirst(ls, c, failing, k) ==> WithMissing(ls, c[..k]) == ls
  {
    LastMissing(ls, c);
    NoneMissing(ls, c, |c| - 1);
    assert c[|c| - 1].id in Ids(c);
  }

  class VLog {
    const meta: MetaStore
    ghost const initialId: string
    var chain: Segments
    var chainVersion: nat
    var loglets: Loglets
    ghost var trimPoint: LogPos

    /** Reads the chain, whatever it is, and creates its loglets. They are new and empty, so only a first
        chain gives a valid virtual log: closed segments would need the loglets that fill them. */
    constructor (m: MetaStore, ghost id0: string)
      ensures meta == m && chain == m.chain && chainVersion == m.version && loglets == WithMissing(map[], m.chain)
      ensures trimPoint == LOG_POS_BEGIN && initialId == id0
      ensures m.chain == NewChain(id0) && m.version == 0 && SafeId(id0) ==> Valid() && Log() == [] && Blocked(Now()) == 0
      ensures |m.chain| > 1 ==> !Valid()
    {
      var c, v := m.Read();
      var created: Loglets := map[];
      for i := 0 to |c|
        invariant created == WithMissing(map[], c[..i])
      {
        MissingStep(map[], c, i);
        created := created[c[i].id := FRESH_MEM];
      }
      assert c[..|c|] == c;
      meta, chain, chainVersion, loglets := m, c, v, created;
      initialId, trimPoint := id0, LOG_POS_BEGIN;
      new;
      if c == NewChain(id0) && SafeId(id0) {
        NewChainGood(id0);
        LastMissing(map[], c);
        Projections(map[], id0, FRESH_MEM);
        assert RegOf(created) == map[id0 := EMPTY] && TrimsOf(created) == map[id0 := 1];
      }
      if |c| > 1 { FreshIsOpen(c, created); }
    }

    ghost function Now(): View
      reads this, meta
    {
      View(chain, chainVersion, RegOf(loglets), TrimsOf(loglets), trimPoint, meta.chain, meta.version, initialId)
    }

    ghost predicate Valid()
      reads this, meta
    {
      Good(Now())
    }

    /** Everything appended so far, as one sequence. */
    ghost function Log(): seq<Stamp>
      reads this, meta
    {
      LogOf(Now())
    }

    /** Some(id, start) of the active loglet. */
    method ActiveLogletOf() returns (r: Option<(string, LogPos)>)
      ensures r.Some? <==> ActiveSegment(chain).Some? && chain[|chain| - 1].id in loglets
      ensures r.Some? ==> r.value == (chain[|chain| - 1].id, chain[|chain| - 1].start)
      ensures Valid() ==> r.Some?
      ensures Valid() ==> r.value.1 + Tail(loglets[r.value.0].loglet) - 1 == |Log()| + 1
    {
      ghost var v := Now();
      if Valid() { ActiveKnown(v); }
      var s := ActiveSegment(chain);
      if s.None? || s.value.id !in loglets {
        return None;
      }
      return Some((s.value.id, s.value.start));
    }

    method CheckTail() returns (tail: Result<LogPos>)
      requires Valid()
      ensures tail == Ok(|Log()| + 1)
    {
      var a := ActiveLogletOf();
      if a.None? {
        return Err(Internal);
      }
      return Ok(ToGlobal(a.value.1, Tail(loglets[a.value.0].loglet)));
    }

    method Read(g: LogPos) returns (r: Result<Option<Entry>>)
      requires Valid()
      ensures FlatRead(Log(), trimPoint, g, r)
    {
      var s := FindSegment(chain, g);
      if g == 0 {
        NothingAtZero(chain);
      } else {
        ghost var k := FindSegmentUnique(chain, g);
        ReadIsFlat(chain, RegOf(loglets), TrimsOf(loglets), trimPoint, g, k);
      }
      if s.None? {
        return Err(Internal);
      }
      if s.value.id !in loglets {
        return Err(Internal);
      }
      r := ReadMem(loglets[s.value.id], ToLocal(s.value.start, g));
    }

    /** Sealing the active loglet, from outside or as the first step of a reconfiguration. */
    method SealActive() returns (tail: Result<LogPos>)
      modifies this`loglets
      ensures HasActive(old(Now())) ==> Now() == SealedView(old(Now())) && tail == Ok(ActiveTail(old(Now())))
      ensures !HasActive(old(Now())) ==> Now() == old(Now()) && tail == Err(Internal)
    {
      var a := ActiveLogletOf();
      if a.None? {
        return Err(Internal);
      }
      var (m, local) := SealMem(loglets[a.value.0]);
      Projections(loglets, a.value.0, m);
      loglets := loglets[a.value.0 := m];
      return Ok(ToGlobal(a.value.1, local));
    }

    /** Trims every segment that starts before g. */
    method TrimSegments(g: LogPos)
      requires Partition(chain) && Distinct(chain) && TrimsOk(chain, TrimsOf(loglets), trimPoint)
      modifies this`loglets
      ensures RegOf(loglets) == old(RegOf(loglets)) && loglets.Keys == old(loglets.Keys)
      ensures TrimsOk(chain, TrimsOf(loglets), if g > trimPoint then g else trimPoint)
    {
      var i := 0;
      ghost var t, u := trimPoint, if g > trimPoint then g else trimPoint;
      while i < |chain|
        invariant 0 <= i <= |chain|
        invariant RegOf(loglets) == old(RegOf(loglets)) && loglets.Keys == old(loglets.Keys)
        invariant HalfTrimmed(chain, TrimsOf(loglets), t, u, i)
      {
        TrimStep(chain, TrimsOf(loglets), t, g, i);
        var s := chain[i];
        var q := TrimRequest(s, g);
        if q.Some? && s.id in loglets {
          var m := TrimMem(loglets[s.id], q.value);
          Projections(loglets, s.id, m);
          loglets := loglets[s.id := m];
        }
        i := i + 1;
      }
    }

    method Trim(g: LogPos)
      requires Valid()
      modifies this`loglets, this`trimPoint
      ensures Valid() && Log() == old(Log())
      ensures trimPoint == if g > old(trimPoint) then g else old(trimPoint)
    {
      TrimSegments(g);
      trimPoint := if g > trimPoint then g else trimPoint;
    }

    /** Re-reads the chain, whatever it is, and creates the loglets it does not know yet. The factory
        fails on the ids in failing; what was created before the first failure stays. */
    method SyncChain(failing: set<string>) returns (ok: bool)
      modifies this`loglets, this`chain, this`chainVersion
      ensures ok <==> forall i :: 0 <= i < |meta.chain| ==> meta.chain[i].id in old(loglets) || meta.chain[i].id !in failing
      ensures ok ==> chain == meta.chain && chainVersion == meta.version && loglets == WithMissing(old(loglets), meta.chain)
      ensures !ok ==> chain == old(chain) && chainVersion == old(chainVersion)
      ensures !ok ==> exists k :: 0 <= k < |meta.chain| && FailsFirst(old(loglets), meta.chain, failing, k)
                                  && loglets == WithMissing(old(loglets), meta.chain[..k])
    {
      var c, v := meta.Read();
      NoneMissing(loglets, c, 0);
      for i := 0 to |c|
        invariant loglets == WithMissing(old(loglets), c[..i])
        invariant chain == old(chain) && chainVersion == old(chainVersion)
        invariant forall j :: 0 <= j < i ==> c[j].id in old(loglets) || c[j].id !in failing
      {
        MissingStep(old(loglets), c, i);
        if c[i].id !in loglets {
          if c[i].id in failing {
            return false;
          }
          loglets := loglets[c[i].id := FRESH_MEM];
        }
      }
      assert c[..|c|] == c;
      chain, chainVersion := c, v;
      return true;
    }

    /** After a lost compare-and-swap: the one loglet that is missing is created, or cannot be. */
    method CatchUp(createFails: bool) returns (ok: bool)
      requires OneMissing(Now())
      modifies this
      ensures ok <==> !createFails
      ensures Now() == if ok then CaughtUp(old(Now())) else old(Now())
    {
      ghost var s := meta.chain[|chain|];
      Projections(loglets, s.id, FRESH_MEM);
      SyncOne(loglets, meta.chain, createFails);
      ok := SyncChain(if createFails then Ids(meta.chain) else {});
      if ok {
        trimPoint := if trimPoint < s.start then trimPoint else s.start;
      }
    }

    /** Creates the loglet of the extension that the MetaStore accepted and installs the longer chain. */
    method Install(newChain: Segments, id: string, version: nat, createFails: bool) returns (ok: bool)
      requires newChain != [] && newChain[|newChain| - 1].id == id
      requires meta.chain == newChain && meta.version == version + 1
      modifies this
      ensures ok <==> !createFails
      ensures Now() == if ok then CaughtUp(old(Now())) else old(Now())
    {
      if createFails {
        return false;
      }
      Projections(loglets, id, FRESH_MEM);
      loglets := loglets[id := FRESH_MEM];
      chain := newChain;
      chainVersion := version + 1;
      ghost var s := newChain[|newChain| - 1].start;
      trimPoint := if trimPoint < s then trimPoint else s;
      return true;
    }

    /** The protocol's three steps on the fields. */
    method ReconfigureSteps(createFails: bool) returns (ok: bool)
      requires HasActive(Now()) && OneMissing(Offered(Now()))
      modifies this, meta
      ensures ok <==> !createFails
      ensures Now() == if ok then CaughtUp(Offered(old(Now()))) else Offered(old(Now()))
    {
      var p := SealActive();
      if p.Err? {
        return false;
      }
      var version := chainVersion;
      var id := LogletId(|chain|);
      var newChain := Extend(chain, p.value, id);
      var won := meta.Write(newChain, version);
      assert Now() == Offered(old(Now()));
      if won {
        ok := Install(newChain, id, version, createFails);
      } else {
        ok := CatchUp(createFails);
      }
    }

    /** Seals the active loglet, offers the MetaStore a longer chain and installs whichever chain it then holds. */
    method Reconfigure(createFails: bool) returns (ok: bool)
      requires Valid()
      modifies this, meta
      ensures Valid() && Log() == old(Log())
      ensures ok <==> !createFails
      ensures ok ==> Installed(old(Now()), Now())
      ensures !ok ==> HasActive(old(Now())) && Now() == Offered(old(Now()))
      ensures Account(Now()) == if ok then NextBooks(Account(old(Now()))) else Account(old(Now())).(blocked := 1)
    {
      ReconfigureGood(Now());
      ReconfigureBooks(Now());
      ok := ReconfigureSteps(createFails);
    }

    /** An outside sealer may reach the active loglet first. */
    method OutsideSeal(happens: bool)
      requires Valid()
      modifies this`loglets
      ensures Valid() && Log() == old(Log())
      ensures Account(Now()) == Account(old(Now())).(blocked := if happens then 1 else Blocked(old(Now())))
    {
      ActiveKnown(Now());
      if happens {
        SealGood(Now());
        var _ := SealActive();
        ActiveKnown(Now());
      }
    }

    /** The append to the active loglet. */
    method AppendActive(e: Entry) returns (r: Result<LogPos>)
      requires HasActive(Now())
      modifies this`loglets
      ensures r.Ok? <==> Blocked(old(Now())) == 0
      ensures r.Ok? ==> r.value == ActiveTail(old(Now()))
      ensures Now() == if r.Ok? then IssuedView(old(Now()), Stamp(0, e)) else old(Now())
    {
      var a := ActiveLogletOf();
      if a.None? {
        return Err(Internal);
      }
      var (m, answer) := AppendMem(loglets[a.value.0], e);
      if answer.Err? {
        return answer;
      }
      Projections(loglets, a.value.0, m);
      loglets := loglets[a.value.0 := m];
      return Ok(ToGlobal(a.value.1, answer.value));
    }

    /** The append with its answer read on the flat log. */
    method AppendToLog(e: Entry) returns (r: Result<LogPos>)
      requires Valid()
      modifies this`loglets
      ensures Valid() && (r.Ok? <==> Blocked(old(Now())) == 0)
      ensures r.Ok? ==> r.value == |old(Log())| + 1 && Log() == old(Log()) + [Stamp(0, e)]
      ensures r.Err? ==> Now() == old(Now())
      ensures chainVersion == old(chainVersion) && trimPoint == old(trimPoint)
    {
      ActiveKnown(Now());
      if Blocked(Now()) == 0 { IssueGood(Now(), Stamp(0, e)); }
      r := AppendActive(e);
    }

    /** An append that finds the loglet sealed reconfigures instead. */
    method AppendOrReconfigure(e: Entry, createFails: bool) returns (done: bool, r: Result<LogPos>)
      requires Valid()
      modifies this, meta
      ensures Valid() && Log() == if r.Ok? then old(Log()) + [Stamp(0, e)] else old(Log())
      ensures Attempted(Account(old(Now())), Turn(false, createFails), done, r, Account(Now()))
    {
      ghost var before := Account(Now());
      r := AppendToLog(e);
      if r.Ok? {
        return true, r;
      }
      assert Account(Now()) == before;
      var ok := Reconfigure(createFails);
      return !ok, Err(Internal);
    }

    /** One round of append, after the outside sealer's move. */
    method Attempt(e: Entry, turn: Turn) returns (done: bool, r: Result<LogPos>)
      requires Valid()
      modifies this, meta
      ensures Valid() && Log() == if r.Ok? then old(Log()) + [Stamp(0, e)] else old(Log())
      ensures Attempted(Account(old(Now())), turn, done, r, Account(Now()))
    {
      ghost var before := Account(Now());
      OutsideSeal(turn.sealFirst);
      ghost var mid := Account(Now());
      done, r := AppendOrReconfigure(e, turn.createFails);
      SealedFirst(before, turn, mid, done, r, Account(Now()));
    }

    /** Turn i of an append. */
    method Round(e: Entry, env: seq<Turn>, i: nat, ghost start: Books) returns (done: bool, r: Result<LogPos>)
      requires Valid() && Kept(env, start, i, Account(Now())) && start.blocked <= 1
      modifies this, meta
      ensures Valid() && Log() == if r.Ok? then old(Log()) + [Stamp(0, e)] else old(Log())
      ensures done ==> Appended(env, start, r, Account(Now()))
      ensures !done ==> r.Err? && i <= |env| && Kept(env, start, i + 1, Account(Now()))
    {
      var turn := if i < |env| then env[i] else Turn(false, false);
      ghost var before := Account(Now());
      done, r := Attempt(e, turn);
      if done {
        KeptEnds(env, start, i, before, turn, r, Account(Now()));
      } else {
        KeptOn(env, start, i, before, turn, r, Account(Now()));
      }
    }

    /** Appends to the active loglet, reconfiguring and retrying while it is sealed. It fails exactly when a
        turn that is reached finds the loglet sealed and cannot create the next one, and never with Sealed. */
    method Append(e: Entry, env: seq<Turn>) returns (r: Result<LogPos>)
      requires Valid()
      modifies this, meta
      ensures Valid() && Log() == if r.Ok? then old(Log()) + [Stamp(0, e)] else old(Log())
      ensures Appended(env, Account(old(Now())), r, Account(Now()))
    {
      var i := 0;
      ghost var start, log := Account(Now()), Log();
      while true
        invariant Valid() && Log() == log && 0 <= i
        invariant Kept(env, start, i, Account(Now()))
        decreases |env| + 2 - i
      {
        var done, answer := Round(e, env, i, start);
        if done {
          return answer;
        }
        i := i + 1;
      }
    }

    /** The interface documents that every append after a seal answers Sealed. A virtual log never does:
        it reconfigures, and the append gets the next position. */
    method SealThenAppend(e: Entry) returns (tail: Result<LogPos>, r: Result<LogPos>)
      requires Valid()
      modifies this, meta
      ensures Valid() && tail == Ok(|old(Log())| + 1)
      ensures r == tail && Log() == old(Log()) + [Stamp(0, e)]
      ensures trimPoint == Min(old(trimPoint), |old(Log())| + 1)
    {
      ActiveKnown(Now());
      SealGood(Now());
      tail := SealActive();
      r := Append(e, []);
    }
  }

  /** A trim beyond the tail is forgotten: position 1 is trimmed, then sealed away, appended to and read. */
  method LostTrim(e: Entry) returns (trimmed: Result<Option<Entry>>, read: Result<Option<Entry>>)
    ensures trimmed.Err? && trimmed.error.Trimmed?
    ensures read == Ok(Some(e))
  {
    ghost var id0 := "first";
    FirstIsSafe();
    var meta := new MetaStore(NewChain("first"));
    var log := new VLog(meta, id0);
    log.Trim(5);
    trimmed := log.Read(1);
    var _, _ := log.SealThenAppend(e);
    read := log.Read(1);
  }

  /** A virtual log over a factory of its own appends and reads. */
  method OwnFactory(meta: MetaStore, e: Entry) returns (p: Result<LogPos>, x: Result<Option<Entry>>)
    requires meta.chain == NewChain("first") && meta.version == 0
    ensures p == Ok(1) && x == Ok(Some(e))
  {
    FirstIsSafe();
    var log := new VLog(meta, "first");
    p := log.AppendToLog(e);
    x := log.Read(1);
  }

  /** A factory that ignores the id, under two virtual logs of one MetaStore: both appends get position 1,
      and each virtual log reads its own entry there. */
  method TwoFactories(e: Entry, f: Entry) returns (p: Result<LogPos>, q: Result<LogPos>, x: Result<Option<Entry>>, y: Result<Option<Entry>>)
    ensures p == Ok(1) && q == Ok(1)
    ensures x == Ok(Some(e)) && y == Ok(Some(f))
  {
    var meta := new MetaStore(NewChain("first"));
    p, x := OwnFactory(meta, e);
    q, y := OwnFactory(meta, f);
  }

  lemma FirstIsSafe()
    ensures SafeId("first")
  {
    forall k: nat | k >= 1 ensures "first" != LogletId(k) {
      assert "first"[0] == 'f' && LogletId(k)[0] == 'l';
    }
  }
}
