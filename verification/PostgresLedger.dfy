/** The database-backed ledger: Append as a transaction of separate statements that other
    transactions interleave with, serialised by one advisory lock. Every interleaving
    commits what some sequence of in-memory appends produces. */
module PostgresLedger {
  import opened Strings
  import opened TrustLedger

  type TxId = nat

  /** How far a transaction has got. */
  datatype Phase =
    | Begun
    | Locked
    | TailRead(prevIdx: int, prevHash: string)
    | Inserted(now: Timestamp, entry: Entry)

  datatype Tx = Tx(req: Request, phase: Phase)

  /** A request with the clock reading its entry was stamped with. */
  datatype Stamped = Stamped(now: Timestamp, req: Request)

  /** Committed rows in insertion order, the holder of the advisory lock, the open
      transactions, and the requests committed so far in commit order. */
  datatype State = State(rows: seq<Entry>, holder: Option<TxId>, txs: map<TxId, Tx>, committed: seq<Stamped>)

  datatype Step =
    | Begin(t: TxId, req: Request)
    | Lock(t: TxId)
    | ReadTail(t: TxId)
    | Insert(t: TxId, now: Timestamp)
    | Commit(t: TxId)
    | Rollback(t: TxId)

  /** ORDER BY idx DESC LIMIT 1. */
  function Tail(rows: seq<Entry>): Entry
    requires rows != []
  {
    if |rows| == 1 then rows[0]
    else
      var last := rows[|rows| - 1];
      var rest := Tail(rows[..|rows| - 1]);
      if last.index > rest.index then last else rest
  }

  /** The primary key on idx and the UNIQUE constraint on hash. */
  predicate Insertable(rows: seq<Entry>, e: Entry) {
    forall i | 0 <= i < |rows| :: rows[i].index != e.index && rows[i].hash != e.hash
  }

  /** Ends a transaction; the lock it may hold is released with it. */
  function End(s: State, t: TxId): State {
    s.(txs := s.txs - {t}, holder := if s.holder == Some(t) then None else s.holder)
  }

  /** One statement of one transaction. A statement that is not that transaction's next one,
      and a lock request while another transaction holds the lock, change nothing. */
  function Next(h: Hasher, s: State, step: Step): State {
    match step
    case Begin(t, req) =>
      if t in s.txs || req.payload.None? then s else s.(txs := s.txs[t := Tx(req, Begun)])
    case Lock(t) =>
      if t in s.txs && s.txs[t].phase == Begun && s.holder.None?
      then s.(holder := Some(t), txs := s.txs[t := s.txs[t].(phase := Locked)])
      else s
    case ReadTail(t) =>
      if t in s.txs && s.txs[t].phase == Locked then
        if s.rows == [] then End(s, t)
        else
          var tail := Tail(s.rows);
          s.(txs := s.txs[t := s.txs[t].(phase := TailRead(tail.index, tail.hash))])
      else s
    case Insert(t, now) =>
      if t in s.txs && s.txs[t].phase.TailRead? && s.txs[t].req.payload.Some? then
        var tx := s.txs[t];
        var e := NewEntry(h, tx.phase.prevIdx + 1, tx.phase.prevHash, now, tx.req);
        if Insertable(s.rows, e) then s.(txs := s.txs[t := tx.(phase := Inserted(now, e))]) else End(s, t)
      else s
    case Commit(t) =>
      if t in s.txs && s.txs[t].phase.Inserted? then
        var tx := s.txs[t];
        End(s.(rows := s.rows + [tx.phase.entry], committed := s.committed + [Stamped(tx.phase.now, tx.req)]), t)
      else s
    case Rollback(t) => if t in s.txs then End(s, t) else s
  }

  function Run(h: Hasher, s: State, steps: seq<Step>): State
    decreases |steps|
  {
    if steps == [] then s else Run(h, Next(h, s, steps[0]), steps[1..])
  }

  function Init(genesis: Entry): State { State([genesis], None, map[], []) }

  /** The in-memory ledger after a sequence of appends. */
  function AppendAll(h: Hasher, es: seq<Entry>, ss: seq<Stamped>): (r: seq<Entry>)
    requires es != []
    ensures es <= r
  {
    if ss == [] then es
    else
      var n := |ss| - 1;
      Appended(h, AppendAll(h, es, ss[..n]), ss[n].now, ss[n].req)
  }

  /** AppendAll is what repeated calls of the in-memory Append do. */
  method ReplayInMemory(ledger: MemoryLedger, ss: seq<Stamped>)
    requires ledger.Valid()
    modifies ledger
    ensures ledger.Valid()
    ensures ledger.entries == AppendAll(ledger.sha, old(ledger.entries), ss)
  {
    for i := 0 to |ss|
      invariant ledger.Valid()
      invariant ledger.entries == AppendAll(ledger.sha, old(ledger.entries), ss[..i])
    {
      var _ := ledger.Append(ss[i].now, ss[i].req);
      assert ss[..i + 1][..i] == ss[..i];
    }
    assert ss[..|ss|] == ss;
  }

  // ------------------------------------------------------- every interleaving

  ghost predicate DistinctHashes(rows: seq<Entry>) {
    forall i, j | 0 <= i < j < |rows| :: rows[i].hash != rows[j].hash
  }

  /** What is known about an open transaction. */
  ghost predicate TxOk(h: Hasher, s: State, t: TxId)
    requires t in s.txs && s.rows != []
  {
    var tx := s.txs[t];
    var last := s.rows[|s.rows| - 1];
    && tx.req.payload.Some?
    && (tx.phase != Begun ==> s.holder == Some(t))
    && (tx.phase.TailRead? ==> tx.phase.prevIdx == last.index && tx.phase.prevHash == last.hash)
    && (tx.phase.Inserted? ==>
        && tx.phase.entry == NewEntry(h, |s.rows|, last.hash, tx.phase.now, tx.req)
        && Insertable(s.rows, tx.phase.entry))
  }

  ghost predicate Inv(h: Hasher, genesis: Entry, s: State) {
    && WellFormed(h, s.rows) && DistinctHashes(s.rows)
    && s.rows == AppendAll(h, [genesis], s.committed)
    && forall t | t in s.txs :: TxOk(h, s, t)
  }

  lemma {:induction false} TailIsLast(rows: seq<Entry>)
    requires rows != [] && forall i | 0 <= i < |rows| :: rows[i].index == i
    ensures Tail(rows) == rows[|rows| - 1]
  {
    if |rows| > 1 { TailIsLast(rows[..|rows| - 1]); }
  }

  /** A statement other than Commit leaves the rows alone and keeps each open transaction
      in step with them. */
  lemma NextKeepsTx(h: Hasher, genesis: Entry, s: State, step: Step, u: TxId)
    requires Inv(h, genesis, s) && !step.Commit? && u in Next(h, s, step).txs
    ensures Next(h, s, step).rows == s.rows && Next(h, s, step).committed == s.committed
    ensures TxOk(h, Next(h, s, step), u)
  {
    if u in s.txs { assert TxOk(h, s, u); }
    match step {
      case ReadTail(t) => TailIsLast(s.rows);
      case _ =>
    }
  }

  lemma CommitKeepsInv(h: Hasher, genesis: Entry, s: State, t: TxId)
    requires Inv(h, genesis, s) && t in s.txs && s.txs[t].phase.Inserted?
    ensures Inv(h, genesis, Next(h, s, Commit(t))) && s.rows <= Next(h, s, Commit(t)).rows
  {
    var s', tx := Next(h, s, Commit(t)), s.txs[t];
    assert TxOk(h, s, t);
    AppendKeepsChain(h, s.rows, tx.phase.now, tx.req);
    assert s'.rows == Appended(h, s.rows, tx.phase.now, tx.req);
    assert s'.committed[..|s.committed|] == s.committed;
    forall u | u in s'.txs ensures TxOk(h, s', u) {
      assert TxOk(h, s, u);
    }
  }

  lemma NextKeepsInv(h: Hasher, genesis: Entry, s: State, step: Step)
    requires Inv(h, genesis, s)
    ensures Inv(h, genesis, Next(h, s, step)) && s.rows <= Next(h, s, step).rows
  {
    if step.Commit? {
      if step.t in s.txs && s.txs[step.t].phase.Inserted? { CommitKeepsInv(h, genesis, s, step.t); }
    } else {
      var s' := Next(h, s, step);
      assert s'.rows == s.rows && s'.committed == s.committed;
      forall u | u in s'.txs ensures TxOk(h, s', u) {
        NextKeepsTx(h, genesis, s, step, u);
      }
    }
  }

  /** From any state an interleaving can reach, committed rows never change or disappear,
      whatever runs afterwards. */
  lemma {:induction false} RunKeepsInv(h: Hasher, genesis: Entry, s: State, steps: seq<Step>)
    requires Inv(h, genesis, s)
    ensures Inv(h, genesis, Run(h, s, steps)) && s.rows <= Run(h, s, steps).rows
    decreases |steps|
  {
    if steps != [] {
      NextKeepsInv(h, genesis, s, steps[0]);
      RunKeepsInv(h, genesis, Next(h, s, steps[0]), steps[1..]);
    }
  }

  lemma NoSharedTail(h: Hasher, rows: seq<Entry>)
    requires Verifies(h, rows) && DistinctHashes(rows)
    ensures forall i, j | 0 < i < j < |rows| :: rows[i].prevHash != rows[j].prevHash
  {
    forall i, j | 0 < i < j < |rows| ensures rows[i].prevHash != rows[j].prevHash {
      assert Linked(h, rows, i) && Linked(h, rows, j);
    }
  }

  /** Refinement: from a table holding the genesis row, every interleaving of Append
      transactions, with any of them failing or rolling back anywhere, leaves exactly the
      rows that in-memory appends of the committed requests in commit order produce.
      The chain verifies, indices are contiguous, and no two rows extend the same row. */
  lemma InterleavingsRefineMemory(h: Hasher, genesis: Entry, steps: seq<Step>)
    requires IsGenesis(genesis)
    ensures var s := Run(h, Init(genesis), steps);
            && Inv(h, genesis, s)
            && s.rows == AppendAll(h, [genesis], s.committed)
            && Verifies(h, s.rows)
            && (forall i | 0 <= i < |s.rows| :: s.rows[i].index == i)
            && (forall i, j | 0 < i < j < |s.rows| :: s.rows[i].prevHash != s.rows[j].prevHash)
  {
    RunKeepsInv(h, genesis, Init(genesis), steps);
    NoSharedTail(h, Run(h, Init(genesis), steps).rows);
  }

  /** A transaction that is left alone with the lock appends its own entry: the five
      statements together are one in-memory Append, unless the new hash is already taken. */
  lemma UninterruptedAppend(h: Hasher, genesis: Entry, s: State, t: TxId, req: Request, now: Timestamp)
    requires Inv(h, genesis, s) && t !in s.txs && s.holder.None? && req.payload.Some?
    ensures var s2 := Next(h, Next(h, s, Begin(t, req)), Lock(t));
            var s5 := Next(h, Next(h, Next(h, s2, ReadTail(t)), Insert(t, now)), Commit(t));
            var rows' := Appended(h, s.rows, now, req);
            && s5.rows == (if Insertable(s.rows, rows'[|s.rows|]) then rows' else s.rows)
            && s5.holder.None? && s5.txs == s.txs
  {
    var last := s.rows[|s.rows| - 1];
    UpToTail(h, genesis, s, t, req);
    var s3 := s.(holder := Some(t), txs := s.txs[t := Tx(req, TailRead(last.index, last.hash))]);
    FromTail(h, s3, t, req, last.index, last.hash, now);
    assert s3.txs - {t} == s.txs;
  }

  lemma FromTail(h: Hasher, s: State, t: TxId, req: Request, idx: int, hash: string, now: Timestamp)
    requires req.payload.Some? && s.holder == Some(t) && t in s.txs && s.txs[t] == Tx(req, TailRead(idx, hash))
    ensures var (e, s') := (NewEntry(h, idx + 1, hash, now, req), Next(h, Next(h, s, Insert(t, now)), Commit(t)));
            && s'.rows == (if Insertable(s.rows, e) then s.rows + [e] else s.rows)
            && s'.holder.None? && s'.txs == s.txs - {t}
  {
  }

  /** A transaction left alone with the lock has read the tail after three statements. */
  lemma UpToTail(h: Hasher, genesis: Entry, s: State, t: TxId, req: Request)
    requires Inv(h, genesis, s) && t !in s.txs && s.holder.None? && req.payload.Some?
    ensures var last := s.rows[|s.rows| - 1];
            Next(h, Next(h, Next(h, s, Begin(t, req)), Lock(t)), ReadTail(t))
            == s.(holder := Some(t), txs := s.txs[t := Tx(req, TailRead(last.index, last.hash))])
  {
    TailIsLast(s.rows);
    var s2 := Next(h, Next(h, s, Begin(t, req)), Lock(t));
    assert s2 == s.(holder := Some(t), txs := s.txs[t := Tx(req, Locked)]);
  }

  // ------------------------------------------------------- the lock is given back

  /** The advisory lock is held by an open transaction that has asked for it, or by none. */
  predicate LockOk(s: State) {
    s.holder.Some? ==> s.holder.value in s.txs && s.txs[s.holder.value].phase != Begun
  }

  lemma {:induction false} RunKeepsLock(h: Hasher, s: State, steps: seq<Step>)
    requires LockOk(s)
    ensures LockOk(Run(h, s, steps))
    decreases |steps|
  {
    if steps != [] { RunKeepsLock(h, Next(h, s, steps[0]), steps[1..]); }
  }

  /** In every interleaving the lock is held exactly by the open transaction that is past
      asking for it, if there is one. */
  lemma LockHolder(h: Hasher, genesis: Entry, steps: seq<Step>)
    requires IsGenesis(genesis)
    ensures var s := Run(h, Init(genesis), steps);
            && (s.holder.Some? ==> s.holder.value in s.txs && s.txs[s.holder.value].phase != Begun)
            && (forall t | t in s.txs && s.txs[t].phase != Begun :: s.holder == Some(t))
  {
    RunKeepsLock(h, Init(genesis), steps);
    RunKeepsInv(h, genesis, Init(genesis), steps);
    var s := Run(h, Init(genesis), steps);
    forall t | t in s.txs && s.txs[t].phase != Begun ensures s.holder == Some(t) { assert TxOk(h, s, t); }
  }

  /** A statement that ends its transaction: commit, rollback, or an insert that a unique
      column refuses. */
  predicate Ends(h: Hasher, s: State, step: Step) {
    match step
    case Commit(t) => t in s.txs && s.txs[t].phase.Inserted?
    case Rollback(t) => t in s.txs
    case Insert(t, now) =>
      && t in s.txs && s.txs[t].phase.TailRead? && s.txs[t].req.payload.Some?
      && var tx := s.txs[t];
         !Insertable(s.rows, NewEntry(h, tx.phase.prevIdx + 1, tx.phase.prevHash, now, tx.req))
    case _ => false
  }

  /** Progress: in every reachable state the transaction that holds the lock can be ended, and
      however it ends, any other transaction that waits gets the lock with its next
      statement. */
  lemma EndingFreesLock(h: Hasher, genesis: Entry, steps: seq<Step>, step: Step, u: TxId)
    requires IsGenesis(genesis)
    requires var s := Run(h, Init(genesis), steps);
             s.holder == Some(step.t) && Ends(h, s, step) && u in s.txs && s.txs[u].phase == Begun
    ensures var s := Run(h, Init(genesis), steps);
            var s' := Next(h, s, step);
            var s'' := Next(h, s', Lock(u));
            && step.t !in s'.txs && s'.holder.None?
            && s''.holder == Some(u) && u in s''.txs && s''.txs[u].phase == Locked
  {
    LockHolder(h, genesis, steps);
  }

  function AppendSteps(t: TxId, req: Request, now: Timestamp): seq<Step> {
    [Begin(t, req), Lock(t), ReadTail(t), Insert(t, now), Commit(t)]
  }

  lemma FiveSteps(h: Hasher, s: State, a: Step, b: Step, c: Step, d: Step, e: Step)
    ensures Run(h, s, [a, b, c, d, e]) == Next(h, Next(h, Next(h, Next(h, Next(h, s, a), b), c), d), e)
  {
    OneStep(h, s, a, [b, c, d, e]);
    OneStep(h, Next(h, s, a), b, [c, d, e]);
    OneStep(h, Next(h, Next(h, s, a), b), c, [d, e]);
    OneStep(h, Next(h, Next(h, Next(h, s, a), b), c), d, [e]);
    OneStep(h, Next(h, Next(h, Next(h, Next(h, s, a), b), c), d), e, []);
    assert [a] + [b, c, d, e] == [a, b, c, d, e] && [b] + [c, d, e] == [b, c, d, e] && [c] + [d, e] == [c, d, e];
    assert [d] + [e] == [d, e] && [e] + [] == [e];
  }

  lemma OneStep(h: Hasher, s: State, step: Step, rest: seq<Step>)
    ensures Run(h, s, [step] + rest) == Run(h, Next(h, s, step), rest)
  {
    assert ([step] + rest)[1..] == rest;
  }

  /** Two appends run one after the other both commit, unless a hash is already taken. */
  lemma TwoAppends(
    h: Hasher, genesis: Entry, t: TxId, req: Request, now: Timestamp, u: TxId, req': Request, now': Timestamp)
    requires IsGenesis(genesis) && req.payload.Some? && req'.payload.Some?
    requires var one := Appended(h, [genesis], now, req);
             Insertable([genesis], one[1]) && Insertable(one, Appended(h, one, now', req')[2])
    ensures var s := Run(h, Run(h, Init(genesis), AppendSteps(t, req, now)), AppendSteps(u, req', now'));
            s.rows == Appended(h, Appended(h, [genesis], now, req), now', req') && |s.rows| == 3 && s.holder.None?
  {
    var s0 := Init(genesis);
    var s1 := Run(h, s0, AppendSteps(t, req, now));
    RunKeepsInv(h, genesis, s0, AppendSteps(t, req, now));
    FiveSteps(h, s0, Begin(t, req), Lock(t), ReadTail(t), Insert(t, now), Commit(t));
    UninterruptedAppend(h, genesis, s0, t, req, now);
    FiveSteps(h, s1, Begin(u, req'), Lock(u), ReadTail(u), Insert(u, now'), Commit(u));
    UninterruptedAppend(h, genesis, s1, u, req', now');
  }

  /** Every committed request was begun as it is, and stamped by its own insert. */
  lemma {:induction false} CommittedWereBegun(h: Hasher, s: State, steps: seq<Step>, k: nat)
    requires k < |Run(h, s, steps).committed|
    ensures var c := Run(h, s, steps).committed[k];
            || (k < |s.committed| && s.committed[k] == c)
            || (exists t | t in s.txs :: s.txs[t].req == c.req)
            || exists t :: Begin(t, c.req) in steps
    decreases |steps|
  {
    if steps != [] {
      var s' := Next(h, s, steps[0]);
      CommittedWereBegun(h, s', steps[1..], k);
      var c := Run(h, s, steps).committed[k];
      if t :| t in s'.txs && s'.txs[t].req == c.req {
        assert (t in s.txs && s.txs[t].req == c.req) || steps[0] == Begin(t, c.req);
      } else if t :| Begin(t, c.req) in steps[1..] {
        assert Begin(t, c.req) in steps;
      }
    }
  }

  // ------------------------------------------------------- payloads

  predicate AllMarshal(ss: seq<Stamped>) { forall k | 0 <= k < |ss| :: ss[k].req.payload.Some? }

  /** The entry of a ledger that records a request. */
  predicate Records(h: Hasher, e: Entry, s: Stamped)
    requires s.req.payload.Some?
  {
    && e.timestamp == s.now && e.agentURI == s.req.agentURI && e.action == s.req.action && e.actor == s.req.actor
    && e.dataHash == h(s.req.payload.value)
  }

  /** A ledger holds, after its genesis, an entry for each request in order. */
  lemma {:induction false} LedgerRecords(h: Hasher, genesis: Entry, ss: seq<Stamped>)
    requires AllMarshal(ss)
    ensures var es := AppendAll(h, [genesis], ss);
            |es| == |ss| + 1 && forall k | 0 <= k < |ss| :: Records(h, es[k + 1], ss[k])
  {
    if ss != [] {
      var n := |ss| - 1;
      LedgerRecords(h, genesis, ss[..n]);
      AppendedEntry(h, AppendAll(h, [genesis], ss[..n]), ss[n].now, ss[n].req);
    }
  }

  lemma {:induction false} LedgerWellFormed(h: Hasher, genesis: Entry, ss: seq<Stamped>)
    requires IsGenesis(genesis)
    ensures WellFormed(h, AppendAll(h, [genesis], ss))
  {
    if ss != [] {
      var n := |ss| - 1;
      LedgerWellFormed(h, genesis, ss[..n]);
      AppendKeepsChain(h, AppendAll(h, [genesis], ss[..n]), ss[n].now, ss[n].req);
    }
  }

  predicate Plain(r: Request) { '|' !in r.agentURI && '|' !in r.action && '|' !in r.actor }

  /** Payload evidence: from one genesis, two sequences of requests whose ledgers have the same
      root are the same requests with the same payloads, unless the ledgers exhibit a broken
      hash of an entry, or two different payloads have one hash. The first sequence's
      columns are separator-free. */
  lemma PayloadEvidence(h: Hasher, genesis: Entry, ss: seq<Stamped>, tt: seq<Stamped>)
    returns (w: Breach, k: nat)
    requires IsGenesis(genesis) && AllMarshal(ss) && AllMarshal(tt)
    requires forall i | 0 <= i < |ss| :: Plain(ss[i].req)
    requires Root(AppendAll(h, [genesis], ss)) == Root(AppendAll(h, [genesis], tt))
    ensures || ss == tt
            || Breaks(h, AppendAll(h, [genesis], ss), AppendAll(h, [genesis], tt), w)
            || (k < |ss| == |tt| && ss[k].req.payload != tt[k].req.payload
                && h(ss[k].req.payload.value) == h(tt[k].req.payload.value))
  {
    var (a, b) := (AppendAll(h, [genesis], ss), AppendAll(h, [genesis], tt));
    LedgerWellFormed(h, genesis, ss);
    LedgerWellFormed(h, genesis, tt);
    LedgerRecords(h, genesis, ss);
    LedgerRecords(h, genesis, tt);
    forall i | 0 < i < |a| ensures SeparatorFree(a[i]) { assert Records(h, a[i], ss[i - 1]); }
    w := TamperEvidence(h, a, b);
    k := 0;
    if SameRecords(a, b) && ss != tt {
      k :| 0 <= k < |ss| && ss[k] != tt[k];
      assert Records(h, a[k + 1], ss[k]) && Records(h, b[k + 1], tt[k]) && a[k + 1] == b[k + 1];
    }
  }

  // ------------------------------------------------------- the database object

  class Database {
    const sha: Hasher
    var rows: seq<Entry>
    var holder: Option<TxId>
    var txs: map<TxId, Tx>
    ghost var committed: seq<Stamped>

    ghost function View(): State reads this { State(rows, holder, txs, committed) }

    constructor (sha: Hasher, genesis: Entry)
      requires IsGenesis(genesis)
      ensures this.sha == sha && View() == Init(genesis)
    {
      this.sha := sha;
      rows, holder, txs, committed := [genesis], None, map[], [];
    }

    method TxBegin(t: TxId, req: Request)
      modifies this
      ensures View() == Next(sha, old(View()), Begin(t, req))
    {
      if t !in txs && req.payload.Some? { txs := txs[t := Tx(req, Begun)]; }
    }

    /** pg_advisory_xact_lock; reports whether the lock was granted. */
    method TxLock(t: TxId) returns (granted: bool)
      modifies this
      ensures View() == Next(sha, old(View()), Lock(t))
      ensures granted <==> t in old(txs) && old(txs)[t].phase == Begun && old(holder) == None
      ensures granted ==> holder == Some(t)
    {
      if t !in txs || txs[t].phase != Begun || holder.Some? { return false; }
      holder := Some(t);
      txs := txs[t := txs[t].(phase := Locked)];
      return true;
    }

    method TxReadTail(t: TxId)
      modifies this
      ensures View() == Next(sha, old(View()), ReadTail(t))
    {
      if t !in txs || txs[t].phase != Locked { return; }
      if rows == [] {
        TxEnd(t);
        return;
      }
      var tail := rows[0];
      for i := 1 to |rows|
        invariant tail == Tail(rows[..i])
      {
        assert rows[..i + 1][..i] == rows[..i];
        if rows[i].index > tail.index { tail := rows[i]; }
      }
      assert rows[..|rows|] == rows;
      txs := txs[t := txs[t].(phase := TailRead(tail.index, tail.hash))];
    }

    method TxInsert(t: TxId, now: Timestamp)
      modifies this
      ensures View() == Next(sha, old(View()), Insert(t, now))
    {
      if t !in txs || !txs[t].phase.TailRead? || txs[t].req.payload.None? { return; }
      var tx := txs[t];
      var e := NewEntry(sha, tx.phase.prevIdx + 1, tx.phase.prevHash, now, tx.req);
      var i := 0;
      while i < |rows| && rows[i].index != e.index && rows[i].hash != e.hash
        invariant 0 <= i <= |rows| && Insertable(rows[..i], e)
      {
        i := i + 1;
      }
      assert rows[..|rows|] == rows;
      if i < |rows| {
        TxEnd(t);
      } else {
        txs := txs[t := tx.(phase := Inserted(now, e))];
      }
    }

    method TxCommit(t: TxId)
      modifies this
      ensures View() == Next(sha, old(View()), Commit(t))
    {
      if t !in txs || !txs[t].phase.Inserted? { return; }
      rows := rows + [txs[t].phase.entry];
      committed := committed + [Stamped(txs[t].phase.now, txs[t].req)];
      TxEnd(t);
    }

    method TxRollback(t: TxId)
      modifies this
      ensures View() == Next(sha, old(View()), Rollback(t))
    {
      if t in txs { TxEnd(t); }
    }

    method TxEnd(t: TxId)
      modifies this
      ensures View() == End(old(View()), t)
    {
      txs := txs - {t};
      if holder == Some(t) { holder := None; }
    }
  }

  /** Verify over the rows as they stream in, remembering only the previous one. */
  method VerifyStream(h: Hasher, rows: seq<Entry>) returns (r: VerifyResult)
    ensures r == Intact <==> Verifies(h, rows)
    ensures FirstDefect(h, rows, r)
  {
    var prev: Option<Entry> := None;
    for i := 0 to |rows|
      invariant prev == if i == 0 then None else Some(rows[i - 1])
      invariant LinkedUpTo(h, rows, i)
    {
      var curr := rows[i];
      if prev.None? {
        if curr.hash != GENESIS_HASH { return BadGenesis; }
        prev := Some(curr);
        continue;
      }
      if curr.prevHash != prev.value.hash {
        assert !Linked(h, rows, i);
        return Broken(curr.index);
      }
      if curr.hash != h(Encode(curr)) {
        assert !Linked(h, rows, i);
        return BadHash(curr.index);
      }
      prev := Some(curr);
    }
    return Intact;
  }
}
