/** The services running concurrently. Every call is a sequence of separate SQL statements,
    and the statements of different calls interleave in any order: agent lifecycle calls,
    DNS challenges and their pruning, and e-mail verification. */
module Lifecycle {
  import opened Strings
  import opened AgentTable
  import opened Registry

  type ThreadId = nat
  type ChallengeId = nat

  datatype Challenge = Challenge(domain: string, expiresAt: Time, verified: bool)

  datatype Token = Token(user: UserId, isEmailVerification: bool, expiresAt: Time, used: bool)

  /** A successful TXT lookup: when its expiry check passed and when its reply came. */
  datatype Evidence = Evidence(begun: Time, replied: Time)

  /** The challenge, user and token tables; history: the expiry of every challenge ever
      issued, the last successful lookup of a challenge, and the challenges with a successful
      lookup that was answered before they expired. */
  datatype Proofs = Proofs(
    challenges: map<ChallengeId, Challenge>, users: map<UserId, bool>, tokens: map<string, Token>,
    issued: map<ChallengeId, Time>, evidence: map<ChallengeId, Evidence>, answered: set<ChallengeId>)

  /** Where a call stands between two of its statements. The row is what it read at its
      start and may be stale. */
  datatype Phase =
    | Checking(op: Op, row: Row)
    | Ready(op: Op, row: Row)
    | Unlogged(id: Id, action: string)
    | ChallengeRead(ch: ChallengeId, snapshot: Challenge)
    | LookupBegun(ch: ChallengeId, begun: Time)
    | TxtSeen(ch: ChallengeId)
    | TokenRead(token: string, found: Token)

  /** A status change that a statement made. */
  datatype Edge = Edge(op: Op, from: Status, to: Option<Status>)

  /** The tables, the running calls and the clock; history: row keys ever used, status
      changes, audit actions in the order they were logged, and the tokens that calls have
      used, as often as they have. */
  datatype World = World(
    table: Table, proofs: Proofs, threads: map<ThreadId, Phase>, now: Time,
    usedIds: set<Id>, edges: seq<Edge>, audit: seq<(Id, string)>, spent: seq<string>)

  datatype Step =
    | Insert(t: ThreadId, id: Id, agentID: string, req: RegisterRequest)
    | Start(t: ThreadId, op: Op)
    | CheckGate(t: ThreadId)
    | Write(t: ThreadId)
    | Log(t: ThreadId)
    | Drop(t: ThreadId)
    | StartChallenge(ch: ChallengeId, domain: string)
    | ReadChallenge(t: ThreadId, ch: ChallengeId)
    | CheckExpiry(t: ThreadId)
    | TxtReply(t: ThreadId, found: bool)
    | MarkVerified(t: ThreadId)
    | DeleteExpired
    | CreateUser(u: UserId, viaOAuth: bool)
    | OAuthLogin(u: UserId)
    | CreateToken(token: string, u: UserId, isEmailVerification: bool, expiresAt: Time)
    | ReadToken(t: ThreadId, token: string, isEmailVerification: bool)
    | SpendToken(t: ThreadId)
    | Tick(later: Time)

  const CHALLENGE_TTL: Time := 900

  predicate DomainVerifiedBy(p: Proofs, ch: ChallengeId, domain: string) {
    ch in p.challenges && p.challenges[ch].domain == domain && p.challenges[ch].verified
  }

  predicate EmailVerified(p: Proofs, u: UserId) { u in p.users && p.users[u] }

  /** What Activate asks its checkers, answered from the tables as they are now. */
  ghost predicate GateOpen(p: Proofs, r: Row) {
    if r.registrationType == NapHosted then r.owner.Some? ==> EmailVerified(p, r.owner.value)
    else exists ch :: DomainVerifiedBy(p, ch, r.ownerDomain)
  }

  function Leave(s: World, t: ThreadId): World { s.(threads := s.threads - {t}) }

  function Enter(s: World, t: ThreadId, p: Phase): World { s.(threads := s.threads[t := p]) }

  // ------------------------------------------------------- agent statements

  /** A row that registration lays out is stored; its entry is still to be logged. The quota
      was counted by an earlier statement and may have been passed since. */
  function DoInsert(cfg: Config, s: World, t: ThreadId, id: Id, agentID: string, req: RegisterRequest): World {
    var r := NewRow(cfg, req, agentID);
    if t in s.threads || r.None? || id in s.usedIds || !Insertable(s.table, id, r.value) then s
    else if r.value.owner.Some? && r.value.owner.value !in s.proofs.users then s
    else Inserted(s, t, id, r.value)
  }

  function Inserted(s: World, t: ThreadId, id: Id, row: Row): World {
    Enter(s.(table := s.table[id := row], usedIds := s.usedIds + {id}), t, Unlogged(id, "register"))
  }

  /** The read at the start of a call, with the call's own check on what it read. */
  function DoStart(cfg: Config, s: World, t: ThreadId, op: Op): World {
    if t in s.threads || op.Register? || op.id !in s.table then s
    else if op.Activate? then Enter(s, t, Checking(op, s.table[op.id]))
    else if PlanFor(cfg, s.table[op.id], op).Some? then Enter(s, t, Ready(op, s.table[op.id]))
    else s
  }

  ghost function DoCheckGate(s: World, t: ThreadId): World {
    if t !in s.threads || !s.threads[t].Checking? then s
    else if GateOpen(s.proofs, s.threads[t].row) then Enter(s, t, Ready(s.threads[t].op, s.threads[t].row))
    else Leave(s, t)
  }

  /** A write whose guard holds on the current row. */
  predicate Effective(cfg: Config, s: World, t: ThreadId) {
    && t in s.threads && s.threads[t].Ready? && !s.threads[t].op.Register?
    && PlanFor(cfg, s.threads[t].row, s.threads[t].op).Some?
    && Affects(s.table, s.threads[t].op.id, PlanFor(cfg, s.threads[t].row, s.threads[t].op).value.st)
  }

  /** The statement of a ready call, executed against the current table. */
  function DoWrite(cfg: Config, s: World, t: ThreadId): World {
    if t !in s.threads || !s.threads[t].Ready? then s
    else if !Effective(cfg, s, t) then Leave(s, t)
    else
      var (op, row) := (s.threads[t].op, s.threads[t].row);
      var plan := PlanFor(cfg, row, op).value;
      Written(s, t, op, plan)
  }

  function Written(s: World, t: ThreadId, op: Op, plan: Plan): World
    requires op.id in s.table
  {
    var current := s.table[op.id];
    var to := if plan.st == Remove then None else Some(Changed(plan.st, current).status);
    var s1 := s.(table := Exec(s.table, op.id, plan.st), edges := s.edges + [Edge(op, current.status, to)]);
    if plan.entry.None? then Leave(s1, t) else Enter(s1, t, Unlogged(op.id, plan.entry.value.0))
  }

  function DoLog(s: World, t: ThreadId): World {
    if t !in s.threads || !s.threads[t].Unlogged? then s
    else Leave(s.(audit := s.audit + [(s.threads[t].id, s.threads[t].action)]), t)
  }

  /** An append that fails: the call gives up its entry and is otherwise done. */
  function DoDrop(s: World, t: ThreadId): World {
    if t in s.threads && s.threads[t].Unlogged? then Leave(s, t) else s
  }

  // ------------------------------------------------------- challenge statements

  function Issue(p: Proofs, ch: ChallengeId, c: Challenge): Proofs {
    p.(challenges := p.challenges[ch := c], issued := p.issued[ch := c.expiresAt])
  }

  function DoStartChallenge(s: World, ch: ChallengeId, domain: string): World {
    if ch in s.proofs.issued || domain == "" then s
    else s.(proofs := Issue(s.proofs, ch, Challenge(domain, s.now + CHALLENGE_TTL, false)))
  }

  function DoReadChallenge(s: World, t: ThreadId, ch: ChallengeId): World {
    if t in s.threads || ch !in s.proofs.challenges then s
    else
      var c := s.proofs.challenges[ch];
      if c.verified || s.now > c.expiresAt then s else Enter(s, t, ChallengeRead(ch, c))
  }

  /** The lookup's own expiry check; only then is DNS asked. */
  function DoCheckExpiry(s: World, t: ThreadId): World {
    if t !in s.threads || !s.threads[t].ChallengeRead? then s
    else if s.now > s.threads[t].snapshot.expiresAt then Leave(s, t)
    else Enter(s, t, LookupBegun(s.threads[t].ch, s.now))
  }

  /** A lookup of a challenge succeeds. */
  function Replied(p: Proofs, ch: ChallengeId, e: Evidence): Proofs {
    p.(evidence := p.evidence[ch := e],
       answered := if ch in p.issued && e.replied <= p.issued[ch] then p.answered + {ch} else p.answered)
  }

  /** The answer of DNS, which nothing compares with the expiry any more. */
  function DoTxtReply(s: World, t: ThreadId, found: bool): World {
    if t !in s.threads || !s.threads[t].LookupBegun? then s
    else if !found then Leave(s, t)
    else
      var (ch, begun) := (s.threads[t].ch, s.threads[t].begun);
      Enter(s.(proofs := Replied(s.proofs, ch, Evidence(begun, s.now))), t, TxtSeen(ch))
  }

  function DoMarkVerified(s: World, t: ThreadId): World {
    if t !in s.threads || !s.threads[t].TxtSeen? then s
    else
      var ch := s.threads[t].ch;
      if ch !in s.proofs.challenges then Leave(s, t)
      else
        var c := s.proofs.challenges[ch].(verified := true);
        Leave(s.(proofs := s.proofs.(challenges := s.proofs.challenges[ch := c])), t)
  }

  function DoDeleteExpired(s: World): World {
    var cs := s.proofs.challenges;
    s.(proofs := s.proofs.(challenges :=
         map ch | ch in cs && (cs[ch].expiresAt >= s.now || cs[ch].verified) :: cs[ch]))
  }

  // ------------------------------------------------------- user statements

  /** The SELECT of a token of the right type, with the checks on what it read. */
  function DoReadToken(s: World, t: ThreadId, token: string, isEmail: bool): World {
    if t in s.threads || token !in s.proofs.tokens then s
    else
      var k := s.proofs.tokens[token];
      if k.isEmailVerification != isEmail || k.used || s.now > k.expiresAt then s else Enter(s, t, TokenRead(token, k))
  }

  function Spent(p: Proofs, token: string, k: Token): Proofs {
    p.(tokens := if token in p.tokens then p.tokens[token := p.tokens[token].(used := true)] else p.tokens,
       users := if k.isEmailVerification && k.user in p.users then p.users[k.user := true] else p.users)
  }

  /** The updates of the same transaction, which commits with them. They look at nothing that
      may have changed since the SELECT. */
  function DoSpendToken(s: World, t: ThreadId): World {
    if t !in s.threads || !s.threads[t].TokenRead? then s
    else
      var (token, k) := (s.threads[t].token, s.threads[t].found);
      Leave(s.(proofs := Spent(s.proofs, token, k), spent := s.spent + [token]), t)
  }

  /** The user statements, which touch no call in progress. */
  function DoUser(p: Proofs, step: Step): Proofs {
    match step
    case CreateUser(u, viaOAuth) => if u in p.users then p else p.(users := p.users[u := viaOAuth])
    case OAuthLogin(u) => if u in p.users then p.(users := p.users[u := true]) else p
    case CreateToken(token, u, isEmail, expiresAt) =>
      if token in p.tokens || u !in p.users then p
      else p.(tokens := p.tokens[token := Token(u, isEmail, expiresAt, false)])
    case _ => p
  }

  /** One statement. A statement that is not the next one of its call changes nothing. */
  ghost function Next(cfg: Config, s: World, step: Step): World {
    match step
    case Insert(t, id, agentID, req) => DoInsert(cfg, s, t, id, agentID, req)
    case Start(t, op) => DoStart(cfg, s, t, op)
    case CheckGate(t) => DoCheckGate(s, t)
    case Write(t) => DoWrite(cfg, s, t)
    case Log(t) => DoLog(s, t)
    case Drop(t) => DoDrop(s, t)
    case StartChallenge(ch, domain) => DoStartChallenge(s, ch, domain)
    case ReadChallenge(t, ch) => DoReadChallenge(s, t, ch)
    case CheckExpiry(t) => DoCheckExpiry(s, t)
    case TxtReply(t, found) => DoTxtReply(s, t, found)
    case MarkVerified(t) => DoMarkVerified(s, t)
    case DeleteExpired => DoDeleteExpired(s)
    case ReadToken(t, token, isEmail) => DoReadToken(s, t, token, isEmail)
    case SpendToken(t) => DoSpendToken(s, t)
    case Tick(later) => if later >= s.now then s.(now := later) else s
    case _ => s.(proofs := DoUser(s.proofs, step))
  }

  ghost function Run(cfg: Config, s: World, steps: seq<Step>): World
    decreases |steps|
  {
    if steps == [] then s else Run(cfg, Next(cfg, s, steps[0]), steps[1..])
  }

  const INIT: World := World(map[], Proofs(map[], map[], map[], map[], map[], {}), map[], 0, {}, [], [], [])

  lemma RunFirst(cfg: Config, s: World, step: Step, rest: seq<Step>)
    ensures Run(cfg, s, [step] + rest) == Run(cfg, Next(cfg, s, step), rest)
  {
    assert ([step] + rest)[1..] == rest;
  }

  lemma {:induction false} RunConcat(cfg: Config, s: World, a: seq<Step>, b: seq<Step>)
    ensures Run(cfg, s, a + b) == Run(cfg, Run(cfg, s, a), b)
    decreases |a|
  {
    if a == [] {
      assert a + b == b;
    } else {
      assert (a + b)[1..] == a[1..] + b;
      RunConcat(cfg, Next(cfg, s, a[0]), a[1..], b);
    }
  }

  // ------------------------------------------------------- invariants

  /** The TXT lookup of a challenge succeeded, and it was begun before the challenge expired. */
  predicate Proven(p: Proofs, ch: ChallengeId) {
    ch in p.challenges && ch in p.evidence && p.evidence[ch].begun <= p.challenges[ch].expiresAt
  }

  /** Through the gate: a verified and proven challenge for the row's owner domain, or an
      owner with a verified e-mail address. */
  ghost predicate Verified(p: Proofs, r: Row) {
    if r.registrationType == NapHosted then r.owner.Some? && EmailVerified(p, r.owner.value)
    else exists ch :: DomainVerifiedBy(p, ch, r.ownerDomain) && Proven(p, ch)
  }

  predicate NeedsGate(st: Status) { st == Active || st == Suspended || st == Deprecated }

  /** A challenge in the table expires when it was issued to, and is verified only with a
      proof. */
  predicate ChallengeOk(p: Proofs, ch: ChallengeId)
    requires ch in p.challenges
  {
    && ch in p.issued && p.challenges[ch].expiresAt == p.issued[ch]
    && (p.challenges[ch].verified ==> ch in p.evidence)
  }

  ghost predicate ProofsOk(p: Proofs) {
    && (forall ch | ch in p.challenges :: ChallengeOk(p, ch))
    && forall ch | ch in p.evidence ::
         && ch in p.issued && p.evidence[ch].begun <= p.issued[ch]
         && (p.evidence[ch].replied <= p.issued[ch] ==> ch in p.answered)
  }

  predicate OwnerOk(r: Row) { r.registrationType == NapHosted ==> r.owner.Some? }

  ghost predicate RowOk(p: Proofs, r: Row) {
    && OwnerOk(r)
    && (NeedsGate(r.status) ==> Verified(p, r))
    && (r.status == Suspended ==> r.suspendedAt.Some?)
    && (r.status == Deprecated ==> r.deprecatedAt.Some?)
  }

  ghost predicate RowsOk(s: World) {
    forall id | id in s.table :: id in s.usedIds && RowOk(s.proofs, s.table[id])
  }

  /** What a call read still identifies the row, if the row is still there. */
  predicate SnapshotOk(table: Table, used: set<Id>, op: Op, row: Row) {
    && !op.Register? && op.id in used && OwnerOk(row)
    && (op.id in table ==> SameIdentity(row, table[op.id]))
  }

  /** Calls past their gate are verified; verifications past their lookup have evidence. */
  ghost predicate PhaseOk(table: Table, used: set<Id>, p: Proofs, ph: Phase) {
    match ph
    case Checking(op, row) => SnapshotOk(table, used, op, row)
    case Ready(op, row) => SnapshotOk(table, used, op, row) && (op.Activate? ==> Verified(p, row))
    case Unlogged(_, _) => true
    case ChallengeRead(ch, c) => ch in p.issued && c.expiresAt == p.issued[ch]
    case LookupBegun(ch, begun) => ch in p.issued && begun <= p.issued[ch]
    case TxtSeen(ch) => ch in p.evidence
    case TokenRead(_, _) => true
  }

  ghost predicate ThreadsOk(s: World) {
    forall t | t in s.threads :: PhaseOk(s.table, s.usedIds, s.proofs, s.threads[t])
  }

  /** The status changes each call may make, whatever it read before. */
  predicate LegalEdge(e: Edge) {
    match e.op
    case Suspend(_, _) => e.from == Active && e.to == Some(Suspended)
    case Deprecate(_, _, _, _) => e.from == Active && e.to == Some(Deprecated)
    case Restore(_) => e.from == Suspended && e.to == Some(Active)
    case Activate(_, _, _) => e.to == Some(Active)
    case Revoke(_, _) => e.to == Some(Revoked)
    case Update(_, _, _) => e.to == Some(e.from)
    case Delete(_) => e.to == None
    case Register(_, _, _) => false
  }

  predicate EdgesOk(edges: seq<Edge>) { forall i | 0 <= i < |edges| :: LegalEdge(edges[i]) }

  ghost predicate Inv(s: World) {
    ProofsOk(s.proofs) && RowsOk(s) && ThreadsOk(s) && EdgesOk(s.edges)
  }

  /** What is never taken back: issued challenges keep their expiry and their evidence,
      verified ones stay in the table, and verified e-mail addresses stay verified. */
  ghost predicate Grows(p: Proofs, q: Proofs) {
    && (forall ch | ch in p.issued :: ch in q.issued && q.issued[ch] == p.issued[ch])
    && (forall ch | ch in p.evidence :: ch in q.evidence) && p.answered <= q.answered
    && (forall u :: EmailVerified(p, u) ==> EmailVerified(q, u))
    && (forall ch, d :: DomainVerifiedBy(p, ch, d) && Proven(p, ch) ==> DomainVerifiedBy(q, ch, d) && Proven(q, ch))
  }

  lemma VerifiedStays(p: Proofs, q: Proofs, r: Row)
    requires Verified(p, r) && Grows(p, q)
    ensures Verified(q, r)
  {
  }

  // ------------------------------------------------------- steps on the proofs

  /** Agent rows and calls are unaffected by proofs that only grow. */
  lemma ProofsGrew(s: World, s': World)
    requires Inv(s) && s'.table == s.table && s'.usedIds == s.usedIds && s'.edges == s.edges
    requires Grows(s.proofs, s'.proofs) && ProofsOk(s'.proofs)
    requires forall t | t in s'.threads ::
               (t in s.threads && s'.threads[t] == s.threads[t])
               || PhaseOk(s.table, s.usedIds, s'.proofs, s'.threads[t])
    ensures Inv(s')
  {
    forall id | id in s'.table ensures RowOk(s'.proofs, s'.table[id]) {
      assert RowOk(s.proofs, s.table[id]);
      if NeedsGate(s.table[id].status) { VerifiedStays(s.proofs, s'.proofs, s.table[id]); }
    }
    forall t | t in s'.threads ensures PhaseOk(s.table, s.usedIds, s'.proofs, s'.threads[t]) {
      if t in s.threads && s'.threads[t] == s.threads[t] {
        assert PhaseOk(s.table, s.usedIds, s.proofs, s.threads[t]);
        if s.threads[t].Ready? && s.threads[t].op.Activate? { VerifiedStays(s.proofs, s'.proofs, s.threads[t].row); }
      }
    }
  }

  lemma IssueGrows(p: Proofs, ch: ChallengeId, c: Challenge)
    requires ProofsOk(p) && ch !in p.issued && !c.verified
    ensures Grows(p, Issue(p, ch, c)) && ProofsOk(Issue(p, ch, c))
  {
    var q := Issue(p, ch, c);
    forall i | i in q.challenges ensures ChallengeOk(q, i) {
      if i != ch { assert ChallengeOk(p, i); }
    }
    forall i | i in p.challenges ensures i != ch { assert ChallengeOk(p, i); }
  }

  lemma StartChallengeOk(s: World, ch: ChallengeId, domain: string)
    requires Inv(s)
    ensures Inv(DoStartChallenge(s, ch, domain)) && Grows(s.proofs, DoStartChallenge(s, ch, domain).proofs)
  {
    var s' := DoStartChallenge(s, ch, domain);
    if s' != s {
      IssueGrows(s.proofs, ch, Challenge(domain, s.now + CHALLENGE_TTL, false));
      ProofsGrew(s, s');
    }
  }

  lemma ReadChallengeOk(s: World, t: ThreadId, ch: ChallengeId)
    requires Inv(s)
    ensures Inv(DoReadChallenge(s, t, ch)) && DoReadChallenge(s, t, ch).proofs == s.proofs
  {
    var s' := DoReadChallenge(s, t, ch);
    if s' != s {
      assert ChallengeOk(s.proofs, ch);
      ProofsGrew(s, s');
    }
  }

  lemma CheckExpiryOk(s: World, t: ThreadId)
    requires Inv(s)
    ensures Inv(DoCheckExpiry(s, t)) && DoCheckExpiry(s, t).proofs == s.proofs
  {
    var s' := DoCheckExpiry(s, t);
    if s' != s {
      assert PhaseOk(s.table, s.usedIds, s.proofs, s.threads[t]);
      ProofsGrew(s, s');
    }
  }

  lemma ReplyGrows(p: Proofs, ch: ChallengeId, e: Evidence)
    requires ProofsOk(p) && ch in p.issued && e.begun <= p.issued[ch]
    ensures Grows(p, Replied(p, ch, e)) && ProofsOk(Replied(p, ch, e))
  {
    var q := Replied(p, ch, e);
    forall i | i in q.challenges ensures ChallengeOk(q, i) { assert ChallengeOk(p, i); }
  }

  lemma TxtReplyOk(s: World, t: ThreadId, found: bool)
    requires Inv(s)
    ensures Inv(DoTxtReply(s, t, found)) && Grows(s.proofs, DoTxtReply(s, t, found).proofs)
  {
    var s' := DoTxtReply(s, t, found);
    if s' != s {
      assert PhaseOk(s.table, s.usedIds, s.proofs, s.threads[t]);
      ReplyGrows(s.proofs, s.threads[t].ch, Evidence(s.threads[t].begun, s.now));
      ProofsGrew(s, s');
    }
  }

  function Marked(p: Proofs, ch: ChallengeId): Proofs
    requires ch in p.challenges
  {
    p.(challenges := p.challenges[ch := p.challenges[ch].(verified := true)])
  }

  lemma MarkGrows(p: Proofs, ch: ChallengeId)
    requires ProofsOk(p) && ch in p.challenges && ch in p.evidence
    ensures Grows(p, Marked(p, ch)) && ProofsOk(Marked(p, ch))
  {
    var q := Marked(p, ch);
    forall i | i in q.challenges ensures ChallengeOk(q, i) { assert ChallengeOk(p, i); }
  }

  lemma MarkVerifiedOk(s: World, t: ThreadId)
    requires Inv(s)
    ensures Inv(DoMarkVerified(s, t)) && Grows(s.proofs, DoMarkVerified(s, t).proofs)
  {
    var s' := DoMarkVerified(s, t);
    if s' != s {
      assert PhaseOk(s.table, s.usedIds, s.proofs, s.threads[t]);
      if s.threads[t].ch in s.proofs.challenges { MarkGrows(s.proofs, s.threads[t].ch); }
      ProofsGrew(s, s');
    }
  }

  lemma DeleteExpiredOk(s: World)
    requires Inv(s)
    ensures Inv(DoDeleteExpired(s)) && Grows(s.proofs, DoDeleteExpired(s).proofs)
  {
    var s' := DoDeleteExpired(s);
    forall i | i in s'.proofs.challenges ensures ChallengeOk(s'.proofs, i) { assert ChallengeOk(s.proofs, i); }
    ProofsGrew(s, s');
  }

  lemma UserGrows(p: Proofs, step: Step)
    requires ProofsOk(p)
    ensures Grows(p, DoUser(p, step)) && ProofsOk(DoUser(p, step))
  {
    var q := DoUser(p, step);
    assert q.challenges == p.challenges && q.issued == p.issued && q.evidence == p.evidence;
    forall i | i in q.challenges ensures ChallengeOk(q, i) { assert ChallengeOk(p, i); }
  }

  lemma ReadTokenOk(s: World, t: ThreadId, token: string, isEmail: bool)
    requires Inv(s)
    ensures Inv(DoReadToken(s, t, token, isEmail)) && DoReadToken(s, t, token, isEmail).proofs == s.proofs
  {
    ProofsGrew(s, DoReadToken(s, t, token, isEmail));
  }

  lemma SpentGrows(p: Proofs, token: string, k: Token)
    requires ProofsOk(p)
    ensures Grows(p, Spent(p, token, k)) && ProofsOk(Spent(p, token, k))
  {
    var q := Spent(p, token, k);
    assert q.challenges == p.challenges && q.issued == p.issued && q.evidence == p.evidence;
    forall i | i in q.challenges ensures ChallengeOk(q, i) { assert ChallengeOk(p, i); }
  }

  lemma SpendTokenOk(s: World, t: ThreadId)
    requires Inv(s)
    ensures Inv(DoSpendToken(s, t)) && Grows(s.proofs, DoSpendToken(s, t).proofs)
  {
    var s' := DoSpendToken(s, t);
    if s' != s {
      SpentGrows(s.proofs, s.threads[t].token, s.threads[t].found);
      ProofsGrew(s, s');
    }
  }

  lemma UserStepOk(s: World, step: Step)
    requires Inv(s)
    ensures var s' := s.(proofs := DoUser(s.proofs, step)); Inv(s') && Grows(s.proofs, s'.proofs)
  {
    UserGrows(s.proofs, step);
    ProofsGrew(s, s.(proofs := DoUser(s.proofs, step)));
  }

  // ------------------------------------------------------- steps on the agents

  lemma NewRowIsPending(cfg: Config, req: RegisterRequest, agentID: string)
    requires NewRow(cfg, req, agentID).Some?
    ensures var r := NewRow(cfg, req, agentID).value; r.status == Pending && OwnerOk(r)
  {
  }

  lemma InsertOk(cfg: Config, s: World, t: ThreadId, id: Id, agentID: string, req: RegisterRequest)
    requires Inv(s)
    ensures var s' := DoInsert(cfg, s, t, id, agentID, req); Inv(s') && s'.proofs == s.proofs
  {
    var s' := DoInsert(cfg, s, t, id, agentID, req);
    if s' != s {
      NewRowIsPending(cfg, req, agentID);
      InsertedOk(s, t, id, NewRow(cfg, req, agentID).value);
    }
  }

  lemma InsertedOk(s: World, t: ThreadId, id: Id, row: Row)
    requires Inv(s) && id !in s.usedIds && row.status == Pending && OwnerOk(row)
    ensures Inv(Inserted(s, t, id, row))
  {
    var s' := Inserted(s, t, id, row);
    forall u | u in s'.threads ensures PhaseOk(s'.table, s'.usedIds, s.proofs, s'.threads[u]) {
      if u != t { assert PhaseOk(s.table, s.usedIds, s.proofs, s.threads[u]); }
    }
  }

  lemma StartOk(cfg: Config, s: World, t: ThreadId, op: Op)
    requires Inv(s)
    ensures Inv(DoStart(cfg, s, t, op)) && DoStart(cfg, s, t, op).proofs == s.proofs
  {
  }

  lemma CheckGateOk(s: World, t: ThreadId)
    requires Inv(s)
    ensures Inv(DoCheckGate(s, t)) && DoCheckGate(s, t).proofs == s.proofs
  {
    var s' := DoCheckGate(s, t);
    if s' != s {
      assert PhaseOk(s.table, s.usedIds, s.proofs, s.threads[t]);
      if GateOpen(s.proofs, s.threads[t].row) { GateOpenIsVerified(s.proofs, s.threads[t].row); }
      ProofsGrew(s, s');
    }
  }

  lemma GateOpenIsVerified(p: Proofs, r: Row)
    requires ProofsOk(p) && GateOpen(p, r) && OwnerOk(r)
    ensures Verified(p, r)
  {
    if r.registrationType != NapHosted {
      var ch :| DomainVerifiedBy(p, ch, r.ownerDomain);
      assert ChallengeOk(p, ch);
    }
  }

  lemma LogOk(s: World, t: ThreadId)
    requires Inv(s)
    ensures Inv(DoLog(s, t)) && DoLog(s, t).proofs == s.proofs
  {
  }

  /** The statement of a call takes a row only along a legal edge, whatever row the call
      read, lets no row past the gate but by activation, and never back to pending; and it
      keeps the time columns in step with the status. */
  lemma PlannedWrite(cfg: Config, snapshot: Row, current: Row, op: Op)
    requires !op.Register? && PlanFor(cfg, snapshot, op).Some? && Guard(PlanFor(cfg, snapshot, op).value.st, current)
    ensures var st := PlanFor(cfg, snapshot, op).value.st;
            var after := Changed(st, current);
            && LegalEdge(Edge(op, current.status, if st == Remove then None else Some(after.status)))
            && (st != Remove && NeedsGate(after.status) ==> op.Activate? || NeedsGate(current.status))
            && (after.status == Pending ==> current.status == Pending)
            && ((current.status == Suspended ==> current.suspendedAt.Some?) ==>
                (after.status == Suspended ==> after.suspendedAt.Some?))
            && ((current.status == Deprecated ==> current.deprecatedAt.Some?) ==>
                (after.status == Deprecated ==> after.deprecatedAt.Some?))
  {
  }

  /** The row after an effective write is in order. */
  lemma WrittenRowOk(cfg: Config, p: Proofs, snapshot: Row, current: Row, op: Op)
    requires !op.Register? && PlanFor(cfg, snapshot, op).Some? && Guard(PlanFor(cfg, snapshot, op).value.st, current)
    requires PlanFor(cfg, snapshot, op).value.st != Remove
    requires RowOk(p, current) && SameIdentity(snapshot, current) && (op.Activate? ==> Verified(p, snapshot))
    ensures RowOk(p, Changed(PlanFor(cfg, snapshot, op).value.st, current))
  {
  }

  /** A written row keeps its identity, so what other calls read still identifies it. */
  lemma WrittenPhases(s: World, t: ThreadId, op: Op, plan: Plan)
    requires ThreadsOk(s) && t in s.threads && op.id in s.table && Affects(s.table, op.id, plan.st)
    ensures ThreadsOk(Written(s, t, op, plan))
  {
    var s' := Written(s, t, op, plan);
    forall u | u in s'.threads ensures PhaseOk(s'.table, s'.usedIds, s'.proofs, s'.threads[u]) {
      if u != t { assert PhaseOk(s.table, s.usedIds, s.proofs, s.threads[u]); }
    }
  }

  lemma WrittenRows(s: World, t: ThreadId, op: Op, plan: Plan)
    requires RowsOk(s) && op.id in s.table && Affects(s.table, op.id, plan.st)
    requires plan.st != Remove ==> RowOk(s.proofs, Changed(plan.st, s.table[op.id]))
    ensures RowsOk(Written(s, t, op, plan))
  {
  }

  lemma EffectiveWriteOk(cfg: Config, s: World, t: ThreadId)
    requires Inv(s) && Effective(cfg, s, t)
    ensures var op := s.threads[t].op; Inv(Written(s, t, op, PlanFor(cfg, s.threads[t].row, op).value))
  {
    var (op, row) := (s.threads[t].op, s.threads[t].row);
    var plan := PlanFor(cfg, row, op).value;
    assert PhaseOk(s.table, s.usedIds, s.proofs, s.threads[t]);
    assert RowOk(s.proofs, s.table[op.id]);
    PlannedWrite(cfg, row, s.table[op.id], op);
    if plan.st != Remove { WrittenRowOk(cfg, s.proofs, row, s.table[op.id], op); }
    WrittenRows(s, t, op, plan);
    WrittenPhases(s, t, op, plan);
  }

  lemma WriteOk(cfg: Config, s: World, t: ThreadId)
    requires Inv(s)
    ensures Inv(DoWrite(cfg, s, t)) && DoWrite(cfg, s, t).proofs == s.proofs
  {
    if Effective(cfg, s, t) {
      EffectiveWriteOk(cfg, s, t);
    } else if t in s.threads && s.threads[t].Ready? {
      LeaveOk(s, t);
    }
  }

  lemma LeaveOk(s: World, t: ThreadId)
    requires Inv(s)
    ensures Inv(Leave(s, t))
  {
  }

  predicate IsAgentStep(step: Step) {
    step.Insert? || step.Start? || step.CheckGate? || step.Write? || step.Log? || step.Drop?
  }

  lemma AgentStepOk(cfg: Config, s: World, step: Step)
    requires Inv(s) && IsAgentStep(step)
    ensures Inv(Next(cfg, s, step)) && Next(cfg, s, step).proofs == s.proofs
  {
    match step
    case Insert(t, id, agentID, req) => InsertOk(cfg, s, t, id, agentID, req);
    case Start(t, op) => StartOk(cfg, s, t, op);
    case CheckGate(t) => CheckGateOk(s, t);
    case Write(t) => WriteOk(cfg, s, t);
    case Log(t) => LogOk(s, t);
    case Drop(t) => LeaveOk(s, t);
  }

  lemma ProofStepOk(cfg: Config, s: World, step: Step)
    requires Inv(s) && !IsAgentStep(step)
    ensures Inv(Next(cfg, s, step)) && Grows(s.proofs, Next(cfg, s, step).proofs)
  {
    match step
    case StartChallenge(ch, domain) => StartChallengeOk(s, ch, domain);
    case ReadChallenge(t, ch) => ReadChallengeOk(s, t, ch);
    case CheckExpiry(t) => CheckExpiryOk(s, t);
    case TxtReply(t, found) => TxtReplyOk(s, t, found);
    case MarkVerified(t) => MarkVerifiedOk(s, t);
    case DeleteExpired => DeleteExpiredOk(s);
    case ReadToken(t, token, isEmail) => ReadTokenOk(s, t, token, isEmail);
    case SpendToken(t) => SpendTokenOk(s, t);
    case Tick(_) =>
    case _ => UserStepOk(s, step);
  }

  lemma NextKeepsInv(cfg: Config, s: World, step: Step)
    requires Inv(s)
    ensures Inv(Next(cfg, s, step)) && Grows(s.proofs, Next(cfg, s, step).proofs)
  {
    if IsAgentStep(step) { AgentStepOk(cfg, s, step); } else { ProofStepOk(cfg, s, step); }
  }

  // ------------------------------------------------------- whole-run results

  lemma {:induction false} RunKeepsInv(cfg: Config, s: World, steps: seq<Step>)
    requires Inv(s)
    ensures Inv(Run(cfg, s, steps)) && Grows(s.proofs, Run(cfg, s, steps).proofs)
    decreases |steps|
  {
    if steps != [] {
      NextKeepsInv(cfg, s, steps[0]);
      RunKeepsInv(cfg, Next(cfg, s, steps[0]), steps[1..]);
    }
  }

  /** A challenge for the domain that is in the table and verified, and whose successful lookup
      was begun before it expired. */
  predicate Vouches(p: Proofs, ch: ChallengeId, domain: string) {
    && ch in p.challenges && p.challenges[ch].domain == domain && p.challenges[ch].verified
    && ch in p.evidence && p.evidence[ch].begun <= p.challenges[ch].expiresAt
  }

  lemma VerifiedIff(p: Proofs, r: Row)
    ensures Verified(p, r) <==>
            if r.registrationType == NapHosted then r.owner.Some? && r.owner.value in p.users && p.users[r.owner.value]
            else exists ch :: Vouches(p, ch, r.ownerDomain)
  {
    if r.registrationType != NapHosted {
      forall ch ensures Vouches(p, ch, r.ownerDomain) <==> DomainVerifiedBy(p, ch, r.ownerDomain) && Proven(p, ch) {}
    }
  }

  /** The verification gate over whole runs. Whatever interleaves, every active, suspended or
      deprecated agent has a verified challenge for its owner domain whose TXT lookup succeeded
      and was begun before the challenge expired, or an owner with a verified e-mail address;
      and what verified it is still there after any further steps. */
  lemma GateOverRuns(cfg: Config, before: seq<Step>, after: seq<Step>, id: Id)
    requires id in Run(cfg, INIT, before).table
    requires Run(cfg, INIT, before).table[id].status in {Active, Suspended, Deprecated}
    ensures var s := Run(cfg, INIT, before);
            var (r, now, later) := (s.table[id], s.proofs, Run(cfg, s, after).proofs);
            if r.registrationType == NapHosted then
              && r.owner.Some? && r.owner.value in now.users && now.users[r.owner.value]
              && r.owner.value in later.users && later.users[r.owner.value]
            else
              && (exists ch :: Vouches(now, ch, r.ownerDomain)) && (exists ch :: Vouches(later, ch, r.ownerDomain))
  {
    var s := Run(cfg, INIT, before);
    GatedIsVerified(cfg, before, id);
    RunKeepsInv(cfg, INIT, before);
    RunKeepsInv(cfg, s, after);
    VerifiedStays(s.proofs, Run(cfg, s, after).proofs, s.table[id]);
    VerifiedIff(s.proofs, s.table[id]);
    VerifiedIff(Run(cfg, s, after).proofs, s.table[id]);
  }

  lemma GatedIsVerified(cfg: Config, steps: seq<Step>, id: Id)
    requires id in Run(cfg, INIT, steps).table
    requires Run(cfg, INIT, steps).table[id].status in {Active, Suspended, Deprecated}
    ensures Verified(Run(cfg, INIT, steps).proofs, Run(cfg, INIT, steps).table[id])
  {
    RunKeepsInv(cfg, INIT, steps);
    var s := Run(cfg, INIT, steps);
    assert RowOk(s.proofs, s.table[id]);
  }

  lemma OpenIff(p: Proofs, r: Row)
    ensures GateOpen(p, r) <==>
            if r.registrationType == NapHosted then r.owner.Some? ==> r.owner.value in p.users && p.users[r.owner.value]
            else exists ch | ch in p.challenges :: p.challenges[ch].domain == r.ownerDomain && p.challenges[ch].verified
  {
    if r.registrationType != NapHosted {
      forall ch
        ensures DomainVerifiedBy(p, ch, r.ownerDomain) <==>
                ch in p.challenges && p.challenges[ch].domain == r.ownerDomain && p.challenges[ch].verified
      {}
    }
  }

  /** The gate decides: an activation that nothing interleaves with, once it is allowed by
      everything else, ends with the agent active if and only if the gate is open for it or
      the agent was active before. */
  lemma ActivationIff(cfg: Config, s: World, t: ThreadId, op: Op)
    requires op.Activate? && op.id in s.table && t !in s.threads && PlanFor(cfg, s.table[op.id], op).Some?
    ensures var s' := DoWrite(cfg, DoCheckGate(DoStart(cfg, s, t, op), t), t);
            op.id in s'.table && (s'.table[op.id].status == Active <==>
              || s.table[op.id].status == Active
              || (var r := s.table[op.id];
                  if r.registrationType == NapHosted then
                    r.owner.Some? ==> r.owner.value in s.proofs.users && s.proofs.users[r.owner.value]
                  else
                    exists ch | ch in s.proofs.challenges ::
                      s.proofs.challenges[ch].domain == r.ownerDomain && s.proofs.challenges[ch].verified))
  {
    OpenIff(s.proofs, s.table[op.id]);
    var s1 := DoStart(cfg, s, t, op);
    assert s1.threads[t] == Checking(op, s.table[op.id]);
    var s2 := DoCheckGate(s1, t);
    if GateOpen(s.proofs, s.table[op.id]) {
      assert s2.threads[t] == Ready(op, s.table[op.id]) && Effective(cfg, s2, t);
    }
  }

  /** Tiers are earned. In every run, exactly the active and deprecated agents have one. An
      agent shown as verified or trusted is a domain agent, without or with a certificate, and
      has a verified challenge for its owner domain whose successful lookup was begun in time;
      one shown as basic has an owner with a verified e-mail address. */
  lemma TierIsEarned(cfg: Config, steps: seq<Step>, id: Id)
    requires id in Run(cfg, INIT, steps).table
    ensures var s := Run(cfg, INIT, steps);
            var (r, tier) := (s.table[id], ComputeTrustTier(s.table[id]));
            && (tier == TierUnverified <==> r.status !in {Active, Deprecated})
            && (tier == TierBasic ==> r.registrationType == NapHosted && r.owner.Some?
                                      && r.owner.value in s.proofs.users && s.proofs.users[r.owner.value])
            && (tier == TierVerified ==> r.certSerial == "") && (tier == TierTrusted ==> r.certSerial != "")
            && (tier == TierVerified || tier == TierTrusted ==>
                  r.registrationType == Domain && exists ch :: Vouches(s.proofs, ch, r.ownerDomain))
  {
    if ComputeTrustTier(Run(cfg, INIT, steps).table[id]) != TierUnverified {
      GateOverRuns(cfg, steps, [], id);
    }
  }

  /** The organisation a row is registered under: its owner domain in lower case, or the
      registry's own name for hosted agents. */
  predicate RootOk(cfg: Config, r: Row) {
    r.trustRoot == if r.registrationType == NapHosted then cfg.trustRoot else ToLower(TrimSpace(r.ownerDomain))
  }

  ghost predicate RootsOk(cfg: Config, table: Table) { forall id | id in table :: RootOk(cfg, table[id]) }

  lemma NextKeepsRoots(cfg: Config, s: World, step: Step)
    requires RootsOk(cfg, s.table)
    ensures RootsOk(cfg, Next(cfg, s, step).table)
  {
    if step.Insert? {
      InsertKeepsRoots(cfg, s, step.t, step.id, step.agentID, step.req);
    } else if step.Write? {
      WriteKeepsRoots(cfg, s, step.t);
    } else {
      TableKept(cfg, s, step);
    }
  }

  /** Only inserts and writes touch the table. */
  lemma TableKept(cfg: Config, s: World, step: Step)
    requires !step.Insert? && !step.Write?
    ensures Next(cfg, s, step).table == s.table && Next(cfg, s, step).usedIds == s.usedIds
  {
  }

  lemma InsertKeepsRoots(cfg: Config, s: World, t: ThreadId, id: Id, agentID: string, req: RegisterRequest)
    requires RootsOk(cfg, s.table)
    ensures RootsOk(cfg, DoInsert(cfg, s, t, id, agentID, req).table)
  {
    var r := NewRow(cfg, req, agentID);
    NewRowRoot(cfg, req, agentID);
    if DoInsert(cfg, s, t, id, agentID, req) != s {
      assert DoInsert(cfg, s, t, id, agentID, req).table == s.table[id := r.value];
    }
  }

  lemma NewRowRoot(cfg: Config, req: RegisterRequest, agentID: string)
    ensures NewRow(cfg, req, agentID).Some? ==> RootOk(cfg, NewRow(cfg, req, agentID).value)
  {
  }

  lemma WriteKeepsRoots(cfg: Config, s: World, t: ThreadId)
    requires RootsOk(cfg, s.table)
    ensures RootsOk(cfg, DoWrite(cfg, s, t).table)
  {
    var table := DoWrite(cfg, s, t).table;
    if Effective(cfg, s, t) {
      var (id, st) := (s.threads[t].op.id, PlanFor(cfg, s.threads[t].row, s.threads[t].op).value.st);
      assert table == Exec(s.table, id, st);
      forall i | i in table ensures RootOk(cfg, table[i]) { assert SameIdentity(s.table[i], table[i]); }
    } else {
      assert table == s.table;
    }
  }

  lemma {:induction false} RunKeepsRoots(cfg: Config, s: World, steps: seq<Step>)
    requires RootsOk(cfg, s.table)
    ensures RootsOk(cfg, Run(cfg, s, steps).table)
    decreases |steps|
  {
    if steps != [] {
      NextKeepsRoots(cfg, s, steps[0]);
      RunKeepsRoots(cfg, Next(cfg, s, steps[0]), steps[1..]);
    }
  }

  /** The organisation in the URI of a resolvable agent is proven: in every run it is the
      registry's own name, for a hosted agent, or the lower-case form of a domain with a
      verified challenge whose successful lookup was begun in time. */
  lemma OrgIsProven(cfg: Config, steps: seq<Step>, id: Id)
    requires id in Run(cfg, INIT, steps).table && Run(cfg, INIT, steps).table[id].status in {Active, Deprecated}
    ensures var s := Run(cfg, INIT, steps);
            var r := s.table[id];
            if r.registrationType == NapHosted then r.trustRoot == cfg.trustRoot
            else r.trustRoot == ToLower(TrimSpace(r.ownerDomain)) && exists ch :: Vouches(s.proofs, ch, r.ownerDomain)
  {
    RunKeepsRoots(cfg, INIT, steps);
    GateOverRuns(cfg, steps, [], id);
    assert RootOk(cfg, Run(cfg, INIT, steps).table[id]);
  }

  /** Lifecycle edges survive stale reads. Whatever a call read before its write, every
      status change in every run is one its call may make, suspended agents have a
      suspension time and deprecated agents a deprecation time. */
  lemma EdgesOverRuns(cfg: Config, steps: seq<Step>)
    ensures var s := Run(cfg, INIT, steps);
            && (forall i | 0 <= i < |s.edges| :: LegalEdge(s.edges[i]))
            && (forall id | id in s.table :: s.table[id].status == Suspended ==> s.table[id].suspendedAt.Some?)
            && (forall id | id in s.table :: s.table[id].status == Deprecated ==> s.table[id].deprecatedAt.Some?)
  {
    RunKeepsInv(cfg, INIT, steps);
    var s := Run(cfg, INIT, steps);
    forall id | id in s.table ensures RowOk(s.proofs, s.table[id]) {}
  }

  /** An agent that has left the pending state: gone for good, or present in another state. */
  predicate Left(s: World, id: Id) {
    id in s.usedIds && (id in s.table ==> s.table[id].status != Pending)
  }

  lemma WriteKeepsLeft(cfg: Config, s: World, t: ThreadId, id: Id)
    requires Left(s, id)
    ensures Left(DoWrite(cfg, s, t), id)
  {
    if Effective(cfg, s, t) {
      PlannedWrite(cfg, s.threads[t].row, s.table[s.threads[t].op.id], s.threads[t].op);
    }
  }

  lemma NextKeepsLeft(cfg: Config, s: World, step: Step, id: Id)
    requires Left(s, id)
    ensures Left(Next(cfg, s, step), id)
  {
    if step.Write? {
      WriteKeepsLeft(cfg, s, step.t, id);
    }
  }

  /** The pending state is never re-entered, not even through deletion. */
  lemma {:induction false} PendingNeverReentered(cfg: Config, s: World, steps: seq<Step>, id: Id)
    requires Left(s, id)
    ensures Left(Run(cfg, s, steps), id)
    decreases |steps|
  {
    if steps != [] {
      NextKeepsLeft(cfg, s, steps[0], id);
      PendingNeverReentered(cfg, Next(cfg, s, steps[0]), steps[1..], id);
    }
  }
}
