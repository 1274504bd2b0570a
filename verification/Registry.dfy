/** The agent service with its calls executed one at a time: registration, lifecycle, the
    audit entry each call appends, and resolution. Whole-run results: the ledger replays to
    the table, printed URIs resolve, and the quota holds. */
module Registry {
  import opened Strings
  import opened AgentTable
  import Capability
  import Uri
  import TrustLedger

  // ------------------------------------------------------- requests

  datatype RegisterRequest = RegisterRequest(
    capability: string, category: string, capabilityNode: string, profile: Profile,
    ownerDomain: string, publicKeyPEM: string, owner: Option<UserId>,
    registrationType: RegistrationType, username: string, skillIDs: seq<string>)

  datatype SunsetDate = NoSunset | BadSunset | Sunset(date: string)

  /** One service call. Activate carries what its collaborators answer: whether the
      verification gate is passed, and the certificate when one is issued. */
  datatype Op =
    | Register(id: Id, agentID: string, req: RegisterRequest)
    | Update(id: Id, profile: Profile, publicKeyPEM: string)
    | Activate(id: Id, gate: bool, cert: Option<(string, string)>)
    | Revoke(id: Id, reason: string)
    | Suspend(id: Id, now: Time)
    | Restore(id: Id)
    | Deprecate(id: Id, now: Time, sunset: SunsetDate, replacement: string)
    | Delete(id: Id)

  /** Clock reading and marshalled payload of the audit entry. */
  datatype Stamp = Stamp(now: TrustLedger.Timestamp, payload: string)

  datatype Config = Config(hasIssuer: bool, trustRoot: string, maxAgents: int)

  // ------------------------------------------------------- registration

  function RequestedCapability(req: RegisterRequest): string {
    var a := Capability.NormalizeCapability(req.capability);
    var b := Capability.NormalizeCapability(req.category);
    if a != "" then a else if b != "" then b else Capability.NormalizeCapability(req.capabilityNode)
  }

  /** The pending row for a request, or None when the request is invalid. Hosted agents live
      under the registry's trust root, domain agents under their lower-cased domain. */
  function NewRow(cfg: Config, req: RegisterRequest, agentID: string): Option<Row> {
    var cap := RequestedCapability(req);
    var skill := Capability.DerivePrimarySkill(req.skillIDs, cap);
    if cap == "" || !Capability.ValidCapability(cap) then None
    else if req.registrationType == NapHosted then
      if req.owner.None? || req.username == "" then None
      else Some(Row(cfg.trustRoot, cap, agentID, skill, "", req.owner, NapHosted, Pending, "", req.publicKeyPEM,
                    req.profile, "", None, None, None, ""))
    else
      var domain := ToLower(TrimSpace(req.ownerDomain));
      if domain == "" || req.profile.endpoint == "" then None
      else Some(Row(domain, cap, agentID, skill, req.ownerDomain, req.owner, Domain, Pending, "", req.publicKeyPEM,
                    req.profile, "", None, None, None, ""))
  }

  /** The path a registration is made under: that of the capability field if it holds one,
      else of the category, else of the legacy field. */
  predicate Chosen(req: RegisterRequest, path: string) {
    var (a, b) := (Capability.NormalizeCapability(req.capability), Capability.NormalizeCapability(req.category));
    && path != "" && (a != "" ==> path == a) && (a == "" && b != "" ==> path == b)
    && (a == "" && b == "" ==> path == Capability.NormalizeCapability(req.capabilityNode))
  }

  /** Which registrations are accepted. */
  lemma RegistrationIff(cfg: Config, req: RegisterRequest, agentID: string)
    ensures NewRow(cfg, req, agentID).Some? <==>
            && (exists path :: Chosen(req, path) && Capability.ValidCapability(path))
            && if req.registrationType == NapHosted then req.owner.Some? && req.username != ""
               else req.profile.endpoint != "" && exists c | c in req.ownerDomain :: !IsSpace(c)
  {
    var path := RequestedCapability(req);
    assert path != "" ==> Chosen(req, path);
    NonBlank(req.ownerDomain);
  }

  lemma NonBlank(s: string)
    ensures ToLower(TrimSpace(s)) != "" <==> exists c | c in s :: !IsSpace(c)
  {
    var pre, post := TrimCuts(s, c => IsSpace(c));
    var r := TrimSpace(s);
    if r != "" { assert r[0] in r; } else { assert s == pre + post; }
  }

  /** What registration stores, and that nothing of a certificate, a suspension, a deprecation
      or a revocation is in it yet. */
  lemma StoredColumns(cfg: Config, req: RegisterRequest, agentID: string)
    requires NewRow(cfg, req, agentID).Some?
    ensures var r := NewRow(cfg, req, agentID).value;
            && r.status == Pending && r.agentID == agentID && Chosen(req, r.capabilityNode)
            && r.owner == req.owner && r.registrationType == req.registrationType
            && r.publicKeyPEM == req.publicKeyPEM && r.profile == req.profile
            && (req.registrationType == NapHosted ==> r.trustRoot == cfg.trustRoot && r.ownerDomain == "")
            && (req.registrationType == Domain ==>
                r.trustRoot == ToLower(TrimSpace(req.ownerDomain)) && r.ownerDomain == req.ownerDomain)
            && r.certSerial == "" && r.revocationReason == "" && r.suspendedAt == None
            && r.deprecatedAt == None && r.sunsetDate == None && r.replacementURI == ""
  {
  }

  /** The skill that registration stores and every URI of the agent shows. A first declared
      skill ID decides it, if it is not empty: the slug is its text inside the outer white
      space, in lower case and with hyphens for blanks. Otherwise it is the last level of a
      path of several levels, and otherwise nothing. */
  lemma StoredSkill(cfg: Config, req: RegisterRequest, agentID: string)
    returns (pre: string, core: string, post: string)
    requires NewRow(cfg, req, agentID).Some?
    ensures var r := NewRow(cfg, req, agentID).value;
            var skill := r.primarySkill;
            if req.skillIDs != [] && req.skillIDs[0] != "" then
              && req.skillIDs[0] == pre + core + post && Capability.Tight(core)
              && (forall c | c in pre :: IsSpace(c)) && (forall c | c in post :: IsSpace(c))
              && |skill| == |core| && forall i | 0 <= i < |core| ::
                   && skill[i] != ' ' && !('A' <= skill[i] <= 'Z')
                   && skill[i] == if core[i] == ' ' then '-'
                                  else if 'A' <= core[i] <= 'Z' then (core[i] as int + 32) as char else core[i]
            else if '>' in r.capabilityNode then r.capabilityNode == pre + ">" + skill && '>' !in skill
            else skill == ""
  {
    pre, core, post := "", "", "";
    var r := NewRow(cfg, req, agentID).value;
    SkillOfRow(cfg, req, agentID);
    if req.skillIDs != [] && req.skillIDs[0] != "" {
      pre, core, post := Capability.SlugText(req.skillIDs[0]);
    } else if '>' in r.capabilityNode {
      pre := LastLevel(r.capabilityNode);
    }
  }

  lemma SkillOfRow(cfg: Config, req: RegisterRequest, agentID: string)
    requires NewRow(cfg, req, agentID).Some?
    ensures var r := NewRow(cfg, req, agentID).value;
            r.primarySkill == Capability.DerivePrimarySkill(req.skillIDs, r.capabilityNode)
  {
  }

  lemma LastLevel(path: string) returns (above: string)
    requires '>' in path
    ensures var skill := Capability.DerivePrimarySkill([], path); path == above + ">" + skill && '>' !in skill
  {
    var i := LastIndex(path, '>');
    above := path[..i];
    assert path == path[..i] + ">" + path[i + 1..];
  }

  /** A declared skill leaves the capability no say. */
  lemma DeclaredSkillDecides(cfg: Config, req: RegisterRequest, other: RegisterRequest, a: string, b: string)
    requires NewRow(cfg, req, a).Some? && NewRow(cfg, other, b).Some?
    requires req.skillIDs != [] && req.skillIDs[0] != "" && other.skillIDs != [] && other.skillIDs[0] == req.skillIDs[0]
    ensures NewRow(cfg, req, a).value.primarySkill == NewRow(cfg, other, b).value.primarySkill
  {
    SkillOfRow(cfg, req, a);
    SkillOfRow(cfg, other, b);
  }

  predicate QuotaReached(cfg: Config, t: Table, req: RegisterRequest) {
    req.registrationType == NapHosted && req.owner.Some? && cfg.maxAgents > 0
    && |Owned(t, req.owner.value)| >= cfg.maxAgents
  }

  /** The actor of the register entry. */
  function Registrant(r: Row): string {
    if r.ownerDomain == "" && r.owner.Some? then Decimal(r.owner.value) else r.ownerDomain
  }

  lemma RegistrantIs(cfg: Config, req: RegisterRequest, agentID: string)
    requires NewRow(cfg, req, agentID).Some?
    ensures req.registrationType == NapHosted ==> req.owner.Some?
    ensures Registrant(NewRow(cfg, req, agentID).value) ==
            if req.registrationType == Domain then req.ownerDomain else Decimal(req.owner.value)
  {
    NonBlank(req.ownerDomain);
  }

  lemma OwnedSet(t: Table, req: RegisterRequest)
    requires req.owner.Some?
    ensures Owned(t, req.owner.value) == set i | i in t && t[i].owner == req.owner && t[i].status != Revoked
  {
  }

  // ------------------------------------------------------- the other calls

  /** The statement a call issues on the row it read, and the action and actor of the entry
      it then appends. */
  datatype Plan = Plan(st: Statement, entry: Option<(string, string)>)

  function Merged(p: Profile, q: Profile): Profile {
    Profile(if q.displayName != "" then q.displayName else p.displayName,
            if q.description != "" then q.description else p.description,
            if q.endpoint != "" then q.endpoint else p.endpoint,
            if q.version != "" then q.version else p.version,
            if q.supportURL != "" then q.supportURL else p.supportURL)
  }

  const SYSTEM: string := "nexus-system"

  /** What a call on an existing row does; None when it is refused. */
  function PlanFor(cfg: Config, r: Row, op: Op): Option<Plan>
    requires !op.Register?
  {
    match op
    case Update(_, p, key) =>
      Some(Plan(SetProfile(Merged(r.profile, p), if key != "" then key else r.publicKeyPEM),
                Some(("update", r.ownerDomain))))
    case Activate(_, gate, cert) =>
      if !gate then None
      else if !cfg.hasIssuer then Some(Plan(SetStatus(Active), Some(("activate", SYSTEM))))
      else if cert.None? then None
      else Some(Plan(SetActiveWithCert(cert.value.0, cert.value.1), Some(("activate", SYSTEM))))
    case Revoke(_, reason) =>
      Some(Plan(if reason != "" then SetStatusWithReason(Revoked, reason) else SetStatus(Revoked),
                Some(("revoke", SYSTEM))))
    case Suspend(_, now) =>
      if r.status != Active then None else Some(Plan(SetSuspended(now), Some(("suspend", SYSTEM))))
    case Restore(_) =>
      if r.status != Suspended then None else Some(Plan(SetRestored, Some(("restore", SYSTEM))))
    case Deprecate(_, now, sunset, replacement) =>
      if r.status != Active || sunset == BadSunset then None
      else Some(Plan(SetDeprecated(now, if sunset.Sunset? then Some(sunset.date) else None, replacement),
                     Some(("deprecate", SYSTEM))))
    case Delete(_) => Some(Plan(Remove, None))
  }

  // ------------------------------------------------------- the state machine

  /** What is remembered of every agent ever registered. */
  datatype Known = Known(uri: string, agentID: string)

  datatype State = State(table: Table, ledger: seq<TrustLedger.Entry>, known: map<Id, Known>)

  function Logged(
    h: TrustLedger.Hasher, ledger: seq<TrustLedger.Entry>, uri: string, entry: (string, string), stamp: Stamp)
    : seq<TrustLedger.Entry>
    requires ledger != []
  {
    TrustLedger.Appended(h, ledger, stamp.now, TrustLedger.Request(uri, entry.0, entry.1, Some(stamp.payload)))
  }

  /** A new row stored, logged under its URI and remembered. */
  function Inserted(h: TrustLedger.Hasher, s: State, id: Id, r: Row, uri: string, stamp: Stamp): State
    requires s.ledger != []
  {
    State(s.table[id := r],
          Logged(h, s.ledger, uri, ("register", Registrant(r)), stamp),
          s.known[id := Known(uri, r.agentID)])
  }

  /** A planned call carried out on a row with the given URI: nothing when the statement
      affects no row. */
  function Called(h: TrustLedger.Hasher, s: State, id: Id, uri: string, p: Plan, stamp: Stamp): State
    requires s.ledger != []
  {
    if !Affects(s.table, id, p.st) then s
    else
      s.(table := Exec(s.table, id, p.st),
         ledger := if p.entry.None? then s.ledger else Logged(h, s.ledger, uri, p.entry.value, stamp))
  }

  /** The state after one call; a refused or failed call changes nothing. */
  function Next(h: TrustLedger.Hasher, cfg: Config, s: State, op: Op, stamp: Stamp): State
    requires s.ledger != []
  {
    if op.Register? then
      var r := NewRow(cfg, op.req, op.agentID);
      if r.None? || QuotaReached(cfg, s.table, op.req) || !Insertable(s.table, op.id, r.value) then s
      else Inserted(h, s, op.id, r.value, URI(r.value), stamp)
    else if op.id !in s.table || PlanFor(cfg, s.table[op.id], op).None? then s
    else Called(h, s, op.id, URI(s.table[op.id]), PlanFor(cfg, s.table[op.id], op).value, stamp)
  }

  /** Fresh identifiers: the row key was never used, and the generated agent ID is well
      formed and was never generated before. */
  ghost predicate Fresh(s: State, op: Op) {
    op.Register? ==>
      && op.id !in s.known && Uri.CleanID(op.agentID)
      && forall i | i in s.known :: s.known[i].agentID != op.agentID
  }

  function Run(h: TrustLedger.Hasher, cfg: Config, s: State, calls: seq<(Op, Stamp)>): State
    requires s.ledger != []
    decreases |calls|
  {
    if calls == [] then s else Run(h, cfg, Next(h, cfg, s, calls[0].0, calls[0].1), calls[1..])
  }

  ghost predicate FreshRun(h: TrustLedger.Hasher, cfg: Config, s: State, calls: seq<(Op, Stamp)>)
    requires s.ledger != []
    decreases |calls|
  {
    calls != [] ==>
      Fresh(s, calls[0].0) && FreshRun(h, cfg, Next(h, cfg, s, calls[0].0, calls[0].1), calls[1..])
  }

  function Init(genesis: TrustLedger.Entry): State { State(map[], [genesis], map[]) }

  // ------------------------------------------------------- replaying the ledger

  /** What an action says about the status of its agent. */
  function Effect(before: Option<Status>, action: string): Option<Status> {
    if action == "register" then Some(Pending)
    else if action == "activate" || action == "restore" then Some(Active)
    else if action == "suspend" then Some(Suspended)
    else if action == "deprecate" then Some(Deprecated)
    else if action == "revoke" then Some(Revoked)
    else before
  }

  /** Folds the entries that carry a URI. */
  function Replay(ledger: seq<TrustLedger.Entry>, uri: string): Option<Status> {
    if ledger == [] then None
    else
      var n := |ledger| - 1;
      var before := Replay(ledger[..n], uri);
      if ledger[n].agentURI == uri then Effect(before, ledger[n].action) else before
  }

  lemma ReplayLogged(
    h: TrustLedger.Hasher, ledger: seq<TrustLedger.Entry>, uri: string, entry: (string, string), stamp: Stamp,
    u: string)
    requires ledger != []
    ensures Replay(Logged(h, ledger, uri, entry, stamp), u) ==
            if u == uri then Effect(Replay(ledger, u), entry.0) else Replay(ledger, u)
  {
  }

  /** The logged action is what the statement does to the status; only a removal goes
      unlogged. */
  predicate Truthful(r: Row, p: Plan) {
    if p.entry.None? then p.st == Remove
    else p.st != Remove && Effect(Some(r.status), p.entry.value.0) == Some(Changed(p.st, r).status)
  }

  lemma PlansAreTruthful(cfg: Config, r: Row, op: Op)
    requires !op.Register? && PlanFor(cfg, r, op).Some?
    ensures Truthful(r, PlanFor(cfg, r, op).value)
  {
  }

  // ------------------------------------------------------- the invariant

  /** A row as registration builds it and every statement leaves it. */
  ghost predicate WellBuilt(r: Row) {
    && (exists cap :: r.capabilityNode == Capability.NormalizeCapability(cap))
    && Capability.ValidCapability(r.capabilityNode)
    && Uri.CleanID(r.agentID)
  }

  predicate EndsWith(uri: string, agentID: string) {
    |uri| > |agentID| && uri[|uri| - |agentID| - 1..] == "/" + agentID
  }

  /** What is remembered of a present agent is its row's URI and agent ID. */
  ghost predicate Identity(r: Row, k: Known) {
    k == Known(URI(r), r.agentID) && WellBuilt(r)
  }

  ghost predicate Identities(s: State) {
    forall id | id in s.table :: id in s.known && Identity(s.table[id], s.known[id])
  }

  ghost predicate KnownOk(known: map<Id, Known>) {
    && (forall i | i in known :: Uri.CleanID(known[i].agentID) && EndsWith(known[i].uri, known[i].agentID))
    && forall i, j | i in known && j in known && i != j :: known[i].agentID != known[j].agentID
  }

  /** No two agents, past or present, share a URI. */
  ghost predicate DistinctURIs(known: map<Id, Known>) {
    forall i, j | i in known && j in known && i != j :: known[i].uri != known[j].uri
  }

  /** The ledger replays to the table. */
  ghost predicate Synced(s: State) {
    forall id | id in s.table :: id in s.known && Replay(s.ledger, s.known[id].uri) == Some(s.table[id].status)
  }

  ghost predicate Inv(h: TrustLedger.Hasher, s: State) {
    TrustLedger.WellFormed(h, s.ledger) && KnownOk(s.known) && Identities(s) && Synced(s)
  }

  lemma URIEndsWith(r: Row)
    ensures EndsWith(URI(r), r.agentID)
  {
  }

  lemma SameURISameID(u: string, x: string, y: string)
    requires EndsWith(u, x) && EndsWith(u, y) && '/' !in x && '/' !in y
    ensures x == y
  {
    var (a, b) := (u[..|u| - |x| - 1], u[..|u| - |y| - 1]);
    assert u == a + "/" + x && u == b + "/" + y;
    CutUniqueRight(a, x, b, y, '/');
  }

  lemma KnownURIsDistinct(known: map<Id, Known>)
    requires KnownOk(known)
    ensures DistinctURIs(known)
  {
    forall i, j | i in known && j in known && i != j ensures known[i].uri != known[j].uri {
      if known[i].uri == known[j].uri {
        SameURISameID(known[i].uri, known[i].agentID, known[j].agentID);
      }
    }
  }

  lemma InsertKeepsSync(h: TrustLedger.Hasher, s: State, id: Id, r: Row, uri: string, stamp: Stamp)
    requires s.ledger != [] && Synced(s) && r.status == Pending
    requires id !in s.known && DistinctURIs(s.known[id := Known(uri, r.agentID)])
    ensures Synced(Inserted(h, s, id, r, uri, stamp))
  {
    var s' := Inserted(h, s, id, r, uri, stamp);
    forall i | i in s'.table ensures i in s'.known && Replay(s'.ledger, s'.known[i].uri) == Some(s'.table[i].status) {
      ReplayLogged(h, s.ledger, uri, ("register", Registrant(r)), stamp, s'.known[i].uri);
      if i != id { assert i in s.known && s'.known[i].uri != s'.known[id].uri; }
    }
  }

  lemma CallKeepsSync(h: TrustLedger.Hasher, s: State, id: Id, p: Plan, stamp: Stamp)
    requires s.ledger != [] && Synced(s) && DistinctURIs(s.known)
    requires id in s.table && id in s.known && Truthful(s.table[id], p)
    ensures Synced(Called(h, s, id, s.known[id].uri, p, stamp))
  {
    var uri := s.known[id].uri;
    var s' := Called(h, s, id, uri, p, stamp);
    forall i | i in s'.table ensures i in s'.known && Replay(s'.ledger, s'.known[i].uri) == Some(s'.table[i].status) {
      if p.entry.Some? { ReplayLogged(h, s.ledger, uri, p.entry.value, stamp, s.known[i].uri); }
    }
  }

  /** Statements never touch the columns a URI is made of. */
  lemma SameIdentitySameURI(r: Row, q: Row, k: Known)
    requires SameIdentity(r, q) && Identity(r, k)
    ensures Identity(q, k)
  {
  }

  lemma CallKeepsIdentities(h: TrustLedger.Hasher, s: State, id: Id, uri: string, p: Plan, stamp: Stamp)
    requires s.ledger != [] && Identities(s)
    ensures Identities(Called(h, s, id, uri, p, stamp))
  {
    if Affects(s.table, id, p.st) {
      SameIdentitySameURI(s.table[id], Changed(p.st, s.table[id]), s.known[id]);
    }
  }

  lemma LoggedKeepsChain(
    h: TrustLedger.Hasher, ledger: seq<TrustLedger.Entry>, uri: string, entry: (string, string), stamp: Stamp)
    requires TrustLedger.WellFormed(h, ledger)
    ensures TrustLedger.WellFormed(h, Logged(h, ledger, uri, entry, stamp))
  {
    TrustLedger.AppendKeepsChain(h, ledger, stamp.now, TrustLedger.Request(uri, entry.0, entry.1, Some(stamp.payload)));
  }

  lemma CallKeepsInv(h: TrustLedger.Hasher, s: State, id: Id, p: Plan, stamp: Stamp)
    requires Inv(h, s) && id in s.table && Truthful(s.table[id], p)
    ensures Inv(h, Called(h, s, id, URI(s.table[id]), p, stamp))
  {
    assert Identity(s.table[id], s.known[id]);
    var uri := s.known[id].uri;
    KnownURIsDistinct(s.known);
    CallKeepsSync(h, s, id, p, stamp);
    CallKeepsIdentities(h, s, id, uri, p, stamp);
    if p.entry.Some? { LoggedKeepsChain(h, s.ledger, uri, p.entry.value, stamp); }
  }

  lemma NewRowIsOk(cfg: Config, req: RegisterRequest, agentID: string)
    requires Uri.CleanID(agentID) && NewRow(cfg, req, agentID).Some?
    ensures var r := NewRow(cfg, req, agentID).value;
            WellBuilt(r) && r.status == Pending && r.agentID == agentID
  {
  }

  lemma KnownExtended(known: map<Id, Known>, id: Id, uri: string, agentID: string)
    requires KnownOk(known) && id !in known && Uri.CleanID(agentID) && EndsWith(uri, agentID)
    requires forall i | i in known :: known[i].agentID != agentID
    ensures KnownOk(known[id := Known(uri, agentID)])
  {
  }

  lemma InsertKeepsIdentities(h: TrustLedger.Hasher, s: State, id: Id, r: Row, stamp: Stamp)
    requires s.ledger != [] && Identities(s) && WellBuilt(r) && id !in s.known
    ensures Identities(Inserted(h, s, id, r, URI(r), stamp))
  {
  }

  lemma InsertKeepsInv(h: TrustLedger.Hasher, s: State, id: Id, r: Row, stamp: Stamp)
    requires Inv(h, s) && WellBuilt(r) && r.status == Pending
    requires id !in s.known && forall i | i in s.known :: s.known[i].agentID != r.agentID
    ensures Inv(h, Inserted(h, s, id, r, URI(r), stamp))
  {
    var uri := URI(r);
    var s' := Inserted(h, s, id, r, uri, stamp);
    URIEndsWith(r);
    KnownExtended(s.known, id, uri, r.agentID);
    KnownURIsDistinct(s'.known);
    InsertKeepsSync(h, s, id, r, uri, stamp);
    InsertKeepsIdentities(h, s, id, r, stamp);
    LoggedKeepsChain(h, s.ledger, uri, ("register", Registrant(r)), stamp);
  }

  /** The agents known before are known with the same URI afterwards. */
  ghost predicate Remembers(s: State, s': State) {
    forall i | i in s.known :: i in s'.known && s'.known[i] == s.known[i]
  }

  lemma RegisterKeepsInv(h: TrustLedger.Hasher, cfg: Config, s: State, op: Op, stamp: Stamp)
    requires Inv(h, s) && Fresh(s, op) && op.Register? && NewRow(cfg, op.req, op.agentID).Some?
    ensures var r := NewRow(cfg, op.req, op.agentID).value; Inv(h, Inserted(h, s, op.id, r, URI(r), stamp))
  {
    NewRowIsOk(cfg, op.req, op.agentID);
    InsertKeepsInv(h, s, op.id, NewRow(cfg, op.req, op.agentID).value, stamp);
  }

  lemma NextIs(h: TrustLedger.Hasher, cfg: Config, s: State, op: Op, stamp: Stamp)
    requires s.ledger != [] && Next(h, cfg, s, op, stamp) != s
    ensures if op.Register? then
              && NewRow(cfg, op.req, op.agentID).Some? && op.id !in s.table
              && var r := NewRow(cfg, op.req, op.agentID).value;
              Next(h, cfg, s, op, stamp) == Inserted(h, s, op.id, r, URI(r), stamp)
            else
              && op.id in s.table && PlanFor(cfg, s.table[op.id], op).Some?
              && Next(h, cfg, s, op, stamp) ==
                 Called(h, s, op.id, URI(s.table[op.id]), PlanFor(cfg, s.table[op.id], op).value, stamp)
  {
  }

  lemma NextKeepsInv(h: TrustLedger.Hasher, cfg: Config, s: State, op: Op, stamp: Stamp)
    requires Inv(h, s) && Fresh(s, op)
    ensures Inv(h, Next(h, cfg, s, op, stamp)) && Remembers(s, Next(h, cfg, s, op, stamp))
  {
    if Next(h, cfg, s, op, stamp) != s {
      NextIs(h, cfg, s, op, stamp);
      if op.Register? {
        RegisterKeepsInv(h, cfg, s, op, stamp);
      } else {
        PlansAreTruthful(cfg, s.table[op.id], op);
        CallKeepsInv(h, s, op.id, PlanFor(cfg, s.table[op.id], op).value, stamp);
      }
    }
  }

  lemma {:induction false} RunKeepsInv(h: TrustLedger.Hasher, cfg: Config, s: State, calls: seq<(Op, Stamp)>)
    requires Inv(h, s) && FreshRun(h, cfg, s, calls)
    ensures Inv(h, Run(h, cfg, s, calls)) && Remembers(s, Run(h, cfg, s, calls))
    decreases |calls|
  {
    if calls != [] {
      NextKeepsInv(h, cfg, s, calls[0].0, calls[0].1);
      RunKeepsInv(h, cfg, Next(h, cfg, s, calls[0].0, calls[0].1), calls[1..]);
    }
  }

  // ------------------------------------------------------- whole-run results

  /** The ledger replays to the table. In every run of calls executed one at a time: folding
      the entries that carry a present agent's URI gives exactly its status, the ledger
      verifies, and no other agent ever had that URI. */
  lemma ReplayEqualsTable(h: TrustLedger.Hasher, cfg: Config, genesis: TrustLedger.Entry, calls: seq<(Op, Stamp)>)
    requires TrustLedger.IsGenesis(genesis) && FreshRun(h, cfg, Init(genesis), calls)
    ensures var s := Run(h, cfg, Init(genesis), calls);
            && TrustLedger.Verifies(h, s.ledger)
            && (forall id | id in s.table :: Replay(s.ledger, URI(s.table[id])) == Some(s.table[id].status))
            && (forall id, i | id in s.table && i in s.known && i != id :: s.known[i].uri != URI(s.table[id]))
  {
    RunKeepsInv(h, cfg, Init(genesis), calls);
    var s := Run(h, cfg, Init(genesis), calls);
    KnownURIsDistinct(s.known);
    forall id | id in s.table ensures s.known[id].uri == URI(s.table[id]) {
      assert Identity(s.table[id], s.known[id]);
    }
  }

  /** The URI of an agent is the same in all states it is present in. */
  lemma URINeverChanges(h: TrustLedger.Hasher, cfg: Config, s: State, calls: seq<(Op, Stamp)>, id: Id)
    requires Inv(h, s) && FreshRun(h, cfg, s, calls)
    requires id in s.table && id in Run(h, cfg, s, calls).table
    ensures URI(Run(h, cfg, s, calls).table[id]) == URI(s.table[id])
  {
    RunKeepsInv(h, cfg, s, calls);
    var s' := Run(h, cfg, s, calls);
    assert Identity(s.table[id], s.known[id]) && Identity(s'.table[id], s'.known[id]);
  }

  // ------------------------------------------------------- resolution

  datatype Resolution = Found(id: Id) | NotActive(status: Status) | NoSuchAgent

  /** What a local Resolve may answer: it looks a row up by trust root, normalized category
      and agent ID, and hands out only active and deprecated agents. */
  ghost predicate Resolves(t: Table, trustRoot: string, capNode: string, agentID: string, res: Resolution) {
    var cap := Capability.NormalizeCapability(capNode);
    if forall i | i in t :: !MatchesURI(t[i], trustRoot, cap, agentID) then res == NoSuchAgent
    else exists i | i in t :: MatchesURI(t[i], trustRoot, cap, agentID) && res == Answer(t, i)
  }

  function Answer(t: Table, i: Id): Resolution
    requires i in t
  {
    if t[i].status == Active || t[i].status == Deprecated then Found(i) else NotActive(t[i].status)
  }

  /** A row that a request asks for, in plain terms. */
  predicate Denotes(r: Row, trustRoot: string, cap: string, agentID: string) {
    r.trustRoot == trustRoot && r.agentID == agentID && AtOrBelow(r.capabilityNode, cap)
  }

  /** Every request, not only that for a printed URI: what may be answered, for a category
      without % and \. An agent found is one that the request denotes, and is active or
      deprecated; a refusal names the status of another such agent; and nothing is found only
      when there is no such agent. */
  lemma ResolvesIff(t: Table, trustRoot: string, capNode: string, agentID: string, res: Resolution)
    requires var cap := Capability.NormalizeCapability(capNode); '%' !in cap && '\\' !in cap
    ensures var cap := Capability.NormalizeCapability(capNode);
            Resolves(t, trustRoot, capNode, agentID, res) <==>
            match res
            case Found(i) => i in t && Denotes(t[i], trustRoot, cap, agentID) && t[i].status in {Active, Deprecated}
            case NotActive(st) =>
              st !in {Active, Deprecated}
              && exists i | i in t :: Denotes(t[i], trustRoot, cap, agentID) && t[i].status == st
            case NoSuchAgent => forall i | i in t :: !Denotes(t[i], trustRoot, cap, agentID)
  {
    var cap := Capability.NormalizeCapability(capNode);
    forall i | i in t ensures MatchesURI(t[i], trustRoot, cap, agentID) <==> Denotes(t[i], trustRoot, cap, agentID) {
      MatchesIff(t[i], trustRoot, cap, agentID);
    }
  }

  /** The components a row's URI is printed from. */
  function Components(r: Row): Uri.URI {
    Uri.URI(r.trustRoot, Capability.TopLevelCategory(r.capabilityNode), r.primarySkill, r.agentID)
  }

  lemma URIIsPrinted(r: Row)
    ensures URI(r) == Uri.Print(Components(r))
  {
  }

  lemma CategoryOfRow(r: Row)
    requires WellBuilt(r)
    ensures var category := Capability.TopLevelCategory(r.capabilityNode);
            Uri.CleanCategory(category) && Capability.NormalizeCapability(category) == category
            && forall c | c in category :: Capability.IsSlugRune(c)
  {
    var cap :| r.capabilityNode == Capability.NormalizeCapability(cap);
    Capability.CategoryIsFixedPoint(cap);
    SlugIsClean(Capability.TopLevelCategory(r.capabilityNode));
  }

  lemma SlugIsClean(s: string)
    requires s != "" && forall c | c in s :: Capability.IsSlugRune(c)
    ensures Uri.CleanCategory(s)
  {
    forall k | 0 <= k < |s| ensures Uri.PathChar(s[k]) {
      assert s[k] in s;
    }
  }

  lemma OnlyOwnRowMatches(h: TrustLedger.Hasher, s: State, id: Id, capNode: string)
    requires Inv(h, s) && id in s.table
    ensures forall i | i in s.table && MatchesURI(s.table[i], s.table[id].trustRoot, capNode, s.table[id].agentID) ::
              i == id
  {
    forall i | i in s.table && MatchesURI(s.table[i], s.table[id].trustRoot, capNode, s.table[id].agentID)
      ensures i == id
    {
      assert Identity(s.table[i], s.known[i]) && Identity(s.table[id], s.known[id]);
    }
  }

  lemma RowParsesBack(r: Row)
    requires WellBuilt(r) && Uri.CleanOrg(r.trustRoot) && Uri.PathText(r.primarySkill)
    ensures '%' !in URI(r) && Uri.Parse(URI(r)).Ok?
    ensures var u := Uri.Parse(URI(r)).uri;
            u.orgName == r.trustRoot && u.category == Capability.TopLevelCategory(r.capabilityNode)
                && u.agentID == r.agentID
  {
    CategoryOfRow(r);
    URIIsPrinted(r);
    Uri.AnySkillParsesBack(Components(r));
  }

  lemma OwnCategoryResolves(t: Table, id: Id, res: Resolution)
    requires id in t && WellBuilt(t[id])
    requires forall i | i in t
               && MatchesURI(t[i], t[id].trustRoot, Capability.TopLevelCategory(t[id].capabilityNode), t[id].agentID) ::
               i == id
    ensures Resolves(t, t[id].trustRoot, Capability.TopLevelCategory(t[id].capabilityNode), t[id].agentID, res) <==>
            res == Answer(t, id)
  {
    CategoryOfRow(t[id]);
    MatchesOwnCategory(t[id]);
  }

  /** Resolution end to end. In every reachable state, the printed URI of every present
      agent with a clean trust root and a skill without '?', '#' and control characters
      parses, and resolving what it parses to returns that very agent exactly when it is
      active or deprecated, whatever other rows there are. */
  lemma PrintedURIResolves(h: TrustLedger.Hasher, s: State, id: Id, res: Resolution)
    requires Inv(h, s) && id in s.table
    requires Uri.CleanOrg(s.table[id].trustRoot) && Uri.PathText(s.table[id].primarySkill)
    ensures '%' !in URI(s.table[id]) && Uri.Parse(URI(s.table[id])).Ok?
    ensures var u := Uri.Parse(URI(s.table[id])).uri;
            var status := s.table[id].status;
            Resolves(s.table, u.orgName, u.category, u.agentID, res) <==>
            if status in {Active, Deprecated} then res == Found(id) else res == NotActive(status)
  {
    var r := s.table[id];
    assert Identity(r, s.known[id]);
    RowParsesBack(r);
    OnlyOwnRowMatches(h, s, id, Capability.TopLevelCategory(r.capabilityNode));
    OwnCategoryResolves(s.table, id, res);
  }

  /** The exact condition on the columns registration takes from its caller: the URIs printed
      for a trust root and skill are parsed back whatever agent ID is generated if and only
      if the trust root is a clean host and the skill has no '?', '#' or control character. */
  lemma RegistrableIff(r: Row)
    requires WellBuilt(r) && '%' !in r.trustRoot && '%' !in r.primarySkill
    ensures Uri.AlwaysParsesBack(r.trustRoot, Capability.TopLevelCategory(r.capabilityNode), r.primarySkill)
            <==> Uri.CleanOrg(r.trustRoot) && Uri.PathText(r.primarySkill)
  {
    CategoryOfRow(r);
    Uri.ParsesBackIff(r.trustRoot, Capability.TopLevelCategory(r.capabilityNode), r.primarySkill);
  }

  // ------------------------------------------------------- quota

  /** No user owns more than the limit of non-revoked hosted agents. */
  ghost predicate QuotaHolds(cfg: Config, t: Table) {
    forall u :: WithinQuota(cfg, t, u)
  }

  ghost predicate WithinQuota(cfg: Config, t: Table, u: UserId) { |Hosted(t, u)| <= cfg.maxAgents }

  /** Activating a revoked hosted agent of a user who is at the limit. */
  ghost predicate Overflows(cfg: Config, t: Table, op: Op) {
    && op.Activate? && op.id in t && PlanFor(cfg, t[op.id], op).Some?
    && t[op.id].status == Revoked && t[op.id].registrationType == NapHosted && t[op.id].owner.Some?
    && |Hosted(t, t[op.id].owner.value)| == cfg.maxAgents
  }

  lemma SubsetCard<T>(a: set<T>, b: set<T>)
    requires a <= b
    ensures |a| <= |b|
  {
    if a != b {
      assert b == a + (b - a);
    }
  }

  /** An existing row rewritten: its owner's count moves only when the row enters or leaves
      the non-revoked state. */
  lemma HostedAfterExec(t: Table, id: Id, st: Statement, u: UserId)
    requires Affects(t, id, st) && st != Remove
    ensures var (before, after) := (Hosted(t, u), Hosted(Exec(t, id, st), u));
            var mine := t[id].owner == Some(u) && t[id].registrationType == NapHosted;
            && (after == if !mine || Changed(st, t[id]).status == Revoked then before - {id} else before + {id})
            && (id in before <==> mine && t[id].status != Revoked)
  {
  }

  lemma HostedAfterInsert(t: Table, id: Id, r: Row, u: UserId)
    requires id !in t
    ensures Hosted(t[id := r], u) ==
            if r.owner == Some(u) && r.registrationType == NapHosted && r.status != Revoked
            then Hosted(t, u) + {id} else Hosted(t, u)
  {
  }

  lemma QuotaAfterRegister(cfg: Config, t: Table, id: Id, r: Row)
    requires cfg.maxAgents > 0 && QuotaHolds(cfg, t) && id !in t
    requires r.registrationType == NapHosted && r.owner.Some? ==> |Owned(t, r.owner.value)| < cfg.maxAgents
    ensures QuotaHolds(cfg, t[id := r])
  {
    var t' := t[id := r];
    forall u ensures WithinQuota(cfg, t', u) {
      assert WithinQuota(cfg, t, u);
      SubsetCard(Hosted(t, u), Owned(t, u));
      HostedAfterInsert(t, id, r, u);
    }
  }

  /** The statement takes a hosted row of a user at the limit out of the revoked state. */
  ghost predicate Exceeds(cfg: Config, t: Table, id: Id, st: Statement, u: UserId) {
    && Affects(t, id, st) && st != Remove && t[id].status == Revoked && Changed(st, t[id]).status != Revoked
    && t[id].registrationType == NapHosted && t[id].owner == Some(u) && |Hosted(t, u)| == cfg.maxAgents
  }

  lemma CountAfterExec(cfg: Config, t: Table, id: Id, st: Statement, u: UserId)
    requires WithinQuota(cfg, t, u)
    ensures WithinQuota(cfg, Exec(t, id, st), u) <==> !Exceeds(cfg, t, id, st, u)
  {
    if Affects(t, id, st) {
      if st == Remove {
        SubsetCard(Hosted(Exec(t, id, st), u), Hosted(t, u));
      } else {
        HostedAfterExec(t, id, st, u);
        SubsetCard(Hosted(t, u) - {id}, Hosted(t, u));
      }
    }
  }

  lemma QuotaAfterExec(cfg: Config, t: Table, id: Id, st: Statement)
    requires QuotaHolds(cfg, t)
    ensures QuotaHolds(cfg, Exec(t, id, st)) <==> forall u :: !Exceeds(cfg, t, id, st, u)
  {
    var t' := Exec(t, id, st);
    forall u ensures WithinQuota(cfg, t', u) <==> !Exceeds(cfg, t, id, st, u) {
      assert WithinQuota(cfg, t, u);
      CountAfterExec(cfg, t, id, st, u);
    }
  }

  /** Activation is the only call that takes a row out of the revoked state. */
  lemma OnlyActivateRevives(cfg: Config, r: Row, op: Op)
    requires !op.Register? && PlanFor(cfg, r, op).Some? && r.status == Revoked
    ensures var st := PlanFor(cfg, r, op).value.st;
            Guard(st, r) && st != Remove && Changed(st, r).status != Revoked <==> op.Activate?
  {
  }

  lemma OverflowsIff(cfg: Config, t: Table, op: Op)
    requires !op.Register? && op.id in t && PlanFor(cfg, t[op.id], op).Some?
    ensures Overflows(cfg, t, op) <==> exists u :: Exceeds(cfg, t, op.id, PlanFor(cfg, t[op.id], op).value.st, u)
  {
    var r := t[op.id];
    if r.status == Revoked {
      OnlyActivateRevives(cfg, r, op);
      if Overflows(cfg, t, op) { assert Exceeds(cfg, t, op.id, PlanFor(cfg, r, op).value.st, r.owner.value); }
    }
  }

  /** The quota, call by call, exactly: with a limit set, a call keeps every user within it
      unless it activates a revoked hosted agent of a user already at the limit. */
  lemma QuotaKeptIff(h: TrustLedger.Hasher, cfg: Config, s: State, op: Op, stamp: Stamp)
    requires cfg.maxAgents > 0 && s.ledger != [] && QuotaHolds(cfg, s.table)
    ensures QuotaHolds(cfg, Next(h, cfg, s, op, stamp).table) <==> !Overflows(cfg, s.table, op)
  {
    if op.Register? {
      if Next(h, cfg, s, op, stamp) != s {
        QuotaAfterRegister(cfg, s.table, op.id, NewRow(cfg, op.req, op.agentID).value);
      }
    } else if op.id in s.table && PlanFor(cfg, s.table[op.id], op).Some? {
      QuotaAfterExec(cfg, s.table, op.id, PlanFor(cfg, s.table[op.id], op).value.st);
      OverflowsIff(cfg, s.table, op);
    }
  }

  /** Every activation in the run finds its agent in a state other than revoked, as the
      comment on Activate intends. */
  ghost predicate NoReactivation(h: TrustLedger.Hasher, cfg: Config, s: State, calls: seq<(Op, Stamp)>)
    requires s.ledger != []
    decreases |calls|
  {
    calls != [] ==>
      && (calls[0].0.Activate? && calls[0].0.id in s.table ==> s.table[calls[0].0.id].status != Revoked)
      && NoReactivation(h, cfg, Next(h, cfg, s, calls[0].0, calls[0].1), calls[1..])
  }

  /** The quota over whole runs. */
  lemma {:induction false} QuotaOverRuns(h: TrustLedger.Hasher, cfg: Config, s: State, calls: seq<(Op, Stamp)>)
    requires cfg.maxAgents > 0 && s.ledger != [] && QuotaHolds(cfg, s.table) && NoReactivation(h, cfg, s, calls)
    ensures QuotaHolds(cfg, Run(h, cfg, s, calls).table)
    decreases |calls|
  {
    if calls != [] {
      QuotaKeptIff(h, cfg, s, calls[0].0, calls[0].1);
      QuotaOverRuns(h, cfg, Next(h, cfg, s, calls[0].0, calls[0].1), calls[1..]);
    }
  }

  // ------------------------------------------------------- a run that exceeds the quota

  /** A hosted registration of user 0. */
  const HOSTED: RegisterRequest :=
    RegisterRequest("a", "", "", Profile("", "", "", "", ""), "", "", Some(0), NapHosted, "user", [])

  const ONE_AGENT: Config := Config(false, "nap", 1)

  function HostedRow(agentID: string, status: Status): Row {
    Row("nap", "a", agentID, "", "", Some(0), NapHosted, status, "", "", Profile("", "", "", "", ""), "", None, None,
        None, "")
  }

  lemma SlugIsValid(cap: string)
    requires cap != "" && Capability.ByteLen(cap) <= 100 && Capability.NoUpper(cap)
    requires forall c | c in cap :: Capability.IsSlugRune(c)
    ensures Capability.NormalizeCapability(cap) == cap && Capability.ValidCapability(cap)
  {
    Capability.SlugTrims(cap);
    Capability.NormalizeFixes(cap);
    assert Split(cap, '>') == [cap];
  }

  lemma HostedIsAccepted(agentID: string)
    ensures NewRow(ONE_AGENT, HOSTED, agentID) == Some(HostedRow(agentID, Pending))
  {
    assert "a"[1..] == "" && Capability.ByteLen("a") == 1;
    SlugIsValid("a");
  }

  const TWO_AGENTS: seq<Op> :=
    [Register(1, "agent_a", HOSTED), Revoke(1, ""), Register(2, "agent_b", HOSTED), Activate(1, true, None)]

  /** The table after the first n of these calls. */
  function TableAfter(n: nat): Table
    requires n <= 4
  {
    var (a, b) := (HostedRow("agent_a", if n < 2 then Pending else if n < 4 then Revoked else Active),
        HostedRow("agent_b", Pending));
    if n == 0 then map[] else if n < 3 then map[1 := a] else map[1 := a, 2 := b]
  }

  /** The state after the first n calls, up to ledger contents. */
  predicate At(s: State, n: nat) {
    && n <= 4 && s.ledger != [] && s.table == TableAfter(n)
    && s.known.Keys == (if n == 0 then {} else if n < 3 then {1} else {1, 2})
    && (1 in s.known ==> s.known[1].agentID == "agent_a")
  }

  lemma OwnedAfter(n: nat)
    requires n <= 4
    ensures Owned(TableAfter(n), 0) == Hosted(TableAfter(n), 0)
            == if n == 0 || n == 2 then {} else if n == 1 then {1} else if n == 3 then {2} else {1, 2}
  {
  }

  lemma CleanAgentIDs()
    ensures Uri.CleanID("agent_a") && Uri.CleanID("agent_b")
  {
    assert "agent_a"[..6] == "agent_" && "agent_b"[..6] == "agent_";
  }

  lemma RegisterGoes(h: TrustLedger.Hasher, s: State, id: Id, agentID: string, stamp: Stamp)
    requires s.ledger != [] && Owned(s.table, 0) == {} && Insertable(s.table, id, HostedRow(agentID, Pending))
    ensures var (r, s') := (HostedRow(agentID, Pending), Next(h, ONE_AGENT, s, Register(id, agentID, HOSTED), stamp));
            s' == Inserted(h, s, id, r, URI(r), stamp)
  {
    HostedIsAccepted(agentID);
    assert !QuotaReached(ONE_AGENT, s.table, HOSTED);
  }

  lemma FirstStep(h: TrustLedger.Hasher, s: State, stamp: Stamp)
    requires At(s, 0)
    ensures Fresh(s, TWO_AGENTS[0]) && At(Next(h, ONE_AGENT, s, TWO_AGENTS[0], stamp), 1)
  {
    CleanAgentIDs();
    RegisterGoes(h, s, 1, "agent_a", stamp);
  }

  lemma SecondStep(h: TrustLedger.Hasher, s: State, stamp: Stamp)
    requires At(s, 1)
    ensures At(Next(h, ONE_AGENT, s, TWO_AGENTS[1], stamp), 2)
  {
    var (op, r) := (TWO_AGENTS[1], HostedRow("agent_a", Pending));
    assert PlanFor(ONE_AGENT, r, op) == Some(Plan(SetStatus(Revoked), Some(("revoke", SYSTEM))));
    assert Changed(SetStatus(Revoked), r) == HostedRow("agent_a", Revoked);
  }

  lemma ThirdStep(h: TrustLedger.Hasher, s: State, stamp: Stamp)
    requires At(s, 2)
    ensures Fresh(s, TWO_AGENTS[2]) && At(Next(h, ONE_AGENT, s, TWO_AGENTS[2], stamp), 3)
  {
    CleanAgentIDs();
    OwnedAfter(2);
    RegisterGoes(h, s, 2, "agent_b", stamp);
  }

  lemma FourthStep(h: TrustLedger.Hasher, s: State, stamp: Stamp)
    requires At(s, 3)
    ensures At(Next(h, ONE_AGENT, s, TWO_AGENTS[3], stamp), 4)
  {
    var (op, r) := (TWO_AGENTS[3], HostedRow("agent_a", Revoked));
    assert PlanFor(ONE_AGENT, r, op) == Some(Plan(SetStatus(Active), Some(("activate", SYSTEM))));
    assert Changed(SetStatus(Active), r) == HostedRow("agent_a", Active);
  }

  lemma StepAt(h: TrustLedger.Hasher, s: State, n: nat, stamp: Stamp)
    requires n < 4 && At(s, n)
    ensures Fresh(s, TWO_AGENTS[n]) && At(Next(h, ONE_AGENT, s, TWO_AGENTS[n], stamp), n + 1)
  {
    if n == 0 { FirstStep(h, s, stamp); }
    if n == 1 { SecondStep(h, s, stamp); }
    if n == 2 { ThirdStep(h, s, stamp); }
    if n == 3 { FourthStep(h, s, stamp); }
  }

  /** The quota can be exceeded: with a limit of one agent, register a, revoke a, register b
      and activate a leaves user 0 with two. */
  lemma QuotaCanBeExceeded(h: TrustLedger.Hasher, genesis: TrustLedger.Entry, stamp: Stamp)
    returns (calls: seq<(Op, Stamp)>)
    ensures FreshRun(h, ONE_AGENT, Init(genesis), calls)
    ensures Hosted(Run(h, ONE_AGENT, Init(genesis), calls).table, 0) == {1, 2}
    ensures !QuotaHolds(ONE_AGENT, Run(h, ONE_AGENT, Init(genesis), calls).table)
  {
    calls := RunAt(h, Init(genesis), 0, stamp);
    OwnedAfter(4);
    assert !WithinQuota(ONE_AGENT, TableAfter(4), 0);
  }

  lemma {:induction false} RunAt(h: TrustLedger.Hasher, s: State, n: nat, stamp: Stamp)
    returns (calls: seq<(Op, Stamp)>)
    requires At(s, n)
    ensures FreshRun(h, ONE_AGENT, s, calls) && Run(h, ONE_AGENT, s, calls).table == TableAfter(4)
    decreases 4 - n
  {
    calls := [];
    if n < 4 {
      StepAt(h, s, n, stamp);
      var rest := RunAt(h, Next(h, ONE_AGENT, s, TWO_AGENTS[n], stamp), n + 1, stamp);
      calls := [(TWO_AGENTS[n], stamp)] + rest;
      assert calls[1..] == rest;
    }
  }
}
