/** The agent service as an object over the repository and the ledger. Every method carries
    out exactly the transition that the Registry state machine gives for it. */
module AgentService {
  import opened Strings
  import opened AgentTable
  import opened Registry
  import Capability
  import TrustLedger

  class Service {
    const repo: AgentRepository
    const ledger: TrustLedger.MemoryLedger
    const cfg: Config
    ghost var known: map<Id, Known>

    ghost predicate Valid() reads this, ledger { ledger.Valid() }

    /** Entries are as before, with one more that has this URI, action and actor, and the
        reading and the payload of the stamp. */
    twostate predicate Recorded(uri: string, action: string, actor: string, stamp: Stamp)
      requires old(ledger.entries) != []
      reads ledger
    {
      var (before, after) := (old(ledger.entries), ledger.entries);
      && |after| == |before| + 1 && after[..|before|] == before
      && var e := after[|before|];
         && e.agentURI == uri && e.action == action && e.actor == actor
         && e.timestamp == stamp.now && e.dataHash == ledger.sha(stamp.payload)
         && e.prevHash == before[|before| - 1].hash
    }

    ghost function View(): State reads this, repo, ledger { State(repo.rows, ledger.entries, known) }

    constructor (repo: AgentRepository, ledger: TrustLedger.MemoryLedger, cfg: Config)
      requires ledger.Valid() && repo.rows == map[] && |ledger.entries| == 1
      ensures Valid() && this.repo == repo && this.ledger == ledger && this.cfg == cfg
      ensures View() == Init(ledger.entries[0])
    {
      this.repo := repo;
      this.ledger := ledger;
      this.cfg := cfg;
      known := map[];
    }

    /** appendLedger: the payload is a string map, which always marshals. */
    method AppendLedger(uri: string, action: string, actor: string, stamp: Stamp)
      requires Valid()
      modifies ledger
      ensures Valid() && ledger.entries == Logged(ledger.sha, old(ledger.entries), uri, (action, actor), stamp)
      ensures Recorded(uri, action, actor, stamp)
    {
      TrustLedger.AppendedEntry(ledger.sha, ledger.entries, stamp.now,
        TrustLedger.Request(uri, action, actor, Some(stamp.payload)));
      var _ := ledger.Append(stamp.now, TrustLedger.Request(uri, action, actor, Some(stamp.payload)));
    }

    /** Validates a request and lays out the pending row for it. */
    method BuildRow(req: RegisterRequest, agentID: string) returns (row: Option<Row>)
      ensures row == NewRow(cfg, req, agentID)
    {
      var cap := Capability.NormalizeCapability(req.capability);
      if cap == "" { cap := Capability.NormalizeCapability(req.category); }
      if cap == "" { cap := Capability.NormalizeCapability(req.capabilityNode); }
      var skill := Capability.DerivePrimarySkill(req.skillIDs, cap);
      if req.registrationType == NapHosted {
        if req.owner.None? || req.username == "" || cap == "" || !Capability.ValidCapability(cap) { return None; }
        return Some(Row(cfg.trustRoot, cap, agentID, skill, "", req.owner, NapHosted, Pending, "", req.publicKeyPEM,
                        req.profile, "", None, None, None, ""));
      } else {
        var ownerDomain := ToLower(TrimSpace(req.ownerDomain));
        if ownerDomain == "" || cap == "" || req.profile.endpoint == ""
            || !Capability.ValidCapability(cap) { return None; }
        return Some(Row(ownerDomain, cap, agentID, skill, req.ownerDomain, req.owner, Domain, Pending, "",
            req.publicKeyPEM,
                        req.profile, "", None, None, None, ""));
      }
    }

    method StoreNew(id: Id, r: Row, stamp: Stamp) returns (ok: bool)
      requires Valid()
      modifies this, repo, ledger
      ensures Valid() && ok == Insertable(old(repo.rows), id, r)
      ensures View() == if ok then Inserted(ledger.sha, old(View()), id, r, URI(r), stamp) else old(View())
      ensures ok ==> Recorded(URI(r), "register", Registrant(r), stamp)
    {
      ok := repo.Create(id, r);
      if ok {
        AppendLedger(URI(r), "register", Registrant(r), stamp);
        known := known[id := Known(URI(r), r.agentID)];
      }
    }

    /** A hosted registration of a user who has as many agents that are not revoked as the
        limit, when there is one. */
    ghost predicate AtLimit(rows: Table, req: RegisterRequest) {
      && req.registrationType == NapHosted && req.owner.Some? && cfg.maxAgents > 0
      && cfg.maxAgents <= |set i | i in rows && rows[i].owner == req.owner && rows[i].status != Revoked|
    }

    /** Registers a pending agent under a freshly generated ID and row key. */
    method RegisterAgent(id: Id, agentID: string, req: RegisterRequest, stamp: Stamp) returns (ok: bool)
      requires Valid()
      modifies this, repo, ledger
      ensures Valid() && View() == Next(ledger.sha, cfg, old(View()), Register(id, agentID, req), stamp)
      ensures ok <==> NewRow(cfg, req, agentID).Some? && !AtLimit(old(repo.rows), req)
                      && Insertable(old(repo.rows), id, NewRow(cfg, req, agentID).value)
      ensures ok ==> NewRow(cfg, req, agentID).Some?
                     && repo.rows == old(repo.rows)[id := NewRow(cfg, req, agentID).value]
      ensures ok ==> Recorded(URI(repo.rows[id]), "register",
                if req.registrationType == Domain then req.ownerDomain else Decimal(req.owner.value), stamp)
      ensures !ok ==> repo.rows == old(repo.rows) && ledger.entries == old(ledger.entries)
    {
      var row := BuildRow(req, agentID);
      if row.None? { return false; }
      if req.owner.Some? { OwnedSet(repo.rows, req); }
      RegistrantIs(cfg, req, agentID);
      if req.registrationType == NapHosted && req.owner.Some? && cfg.maxAgents > 0 {
        var count := repo.CountByOwner(req.owner.value);
        if count >= cfg.maxAgents { return false; }
      }
      ok := StoreNew(id, row.value, stamp);
    }

    method UpdateAgent(id: Id, p: Profile, key: string, stamp: Stamp) returns (ok: bool)
      requires Valid()
      modifies repo, ledger
      ensures Valid() && View() == Next(ledger.sha, cfg, old(View()), Update(id, p, key), stamp)
      ensures ok == (id in old(repo.rows))
      ensures ok ==> Recorded(URI(old(repo.rows)[id]), "update", old(repo.rows)[id].ownerDomain, stamp)
      ensures !ok ==> repo.rows == old(repo.rows) && ledger.entries == old(ledger.entries)
      ensures ok ==> repo.rows == old(repo.rows)[id := old(repo.rows)[id].(
                  profile := repo.rows[id].profile,
                  publicKeyPEM := if key != "" then key else old(repo.rows)[id].publicKeyPEM)]
      ensures ok ==> var (q, r) := (repo.rows[id].profile, old(repo.rows)[id].profile);
                && q.displayName == (if p.displayName != "" then p.displayName else r.displayName)
                && q.description == (if p.description != "" then p.description else r.description)
                && q.endpoint == (if p.endpoint != "" then p.endpoint else r.endpoint)
                && q.version == (if p.version != "" then p.version else r.version)
                && q.supportURL == (if p.supportURL != "" then p.supportURL else r.supportURL)
    {
      var agent := repo.GetByID(id);
      if agent.None? { return false; }
      var r := agent.value;
      ok := repo.ExecStatement(id, SetProfile(Merged(r.profile, p), if key != "" then key else r.publicKeyPEM));
      AppendLedger(URI(r), "update", r.ownerDomain, stamp);
    }

    /** There is no check on the current status: any existing agent that passes the gate
        becomes active. */
    method ActivateAgent(id: Id, gate: bool, cert: Option<(string, string)>, stamp: Stamp) returns (ok: bool)
      requires Valid()
      modifies repo, ledger
      ensures Valid() && View() == Next(ledger.sha, cfg, old(View()), Activate(id, gate, cert), stamp)
      ensures ok == (id in old(repo.rows) && gate && (cfg.hasIssuer ==> cert.Some?))
      ensures ok ==> Recorded(URI(old(repo.rows)[id]), "activate", "nexus-system", stamp)
      ensures !ok ==> repo.rows == old(repo.rows) && ledger.entries == old(ledger.entries)
      ensures ok ==> repo.rows == old(repo.rows)[id := old(repo.rows)[id].(
                  status := Active,
                  certSerial := if cfg.hasIssuer then cert.value.0 else old(repo.rows)[id].certSerial,
                  publicKeyPEM := if cfg.hasIssuer then cert.value.1 else old(repo.rows)[id].publicKeyPEM)]
    {
      var agent := repo.GetByID(id);
      if agent.None? || !gate { return false; }
      if cfg.hasIssuer {
        if cert.None? { return false; }
        ok := repo.ExecStatement(id, SetActiveWithCert(cert.value.0, cert.value.1));
      } else {
        ok := repo.ExecStatement(id, SetStatus(Active));
      }
      AppendLedger(URI(agent.value), "activate", SYSTEM, stamp);
    }

    method RevokeAgent(id: Id, reason: string, stamp: Stamp) returns (ok: bool)
      requires Valid()
      modifies repo, ledger
      ensures Valid() && View() == Next(ledger.sha, cfg, old(View()), Revoke(id, reason), stamp)
      ensures ok == (id in old(repo.rows))
      ensures ok ==> Recorded(URI(old(repo.rows)[id]), "revoke", "nexus-system", stamp)
      ensures !ok ==> repo.rows == old(repo.rows) && ledger.entries == old(ledger.entries)
      ensures ok ==> repo.rows == old(repo.rows)[id := old(repo.rows)[id].(
                  status := Revoked,
                  revocationReason := if reason != "" then reason else old(repo.rows)[id].revocationReason)]
    {
      var agent := repo.GetByID(id);
      if agent.None? { return false; }
      if reason != "" {
        ok := repo.ExecStatement(id, SetStatusWithReason(Revoked, reason));
      } else {
        ok := repo.ExecStatement(id, SetStatus(Revoked));
      }
      AppendLedger(URI(agent.value), "revoke", SYSTEM, stamp);
    }

    method SuspendAgent(id: Id, now: Time, stamp: Stamp) returns (ok: bool)
      requires Valid()
      modifies repo, ledger
      ensures Valid() && View() == Next(ledger.sha, cfg, old(View()), Suspend(id, now), stamp)
      ensures ok == (id in old(repo.rows) && old(repo.rows)[id].status == Active)
      ensures ok ==> repo.rows == old(repo.rows)[id := old(repo.rows)[id].(
                  status := Suspended, suspendedAt := Some(now))]
      ensures ok ==> Recorded(URI(old(repo.rows)[id]), "suspend", "nexus-system", stamp)
      ensures !ok ==> repo.rows == old(repo.rows) && ledger.entries == old(ledger.entries)
    {
      var agent := repo.GetByID(id);
      if agent.None? || agent.value.status != Active { return false; }
      ok := repo.ExecStatement(id, SetSuspended(now));
      if !ok { return false; }
      AppendLedger(URI(agent.value), "suspend", SYSTEM, stamp);
    }

    method RestoreAgent(id: Id, stamp: Stamp) returns (ok: bool)
      requires Valid()
      modifies repo, ledger
      ensures Valid() && View() == Next(ledger.sha, cfg, old(View()), Restore(id), stamp)
      ensures ok == (id in old(repo.rows) && old(repo.rows)[id].status == Suspended)
      ensures ok ==> repo.rows == old(repo.rows)[id := old(repo.rows)[id].(status := Active, suspendedAt := None)]
      ensures ok ==> Recorded(URI(old(repo.rows)[id]), "restore", "nexus-system", stamp)
      ensures !ok ==> repo.rows == old(repo.rows) && ledger.entries == old(ledger.entries)
    {
      var agent := repo.GetByID(id);
      if agent.None? || agent.value.status != Suspended { return false; }
      ok := repo.ExecStatement(id, SetRestored);
      if !ok { return false; }
      AppendLedger(URI(agent.value), "restore", SYSTEM, stamp);
    }

    method DeprecateAgent(id: Id, now: Time, sunset: SunsetDate, replacement: string, stamp: Stamp) returns (ok: bool)
      requires Valid()
      modifies repo, ledger
      ensures Valid() && View() == Next(ledger.sha, cfg, old(View()), Deprecate(id, now, sunset, replacement), stamp)
      ensures ok == (id in old(repo.rows) && old(repo.rows)[id].status == Active && sunset != BadSunset)
      ensures ok ==> repo.rows == old(repo.rows)[id := old(repo.rows)[id].(
                  status := Deprecated, deprecatedAt := Some(now), replacementURI := replacement,
                  sunsetDate := if sunset.Sunset? then Some(sunset.date) else None)]
      ensures ok ==> Recorded(URI(old(repo.rows)[id]), "deprecate", "nexus-system", stamp)
      ensures !ok ==> repo.rows == old(repo.rows) && ledger.entries == old(ledger.entries)
    {
      var agent := repo.GetByID(id);
      if agent.None? || agent.value.status != Active || sunset == BadSunset { return false; }
      var date := if sunset.Sunset? then Some(sunset.date) else None;
      ok := repo.ExecStatement(id, SetDeprecated(now, date, replacement));
      if !ok { return false; }
      AppendLedger(URI(agent.value), "deprecate", SYSTEM, stamp);
    }

    method DeleteAgent(id: Id, stamp: Stamp) returns (ok: bool)
      requires Valid()
      modifies repo
      ensures Valid() && View() == Next(ledger.sha, cfg, old(View()), Delete(id), stamp)
      ensures ok == (id in old(repo.rows))
      ensures repo.rows == old(repo.rows) - {id}
    {
      ok := repo.ExecStatement(id, Remove);
    }

    /** Local resolution; remote registries are asked elsewhere when it finds nothing. */
    method Resolve(trustRoot: string, capNode: string, agentID: string) returns (res: Resolution)
      ensures Resolves(repo.rows, trustRoot, capNode, agentID, res)
      ensures res.Found? ==> res.id in repo.rows && repo.rows[res.id].status in {Active, Deprecated}
                             && repo.rows[res.id].trustRoot == trustRoot && repo.rows[res.id].agentID == agentID
      ensures res.NotActive? ==> res.status !in {Active, Deprecated} && exists i | i in repo.rows ::
                repo.rows[i].status == res.status
                && repo.rows[i].trustRoot == trustRoot && repo.rows[i].agentID == agentID
      ensures res == NoSuchAgent <==> forall i | i in repo.rows ::
                !MatchesURI(repo.rows[i], trustRoot, Capability.NormalizeCapability(capNode), agentID)
    {
      var id := repo.GetByAgentID(trustRoot, Capability.NormalizeCapability(capNode), agentID);
      if id.None? { return NoSuchAgent; }
      var status := repo.rows[id.value].status;
      if status != Active && status != Deprecated { return NotActive(status); }
      return Found(id.value);
    }
  }
}
