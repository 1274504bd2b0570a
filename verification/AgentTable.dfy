/** The agents table: its rows, the URI of a row, the statements that change it, and the
    lookup behind URI resolution. */
module AgentTable {
  import opened Strings
  import Capability

  datatype Status = Pending | Active | Revoked | Expired | Suspended | Deprecated

  datatype RegistrationType = Domain | NapHosted

  type Id = nat
  type UserId = nat
  type Time = nat

  datatype Profile = Profile(
    displayName: string, description: string, endpoint: string, version: string, supportURL: string)

  datatype Row = Row(
    trustRoot: string, capabilityNode: string, agentID: string, primarySkill: string,
    ownerDomain: string, owner: Option<UserId>, registrationType: RegistrationType,
    status: Status, certSerial: string, publicKeyPEM: string, profile: Profile,
    revocationReason: string, suspendedAt: Option<Time>, deprecatedAt: Option<Time>,
    sunsetDate: Option<string>, replacementURI: string)

  type Table = map<Id, Row>

  /** The agent:// URI of a row. */
  function URI(r: Row): string {
    var category := Capability.TopLevelCategory(r.capabilityNode);
    if r.primarySkill != "" then "agent://" + r.trustRoot + "/" + category + "/" + r.primarySkill + "/" + r.agentID
    else "agent://" + r.trustRoot + "/" + category + "/" + r.agentID
  }

  /** The text of a URI: the first level of the capability stands for all of it, and the skill
      has a segment only when there is one. */
  lemma URIText(r: Row, first: string, below: string)
    requires '>' !in first
    requires r.capabilityNode == first || r.capabilityNode == first + ">" + below
    ensures URI(r) == "agent://" + r.trustRoot + "/" + first
                      + (if r.primarySkill == "" then "" else "/" + r.primarySkill) + "/" + r.agentID
  {
    var cap := r.capabilityNode;
    if '>' in cap {
      CutAtIndex(cap, '>');
      CutUnique(first, below, cap[..Index(cap, '>')], cap[Index(cap, '>') + 1..], '>');
    }
    var front := "agent://" + r.trustRoot + "/" + first;
    assert front + "" + "/" + r.agentID == front + "/" + r.agentID;
    assert front + ("/" + r.primarySkill) + "/" + r.agentID == front + "/" + r.primarySkill + "/" + r.agentID;
  }

  datatype TrustTier = TierUnverified | TierBasic | TierVerified | TierTrusted

  /** The credibility tier that a reader of the row is shown. */
  function ComputeTrustTier(r: Row): TrustTier {
    if r.status != Active && r.status != Deprecated then TierUnverified
    else if r.registrationType == Domain then if r.certSerial != "" then TierTrusted else TierVerified
    else TierBasic
  }

  // ------------------------------------------------------- statements

  /** The columns that no statement ever changes; the URI is a function of them. */
  predicate SameIdentity(r: Row, q: Row) {
    && r.trustRoot == q.trustRoot && r.capabilityNode == q.capabilityNode && r.agentID == q.agentID
    && r.primarySkill == q.primarySkill && r.ownerDomain == q.ownerDomain && r.owner == q.owner
    && r.registrationType == q.registrationType
  }

  /** One UPDATE or DELETE statement, with the guard on the current status where its WHERE
      clause has one. */
  datatype Statement =
    | SetProfile(profile: Profile, publicKeyPEM: string)
    | SetStatus(status: Status)
    | SetStatusWithReason(status: Status, reason: string)
    | SetActiveWithCert(serial: string, certPEM: string)
    | SetSuspended(now: Time)
    | SetRestored
    | SetDeprecated(now: Time, sunset: Option<string>, replacement: string)
    | Remove

  predicate Guard(st: Statement, r: Row) {
    match st
    case SetSuspended(_) => r.status == Active
    case SetRestored => r.status == Suspended
    case SetDeprecated(_, _, _) => r.status == Active
    case _ => true
  }

  function Changed(st: Statement, r: Row): (q: Row)
    ensures SameIdentity(r, q)
  {
    match st
    case SetProfile(p, key) => r.(profile := p, publicKeyPEM := key)
    case SetStatus(s) => r.(status := s)
    case SetStatusWithReason(s, reason) => r.(status := s, revocationReason := reason)
    case SetActiveWithCert(serial, pem) => r.(status := Active, certSerial := serial, publicKeyPEM := pem)
    case SetSuspended(now) => r.(status := Suspended, suspendedAt := Some(now))
    case SetRestored => r.(status := Active, suspendedAt := None)
    case SetDeprecated(now, sunset, replacement) =>
      r.(status := Deprecated, deprecatedAt := Some(now), sunsetDate := sunset, replacementURI := replacement)
    case Remove => r
  }

  /** A statement addressed to one id affects that row or no row. */
  predicate Affects(t: Table, id: Id, st: Statement) { id in t && Guard(st, t[id]) }

  function Exec(t: Table, id: Id, st: Statement): Table {
    if !Affects(t, id, st) then t
    else if st == Remove then t - {id}
    else t[id := Changed(st, t[id])]
  }

  /** The unique index on (trust_root, capability_node, agent_id) and the primary key. */
  predicate Insertable(t: Table, id: Id, r: Row) {
    && id !in t
    && forall i | i in t ::
         !(t[i].trustRoot == r.trustRoot && t[i].capabilityNode == r.capabilityNode && t[i].agentID == r.agentID)
  }

  // ------------------------------------------------------- lookup

  /** SQL LIKE with the wildcards % and _ and the escape character \. */
  predicate Like(s: string, p: string)
    decreases |s| + |p|
  {
    if p == "" then s == ""
    else if p[0] == '%' then Like(s, p[1..]) || (s != "" && Like(s[1..], p))
    else if p[0] == '_' then s != "" && Like(s[1..], p[1..])
    else if p[0] == '\\' then |p| > 1 && s != "" && s[0] == p[1] && Like(s[1..], p[2..])
    else s != "" && s[0] == p[0] && Like(s[1..], p[1..])
  }

  predicate MatchesURI(r: Row, trustRoot: string, capNode: string, agentID: string) {
    && r.trustRoot == trustRoot
    && (r.capabilityNode == capNode || Like(r.capabilityNode, capNode + ">%"))
    && r.agentID == agentID
  }

  lemma {:induction false} LikeAnything(s: string)
    ensures Like(s, "%")
  {
    if s == "" {
      assert Like(s, "%"[1..]);
    } else {
      LikeAnything(s[1..]);
    }
  }

  /** A slug category matches every capability below it. */
  lemma {:induction false} LikeBelow(category: string, rest: string)
    requires forall c | c in category :: Capability.IsSlugRune(c)
    ensures Like(category + ">" + rest, category + ">%")
  {
    var s, p := category + ">" + rest, category + ">%";
    if category == "" {
      assert s[1..] == rest && p[1..] == "%";
      LikeAnything(rest);
    } else {
      LikeBelow(category[1..], rest);
      assert s[1..] == category[1..] + ">" + rest && p[1..] == category[1..] + ">%";
      assert category[0] in category;
      assert s[0] == p[0] == category[0];
    }
  }

  /** LIKE with a pattern that ends in its only %, and without escapes: every character of the
      pattern is met by its own kind, a _ by anything, and the rest is free. */
  lemma {:induction false} LikePrefixIff(s: string, p: string)
    requires '%' !in p && '\\' !in p
    ensures Like(s, p + "%") <==> |p| <= |s| && forall i | 0 <= i < |p| :: p[i] == '_' || s[i] == p[i]
  {
    if p == "" {
      assert p + "%" == "%";
      LikeAnything(s);
    } else {
      assert p[0] in p && (p + "%")[0] == p[0] && (p + "%")[1..] == p[1..] + "%";
      if s != "" {
        LikePrefixIff(s[1..], p[1..]);
        assert forall i | 0 <= i < |p| - 1 && i + 1 < |s| :: p[1..][i] == p[i + 1] && s[1..][i] == s[i + 1];
        if forall i | 0 <= i < |p[1..]| :: i < |s[1..]| && (p[1..][i] == '_' || s[1..][i] == p[1..][i]) {
          forall i | 0 < i < |p| ensures i < |s| && (p[i] == '_' || s[i] == p[i]) {
            assert p[1..][i - 1] == p[i];
          }
        }
      }
    }
  }

  /** At or below a capability, with an underscore of it standing for any character below. */
  predicate AtOrBelow(cap: string, top: string) {
    cap == top
    || (|cap| > |top| && cap[|top|] == '>' && forall i | 0 <= i < |top| :: top[i] == '_' || cap[i] == top[i])
  }

  /** The lookup, for a capability without % and \: same trust root, same agent ID, and a
      capability at or below the one asked for. */
  lemma MatchesIff(r: Row, trustRoot: string, capNode: string, agentID: string)
    requires '%' !in capNode && '\\' !in capNode
    ensures MatchesURI(r, trustRoot, capNode, agentID) <==>
            r.trustRoot == trustRoot && r.agentID == agentID && AtOrBelow(r.capabilityNode, capNode)
  {
    var p := capNode + ">";
    LikePrefixIff(r.capabilityNode, p);
    assert p + "%" == capNode + ">%";
    assert p[|capNode|] == '>' && forall i | 0 <= i < |capNode| :: p[i] == capNode[i];
  }

  /** A row is matched by its own top-level category. */
  lemma MatchesOwnCategory(r: Row)
    requires forall c | c in Capability.TopLevelCategory(r.capabilityNode) :: Capability.IsSlugRune(c)
    ensures MatchesURI(r, r.trustRoot, Capability.TopLevelCategory(r.capabilityNode), r.agentID)
  {
    var cap := r.capabilityNode;
    var category := Capability.TopLevelCategory(cap);
    if '>' in cap {
      CutAtIndex(cap, '>');
      LikeBelow(category, cap[Index(cap, '>') + 1..]);
    }
  }

  // ------------------------------------------------------- counting

  /** The non-revoked agents of a user. */
  function Owned(t: Table, u: UserId): set<Id> {
    set i | i in t && t[i].owner == Some(u) && t[i].status != Revoked
  }

  /** Those of them that are hosted. */
  function Hosted(t: Table, u: UserId): set<Id> {
    set i | i in t && t[i].owner == Some(u) && t[i].status != Revoked && t[i].registrationType == NapHosted
  }

  // ------------------------------------------------------- the repository

  class AgentRepository {
    var rows: Table

    constructor ()
      ensures rows == map[]
    {
      rows := map[];
    }

    /** INSERT; fails without effect when a key is already taken. */
    method Create(id: Id, r: Row) returns (ok: bool)
      modifies this
      ensures ok <==> id !in old(rows) && forall i | i in old(rows) :: var q := old(rows)[i];
                !(q.trustRoot == r.trustRoot && q.capabilityNode == r.capabilityNode && q.agentID == r.agentID)
      ensures rows == if ok then old(rows)[id := r] else old(rows)
    {
      ok := id !in rows;
      var todo := rows.Keys;
      while ok && todo != {}
        invariant todo <= rows.Keys
        invariant ok <==> id !in rows && forall i | i in rows && i !in todo ::
          !(rows[i].trustRoot == r.trustRoot && rows[i].capabilityNode == r.capabilityNode
              && rows[i].agentID == r.agentID)
        decreases |todo|
      {
        var i :| i in todo;
        todo := todo - {i};
        ok := !(rows[i].trustRoot == r.trustRoot && rows[i].capabilityNode == r.capabilityNode
            && rows[i].agentID == r.agentID);
      }
      if ok { rows := rows[id := r]; }
    }

    method GetByID(id: Id) returns (r: Option<Row>)
      ensures r == if id in rows then Some(rows[id]) else None
    {
      r := if id in rows then Some(rows[id]) else None;
    }

    /** SELECT COUNT(*) of the non-revoked agents of a user. */
    method CountByOwner(u: UserId) returns (n: nat)
      ensures n == |set i | i in rows && rows[i].owner == Some(u) && rows[i].status != Revoked|
    {
      n := 0;
      var todo := rows.Keys;
      ghost var counted: set<Id> := {};
      while todo != {}
        invariant todo <= rows.Keys && n == |counted|
        invariant counted == set i | i in rows && i !in todo && rows[i].owner == Some(u) && rows[i].status != Revoked
        decreases |todo|
      {
        var i :| i in todo;
        todo := todo - {i};
        if rows[i].owner == Some(u) && rows[i].status != Revoked {
          n := n + 1;
          counted := counted + {i};
        }
      }
      assert counted == set i | i in rows && rows[i].owner == Some(u) && rows[i].status != Revoked;
    }

    /** Any UPDATE or DELETE; false when no row was affected. */
    method ExecStatement(id: Id, st: Statement) returns (affected: bool)
      modifies this
      ensures affected == Affects(old(rows), id, st)
      ensures rows == Exec(old(rows), id, st)
    {
      if id !in rows || !Guard(st, rows[id]) { return false; }
      if st == Remove {
        rows := rows - {id};
      } else {
        rows := rows[id := Changed(st, rows[id])];
      }
      return true;
    }

    /** The first matching row in scan order; which one is not determined when several
        match. */
    method GetByAgentID(trustRoot: string, capNode: string, agentID: string) returns (id: Option<Id>)
      ensures id.Some? ==> id.value in rows && MatchesURI(rows[id.value], trustRoot, capNode, agentID)
      ensures id.None? ==> forall i | i in rows :: !MatchesURI(rows[i], trustRoot, capNode, agentID)
    {
      var todo := rows.Keys;
      while todo != {}
        invariant todo <= rows.Keys
        invariant forall i | i in rows && i !in todo :: !MatchesURI(rows[i], trustRoot, capNode, agentID)
        decreases |todo|
      {
        var i :| i in todo;
        if MatchesURI(rows[i], trustRoot, capNode, agentID) { return Some(i); }
        todo := todo - {i};
      }
      return None;
    }
  }
}
