/** When the answers of DNS come: the expiry of a challenge is checked before DNS is asked
    and never again, so an answer may come late and still count. */
module TxtTiming {
  import opened Strings
  import opened AgentTable
  import Registry
  import opened Lifecycle

  /** The reply of the last successful lookup came before the challenge expired. */
  predicate InTime(p: Proofs, ch: ChallengeId)
    requires ch in p.evidence
  {
    ch in p.issued && p.evidence[ch].replied <= p.issued[ch]
  }

  ghost predicate AllInTime(p: Proofs) { forall ch | ch in p.evidence :: InTime(p, ch) }

  /** A successful reply that comes when the clock is past the expiry of its challenge. */
  predicate LateReply(s: World, step: Step) {
    && step.TxtReply? && step.found && step.t in s.threads && s.threads[step.t].LookupBegun?
    && var ch := s.threads[step.t].ch;
       ch in s.proofs.issued && s.now > s.proofs.issued[ch]
  }

  ghost predicate NoLateReply(cfg: Registry.Config, s: World, steps: seq<Step>)
    decreases |steps|
  {
    steps == [] || (!LateReply(s, steps[0]) && NoLateReply(cfg, Next(cfg, s, steps[0]), steps[1..]))
  }

  /** No lookup has been begun or answered in the future. */
  ghost predicate ClockOk(s: World) {
    && (forall t | t in s.threads && s.threads[t].LookupBegun? :: s.threads[t].begun <= s.now)
    && forall ch | ch in s.proofs.evidence :: s.proofs.evidence[ch].begun <= s.proofs.evidence[ch].replied <= s.now
  }

  lemma NextKeepsClock(cfg: Registry.Config, s: World, step: Step)
    requires ClockOk(s)
    ensures ClockOk(Next(cfg, s, step))
  {
    if !step.CheckExpiry? && !step.TxtReply? && !step.Tick? {
      var s' := Next(cfg, s, step);
      EvidenceKept(cfg, s, step);
      LookupsKept(cfg, s, step);
      assert s'.now == s.now;
    }
  }

  lemma LookupsKept(cfg: Registry.Config, s: World, step: Step)
    requires !step.CheckExpiry?
    ensures var s' := Next(cfg, s, step);
            forall t | t in s'.threads && s'.threads[t].LookupBegun? :: t in s.threads && s.threads[t] == s'.threads[t]
  {
  }

  /** Only replies touch the evidence. */
  lemma EvidenceKept(cfg: Registry.Config, s: World, step: Step)
    requires !step.TxtReply?
    ensures Next(cfg, s, step).proofs.evidence == s.proofs.evidence
  {
  }

  /** One late reply puts its challenge out of time for good: later replies are later still. */
  lemma NextInTimeIff(cfg: Registry.Config, s: World, step: Step)
    requires Inv(s) && ClockOk(s)
    ensures AllInTime(Next(cfg, s, step).proofs) <==> AllInTime(s.proofs) && !LateReply(s, step)
  {
    var s' := Next(cfg, s, step);
    NextKeepsInv(cfg, s, step);
    forall ch | ch in s.proofs.evidence ensures ch in s'.proofs.issued && s'.proofs.issued[ch] == s.proofs.issued[ch] {
      assert ch in s.proofs.issued;
    }
    if step.TxtReply? { ReplyInTimeIff(s, step); } else { EvidenceKept(cfg, s, step); }
  }

  lemma ReplyInTimeIff(s: World, step: Step)
    requires Inv(s) && ClockOk(s) && step.TxtReply?
    ensures AllInTime(DoTxtReply(s, step.t, step.found).proofs) <==> AllInTime(s.proofs) && !LateReply(s, step)
  {
    var s' := DoTxtReply(s, step.t, step.found);
    if step.t in s.threads && s.threads[step.t].LookupBegun? && step.found {
      var ch := s.threads[step.t].ch;
      assert PhaseOk(s.table, s.usedIds, s.proofs, s.threads[step.t]);
      assert s'.proofs.evidence == s.proofs.evidence[ch := Evidence(s.threads[step.t].begun, s.now)];
      assert InTime(s'.proofs, ch) <==> !LateReply(s, step);
      forall c | c in s.proofs.evidence && c != ch ensures InTime(s'.proofs, c) == InTime(s.proofs, c) {}
      if AllInTime(s'.proofs) {
        forall c | c in s.proofs.evidence ensures InTime(s.proofs, c) { assert InTime(s'.proofs, c); }
      }
    }
  }

  lemma {:induction false} RunInTimeIff(cfg: Registry.Config, s: World, steps: seq<Step>)
    requires Inv(s) && ClockOk(s)
    ensures AllInTime(Run(cfg, s, steps).proofs) <==> AllInTime(s.proofs) && NoLateReply(cfg, s, steps)
    decreases |steps|
  {
    if steps != [] {
      NextInTimeIff(cfg, s, steps[0]);
      NextKeepsInv(cfg, s, steps[0]);
      NextKeepsClock(cfg, s, steps[0]);
      RunInTimeIff(cfg, Next(cfg, s, steps[0]), steps[1..]);
    }
  }

  /** The exact condition: in any run, every recorded success of a lookup came before its
      challenge expired if and only if at each reply that was taken the clock was not past
      the expiry. */
  lemma RepliesInTimeIff(cfg: Registry.Config, steps: seq<Step>)
    ensures AllInTime(Run(cfg, INIT, steps).proofs) <==> NoLateReply(cfg, INIT, steps)
  {
    RunInTimeIff(cfg, INIT, steps);
  }

  // ------------------------------------------------------- what agents were let through on

  /** The domain has a verified challenge with a lookup that was answered before it expired. */
  ghost predicate ProvenInTime(p: Proofs, domain: string) {
    exists ch :: DomainVerifiedBy(p, ch, domain) && ch in p.answered
  }

  predicate Gated(r: Row) { NeedsGate(r.status) && r.registrationType != NapHosted }

  /** So has that of every active, suspended and deprecated domain agent. */
  ghost predicate GatedInTime(s: World) {
    forall id | id in s.table && Gated(s.table[id]) :: ProvenInTime(s.proofs, s.table[id].ownerDomain)
  }

  /** An activation takes effect on a domain agent whose domain has not. */
  ghost predicate ActivatesUnproven(cfg: Registry.Config, s: World, step: Step) {
    && step.Write? && Effective(cfg, s, step.t) && s.threads[step.t].op.Activate?
    && var r := s.table[s.threads[step.t].op.id];
       r.registrationType != NapHosted && !ProvenInTime(s.proofs, r.ownerDomain)
  }

  /** What is proven in time stays so. */
  lemma ProvenInTimeStays(p: Proofs, q: Proofs, domain: string)
    requires ProofsOk(p) && Grows(p, q) && ProvenInTime(p, domain)
    ensures ProvenInTime(q, domain)
  {
    var ch :| DomainVerifiedBy(p, ch, domain) && ch in p.answered;
    assert ChallengeOk(p, ch) && Proven(p, ch);
    assert DomainVerifiedBy(q, ch, domain);
  }

  /** The row written is gated afterwards only by activation, or if it was before. */
  lemma WrittenRowGated(cfg: Registry.Config, s: World, t: ThreadId)
    requires Effective(cfg, s, t)
    ensures var (op, s') := (s.threads[t].op, DoWrite(cfg, s, t));
            && (op.id in s'.table ==> SameIdentity(s.table[op.id], s'.table[op.id]))
            && (op.id in s'.table && Gated(s'.table[op.id]) ==> op.Activate? || Gated(s.table[op.id]))
            && (op.Activate? ==> op.id in s'.table && s'.table[op.id].status == Active)
            && forall id | id != op.id ::
                 (id in s'.table <==> id in s.table) && (id in s.table ==> s'.table[id] == s.table[id])
  {
    PlannedWrite(cfg, s.threads[t].row, s.table[s.threads[t].op.id], s.threads[t].op);
  }

  lemma WriteGatedIff(cfg: Registry.Config, s: World, step: Step)
    requires Inv(s) && GatedInTime(s) && step.Write?
    ensures GatedInTime(DoWrite(cfg, s, step.t)) <==> !ActivatesUnproven(cfg, s, step)
  {
    var s' := DoWrite(cfg, s, step.t);
    assert s'.proofs == s.proofs;
    if Effective(cfg, s, step.t) {
      WrittenRowGated(cfg, s, step.t);
    } else {
      assert s'.table == s.table;
    }
  }

  lemma NextGatedIff(cfg: Registry.Config, s: World, step: Step)
    requires Inv(s) && GatedInTime(s)
    ensures GatedInTime(Next(cfg, s, step)) <==> !ActivatesUnproven(cfg, s, step)
  {
    var s' := Next(cfg, s, step);
    if step.Write? {
      WriteGatedIff(cfg, s, step);
    } else {
      NextKeepsInv(cfg, s, step);
      forall id | id in s'.table && Gated(s'.table[id]) ensures ProvenInTime(s'.proofs, s'.table[id].ownerDomain) {
        GatedRowKept(cfg, s, step, id);
        ProvenInTimeStays(s.proofs, s'.proofs, s.table[id].ownerDomain);
      }
    }
  }

  lemma GatedRowKept(cfg: Registry.Config, s: World, step: Step, id: Id)
    requires !step.Write? && id in Next(cfg, s, step).table && Gated(Next(cfg, s, step).table[id])
    ensures id in s.table && s.table[id] == Next(cfg, s, step).table[id]
  {
    if step.Insert? {
      if Registry.NewRow(cfg, step.req, step.agentID).Some? { NewRowIsPending(cfg, step.req, step.agentID); }
    } else {
      TableKept(cfg, s, step);
    }
  }

  ghost predicate AlwaysGatedInTime(cfg: Registry.Config, s: World, steps: seq<Step>)
    decreases |steps|
  {
    GatedInTime(s) && (steps == [] || AlwaysGatedInTime(cfg, Next(cfg, s, steps[0]), steps[1..]))
  }

  ghost predicate NoneUnproven(cfg: Registry.Config, s: World, steps: seq<Step>)
    decreases |steps|
  {
    steps == [] || (!ActivatesUnproven(cfg, s, steps[0]) && NoneUnproven(cfg, Next(cfg, s, steps[0]), steps[1..]))
  }

  lemma {:induction false} RunGatedIff(cfg: Registry.Config, s: World, steps: seq<Step>)
    requires Inv(s) && GatedInTime(s)
    ensures AlwaysGatedInTime(cfg, s, steps) <==> NoneUnproven(cfg, s, steps)
    decreases |steps|
  {
    if steps != [] {
      NextGatedIff(cfg, s, steps[0]);
      NextKeepsInv(cfg, s, steps[0]);
      if !ActivatesUnproven(cfg, s, steps[0]) { RunGatedIff(cfg, Next(cfg, s, steps[0]), steps[1..]); }
    }
  }

  /** The exact condition: in every state of a run every active, suspended or deprecated
      domain agent has a verified challenge with a lookup answered before it expired, if and
      only if no activation takes effect on a domain agent whose domain has none. */
  lemma GatedInTimeIff(cfg: Registry.Config, steps: seq<Step>)
    ensures AlwaysGatedInTime(cfg, INIT, steps) <==> NoneUnproven(cfg, INIT, steps)
  {
    RunGatedIff(cfg, INIT, steps);
  }

  /** What DNS can see to: in a run without late replies they all have. */
  lemma NoLateReplyGatedInTime(cfg: Registry.Config, steps: seq<Step>, id: Id)
    requires NoLateReply(cfg, INIT, steps)
    requires id in Run(cfg, INIT, steps).table && Gated(Run(cfg, INIT, steps).table[id])
    ensures var s := Run(cfg, INIT, steps);
            exists ch ::
              && DomainVerifiedBy(s.proofs, ch, s.table[id].ownerDomain) && ch in s.proofs.answered
              && ch in s.proofs.evidence && s.proofs.evidence[ch].replied <= s.proofs.challenges[ch].expiresAt
  {
    var s := Run(cfg, INIT, steps);
    RunKeepsInv(cfg, INIT, steps);
    RepliesInTimeIff(cfg, steps);
    assert RowOk(s.proofs, s.table[id]);
    var ch :| DomainVerifiedBy(s.proofs, ch, s.table[id].ownerDomain) && Proven(s.proofs, ch);
    assert ChallengeOk(s.proofs, ch) && InTime(s.proofs, ch);
  }

  // ------------------------------------------------------- a late reply that counts

  lemma RunThree(cfg: Registry.Config, s: World, a: Step, b: Step, c: Step)
    ensures Run(cfg, s, [a, b, c]) == Next(cfg, Next(cfg, Next(cfg, s, a), b), c)
  {
    RunFirst(cfg, s, a, [b, c]);
    RunFirst(cfg, Next(cfg, s, a), b, [c]);
    RunFirst(cfg, Next(cfg, Next(cfg, s, a), b), c, []);
    assert [a, b, c] == [a] + [b, c] && [b, c] == [b] + [c] && [c] == [c] + [];
  }

  function BeginLookup(t: ThreadId, ch: ChallengeId, domain: string): seq<Step> {
    [StartChallenge(ch, domain), ReadChallenge(t, ch), CheckExpiry(t)]
  }

  function AnswerAt(t: ThreadId, time: Time): seq<Step> { [Tick(time), TxtReply(t, true), MarkVerified(t)] }

  /** The statements of a verification of challenge ch with a reply that comes one second
      after it expired. */
  function LateVerification(t: ThreadId, ch: ChallengeId, domain: string, expiry: Time): seq<Step> {
    BeginLookup(t, ch, domain) + AnswerAt(t, expiry + 1)
  }

  /** From any state, any domain can be verified that way. */
  lemma VerifiedLate(cfg: Registry.Config, s: World, t: ThreadId, ch: ChallengeId, domain: string)
    requires t !in s.threads && ch !in s.proofs.issued && domain != ""
    ensures var expiry := s.now + CHALLENGE_TTL;
            var s' := Run(cfg, s, LateVerification(t, ch, domain, expiry));
            && s'.table == s.table && s'.threads == s.threads
            && DomainVerifiedBy(s'.proofs, ch, domain) && s'.proofs.challenges[ch].expiresAt == expiry
            && ch in s'.proofs.evidence && s'.proofs.evidence[ch] == Evidence(s.now, expiry + 1)
            && s'.proofs.answered == s.proofs.answered
  {
    var expiry := s.now + CHALLENGE_TTL;
    LookupStarted(s, t, ch, domain);
    var s3 := DoCheckExpiry(DoReadChallenge(DoStartChallenge(s, ch, domain), t, ch), t);
    AnsweredLate(s3, t, ch, s.now, Challenge(domain, expiry, false));
    assert s3.threads - {t} == s.threads;
    BeginRun(cfg, s, t, ch, domain);
    AnswerRun(cfg, s3, t, expiry + 1);
    RunConcat(cfg, s, BeginLookup(t, ch, domain), AnswerAt(t, expiry + 1));
  }

  lemma LookupStarted(s: World, t: ThreadId, ch: ChallengeId, domain: string)
    requires t !in s.threads && ch !in s.proofs.issued && domain != ""
    ensures var s' := DoCheckExpiry(DoReadChallenge(DoStartChallenge(s, ch, domain), t, ch), t);
            && s'.threads == s.threads[t := LookupBegun(ch, s.now)] && s'.table == s.table && s'.now == s.now
            && ch in s'.proofs.challenges
            && s'.proofs.challenges[ch] == Challenge(domain, s.now + CHALLENGE_TTL, false)
            && ch in s'.proofs.issued && s'.proofs.issued[ch] == s.now + CHALLENGE_TTL
            && s'.proofs.answered == s.proofs.answered
  {
    var c := Challenge(domain, s.now + CHALLENGE_TTL, false);
    var s1 := DoStartChallenge(s, ch, domain);
    assert s1.proofs.challenges[ch] == c && s1.threads == s.threads && s1.now == s.now;
    var s2 := DoReadChallenge(s1, t, ch);
    assert s2 == Enter(s1, t, ChallengeRead(ch, c));
  }

  lemma AnsweredLate(s: World, t: ThreadId, ch: ChallengeId, begun: Time, c: Challenge)
    requires t in s.threads && s.threads[t] == LookupBegun(ch, begun)
    requires ch in s.proofs.challenges && s.proofs.challenges[ch] == c && s.now <= c.expiresAt
    requires ch in s.proofs.issued && s.proofs.issued[ch] == c.expiresAt
    ensures var s' := DoMarkVerified(DoTxtReply(s.(now := c.expiresAt + 1), t, true), t);
            && s'.table == s.table && s'.threads == s.threads - {t}
            && DomainVerifiedBy(s'.proofs, ch, c.domain) && s'.proofs.challenges[ch].expiresAt == c.expiresAt
            && ch in s'.proofs.evidence && s'.proofs.evidence[ch] == Evidence(begun, c.expiresAt + 1)
            && s'.proofs.answered == s.proofs.answered
  {
    var s5 := DoTxtReply(s.(now := c.expiresAt + 1), t, true);
    assert s5.threads == s.threads[t := TxtSeen(ch)] && s5.proofs.challenges == s.proofs.challenges;
  }

  lemma BeginRun(cfg: Registry.Config, s: World, t: ThreadId, ch: ChallengeId, domain: string)
    ensures Run(cfg, s, BeginLookup(t, ch, domain))
            == DoCheckExpiry(DoReadChallenge(DoStartChallenge(s, ch, domain), t, ch), t)
  {
    RunThree(cfg, s, StartChallenge(ch, domain), ReadChallenge(t, ch), CheckExpiry(t));
  }

  lemma AnswerRun(cfg: Registry.Config, s: World, t: ThreadId, time: Time)
    requires s.now <= time
    ensures Run(cfg, s, AnswerAt(t, time)) == DoMarkVerified(DoTxtReply(s.(now := time), t, true), t)
  {
    RunThree(cfg, s, Tick(time), TxtReply(t, true), MarkVerified(t));
  }

  /** An activation of an existing row with nothing in between. */
  function Activation(t: ThreadId, op: Registry.Op): seq<Step> {
    [Start(t, op), CheckGate(t), Write(t)]
  }

  /** A late reply lets an agent through the gate: in any state with a domain row and an
      activation that is otherwise in order, there is a run that ends with the agent active
      on a verification whose reply came after the challenge had expired. */
  lemma LateReplyActivates(cfg: Registry.Config, s: World, t: ThreadId, ch: ChallengeId, op: Registry.Op)
    returns (steps: seq<Step>)
    requires t !in s.threads && ch !in s.proofs.issued
    requires op.Activate? && op.id in s.table && Registry.PlanFor(cfg, s.table[op.id], op).Some?
    requires s.table[op.id].registrationType == Domain && s.table[op.id].ownerDomain != ""
    ensures var (r, s') := (s.table[op.id], Run(cfg, s, steps));
            && op.id in s'.table && s'.table[op.id].status == Active
            && DomainVerifiedBy(s'.proofs, ch, r.ownerDomain) && ch in s'.proofs.evidence
            && s'.proofs.evidence[ch].replied > s'.proofs.challenges[ch].expiresAt
            && s'.proofs.answered == s.proofs.answered
  {
    var (domain, expiry) := (s.table[op.id].ownerDomain, s.now + CHALLENGE_TTL);
    var first := LateVerification(t, ch, domain, expiry);
    var s1 := Run(cfg, s, first);
    VerifiedLate(cfg, s, t, ch, domain);
    assert GateOpen(s1.proofs, s1.table[op.id]);
    ActivationIff(cfg, s1, t, op);
    ActivationRun(cfg, s1, t, op);
    RunConcat(cfg, s, first, Activation(t, op));
    steps := first + Activation(t, op);
  }

  lemma ActivationRun(cfg: Registry.Config, s: World, t: ThreadId, op: Registry.Op)
    ensures var s' := DoWrite(cfg, DoCheckGate(DoStart(cfg, s, t, op), t), t);
            Run(cfg, s, Activation(t, op)) == s' && s'.proofs == s.proofs
  {
    RunThree(cfg, s, Start(t, op), CheckGate(t), Write(t));
  }

  /** The start, with the owner of a registration signed up if it has one. */
  function SignedUp(owner: Option<UserId>): World {
    if owner.None? then INIT else INIT.(proofs := INIT.proofs.(users := map[owner.value := false]))
  }

  function SignUp(owner: Option<UserId>): seq<Step> {
    if owner.None? then [] else [CreateUser(owner.value, false)] + []
  }

  lemma SignUpRun(cfg: Registry.Config, owner: Option<UserId>)
    ensures Run(cfg, INIT, SignUp(owner)) == SignedUp(owner)
  {
    if owner.Some? { RunFirst(cfg, INIT, CreateUser(owner.value, false), []); }
  }

  /** So it happens in a run from the start, to every domain agent that can be registered; and
      its domain then has no challenge with a lookup answered in time. */
  lemma LateReplyReachable(cfg: Registry.Config, agentID: string, req: Registry.RegisterRequest, op: Registry.Op)
    returns (steps: seq<Step>)
    requires Registry.NewRow(cfg, req, agentID).Some? && req.registrationType == Domain
    requires op.Activate? && op.id == 0 && Registry.PlanFor(cfg, Registry.NewRow(cfg, req, agentID).value, op).Some?
    ensures var s := Run(cfg, INIT, steps);
            && 0 in s.table && s.table[0].agentID == agentID && s.table[0].status == Active
            && 0 in s.proofs.challenges && 0 in s.proofs.evidence && !NoLateReply(cfg, INIT, steps)
            && s.proofs.evidence[0].replied > s.proofs.challenges[0].expiresAt
            && !GatedInTime(s)
  {
    var (s0, r) := (SignedUp(req.owner), Registry.NewRow(cfg, req, agentID).value);
    var insert := Insert(0, 0, agentID, req);
    var s := Inserted(s0, 0, 0, r);
    DomainRowHasDomain(cfg, req, agentID);
    assert Next(cfg, s0, insert) == s;
    var rest := LateReplyActivates(cfg, s, 1, 0, op);
    RunFirst(cfg, s0, insert, rest);
    SignUpRun(cfg, req.owner);
    RunConcat(cfg, INIT, SignUp(req.owner), [insert] + rest);
    steps := SignUp(req.owner) + ([insert] + rest);
    RowKept(cfg, s, rest, 0);
    LateIsLate(cfg, steps);
  }

  lemma LateIsLate(cfg: Registry.Config, steps: seq<Step>)
    requires var s := Run(cfg, INIT, steps);
             && 0 in s.table && s.table[0].status == Active && s.table[0].registrationType == Domain
             && 0 in s.proofs.challenges && 0 in s.proofs.evidence && s.proofs.answered == {}
             && s.proofs.evidence[0].replied > s.proofs.challenges[0].expiresAt
    ensures !NoLateReply(cfg, INIT, steps) && !GatedInTime(Run(cfg, INIT, steps))
  {
    var s := Run(cfg, INIT, steps);
    RepliesInTimeIff(cfg, steps);
    RunKeepsInv(cfg, INIT, steps);
    assert ChallengeOk(s.proofs, 0) && !InTime(s.proofs, 0);
    assert Gated(s.table[0]) && !ProvenInTime(s.proofs, s.table[0].ownerDomain);
  }

  lemma DomainRowHasDomain(cfg: Registry.Config, req: Registry.RegisterRequest, agentID: string)
    requires Registry.NewRow(cfg, req, agentID).Some? && req.registrationType == Domain
    ensures var r := Registry.NewRow(cfg, req, agentID).value;
            r.registrationType == Domain && r.ownerDomain != "" && r.agentID == agentID && r.owner == req.owner
  {
  }

  lemma NextKeepsRow(cfg: Registry.Config, s: World, step: Step, id: Id)
    requires id in s.usedIds
    ensures var s' := Next(cfg, s, step);
            && id in s'.usedIds
            && (id in s'.table ==> id in s.table && SameIdentity(s.table[id], s'.table[id]))
  {
    if !step.Insert? && !step.Write? { TableKept(cfg, s, step); }
  }

  lemma {:induction false} RowKept(cfg: Registry.Config, s: World, steps: seq<Step>, id: Id)
    requires id in s.usedIds
    ensures var s' := Run(cfg, s, steps); id in s'.table ==> id in s.table && SameIdentity(s.table[id], s'.table[id])
    decreases |steps|
  {
    if steps != [] {
      NextKeepsRow(cfg, s, steps[0], id);
      RowKept(cfg, Next(cfg, s, steps[0]), steps[1..], id);
    }
  }
}
