/** Delegation of certificate authority through a federation of registries: which
    intermediate certificates can come into being, and that every chain of them validates. */
module Federation {
  import opened Strings

  type RegId = nat
  type NodeId = nat

  /** An intermediate CA certificate. The issuer is the root CA or an earlier certificate of
      the log; a path length of -1 means that the certificate carries no constraint. */
  datatype Cert = Cert(issuer: Option<nat>, subject: string, pathLen: int)

  /** All intermediate certificates issued so far, in order. */
  type Log = seq<Cert>

  datatype Issuer = NoIssuer | RootCA | Intermediate(cert: nat)

  datatype Status = Pending | Active | Suspended

  datatype Registry = Registry(
    trustRoot: string, endpointURL: string, intermediateCA: Option<nat>, maxPathLen: int, status: Status)

  type Registries = map<RegId, Registry>

  const MAX_ALLOWED_PATH_LEN: int := 2

  // ------------------------------------------------------- the issuer

  /** IssueIntermediateCert. An issuer working with an intermediate needs a positive path
      length of its own and gives a smaller one; nothing rejects -1, and certificate encoding
      rejects anything below that. */
  function IssueIntermediateCert(log: Log, issuer: Issuer, org: string, maxPathLen: int): Option<Cert>
    requires issuer.Intermediate? ==> issuer.cert < |log|
  {
    match issuer
    case NoIssuer => None
    case RootCA => if maxPathLen < -1 then None else Some(Cert(None, org, maxPathLen))
    case Intermediate(i) =>
      if log[i].pathLen <= 0 || maxPathLen >= log[i].pathLen || maxPathLen < -1 then None
      else Some(Cert(Some(i), org, maxPathLen))
  }

  // ------------------------------------------------------- the service

  predicate TrustRootFree(rs: Registries, trustRoot: string) {
    forall i | i in rs :: rs[i].trustRoot != trustRoot
  }

  function DoRegister(rs: Registries, id: RegId, trustRoot: string, url: string): Registries {
    if trustRoot == "" || url == "" || id in rs || !TrustRootFree(rs, trustRoot) then rs
    else rs[id := Registry(trustRoot, url, None, 0, Pending)]
  }

  /** Approve and Suspend, neither of which looks at the current status. */
  function DoSetStatus(rs: Registries, id: RegId, status: Status): Registries {
    if id in rs then rs[id := rs[id].(status := status)] else rs
  }

  function DoUpdateMaxPathLen(rs: Registries, id: RegId, n: int): Registries {
    if n < 0 || n > MAX_ALLOWED_PATH_LEN || id !in rs then rs else rs[id := rs[id].(maxPathLen := n)]
  }

  /** What IssueIntermediateCA issues for a registry row: nothing unless it is active. */
  function CertFor(log: Log, issuer: Issuer, r: Registry): Option<Cert>
    requires issuer.Intermediate? ==> issuer.cert < |log|
  {
    if r.status != Active then None else IssueIntermediateCert(log, issuer, r.trustRoot, r.maxPathLen)
  }

  class FederationService {
    const issuer: Issuer
    var registries: Registries

    constructor (issuer: Issuer)
      ensures this.issuer == issuer && registries == map[]
    {
      this.issuer := issuer;
      registries := map[];
    }

    method Register(id: RegId, trustRoot: string, url: string)
      modifies this
      ensures registries == DoRegister(old(registries), id, trustRoot, url)
      ensures registries ==
              if trustRoot != "" && url != "" && id !in old(registries)
                 && forall i | i in old(registries) :: old(registries)[i].trustRoot != trustRoot
              then old(registries)[id := Registry(trustRoot, url, None, 0, Pending)] else old(registries)
    {
      if trustRoot == "" || url == "" || id in registries { return; }
      var other := GetByTrustRoot(trustRoot);
      if other.None? { registries := registries[id := Registry(trustRoot, url, None, 0, Pending)]; }
    }

    method GetByTrustRoot(trustRoot: string) returns (id: Option<RegId>)
      ensures id.None? <==> TrustRootFree(registries, trustRoot)
      ensures id.Some? ==> id.value in registries && registries[id.value].trustRoot == trustRoot
    {
      var todo := registries.Keys;
      while todo != {}
        invariant todo <= registries.Keys
        invariant forall i | i in registries && i !in todo :: registries[i].trustRoot != trustRoot
        decreases |todo|
      {
        var i :| i in todo;
        if registries[i].trustRoot == trustRoot { return Some(i); }
        todo := todo - {i};
      }
      return None;
    }

    method Approve(id: RegId)
      modifies this
      ensures registries == DoSetStatus(old(registries), id, Active)
    {
      if id in registries { registries := registries[id := registries[id].(status := Active)]; }
    }

    method Suspend(id: RegId)
      modifies this
      ensures registries == DoSetStatus(old(registries), id, Suspended)
    {
      if id in registries { registries := registries[id := registries[id].(status := Suspended)]; }
    }

    method UpdateMaxPathLen(id: RegId, n: int) returns (ok: bool)
      modifies this
      ensures registries == DoUpdateMaxPathLen(old(registries), id, n)
      ensures ok <==> 0 <= n <= 2 && id in old(registries)
      ensures registries == if ok then old(registries)[id := old(registries)[id].(maxPathLen := n)] else old(registries)
    {
      if n < 0 || n > MAX_ALLOWED_PATH_LEN || id !in registries { return false; }
      registries := registries[id := registries[id].(maxPathLen := n)];
      return true;
    }

    /** Issues for the registry with this trust root and stores a reference to the
        certificate, which becomes the next entry of the log. */
    method IssueIntermediateCA(log: Log, trustRoot: string) returns (cert: Option<Cert>)
      requires issuer.Intermediate? ==> issuer.cert < |log|
      modifies this
      ensures cert.None? ==> registries == old(registries)
      ensures cert.Some? ==> exists id | id in old(registries) ::
                && old(registries)[id].trustRoot == trustRoot && CertFor(log, issuer, old(registries)[id]) == cert
                && registries == old(registries)[id := old(registries)[id].(intermediateCA := Some(|log|))]
                && old(registries)[id].status == Active && issuer != NoIssuer
                && cert.value.subject == trustRoot && cert.value.pathLen == old(registries)[id].maxPathLen
      ensures cert.None? ==>
                (TrustRootFree(registries, trustRoot)
                 || exists id | id in registries :: registries[id].trustRoot == trustRoot
                     && CertFor(log, issuer, registries[id]).None?)
    {
      if issuer == NoIssuer {
        var found := GetByTrustRoot(trustRoot);
        assert found.Some? ==> CertFor(log, issuer, registries[found.value]).None?;
        return None;
      }
      var id := GetByTrustRoot(trustRoot);
      if id.None? { return None; }
      var r := registries[id.value];
      if r.status != Active { return None; }
      cert := IssueIntermediateCert(log, issuer, trustRoot, r.maxPathLen);
      assert CertFor(log, issuer, r) == cert;
      if cert.Some? {
        registries := registries[id.value := r.(intermediateCA := Some(|log|))];
      }
    }
  }

  // ------------------------------------------------------- the federation

  datatype Node = Node(issuer: Issuer, registries: Registries)

  datatype World = World(nodes: map<NodeId, Node>, log: Log)

  /** A step at one node; Join is an operator starting a further registry with an issued
      certificate, which can delegate only when its path length is positive. */
  datatype Step =
    | Register(n: NodeId, id: RegId, trustRoot: string, url: string)
    | Approve(n: NodeId, id: RegId)
    | Suspend(n: NodeId, id: RegId)
    | UpdateMaxPathLen(n: NodeId, id: RegId, maxPathLen: int)
    | IssueCA(n: NodeId, id: RegId)
    | Join(n: NodeId, cert: nat)

  function WithRegistries(s: World, n: NodeId, rs: Registries): World
    requires n in s.nodes
  {
    s.(nodes := s.nodes[n := s.nodes[n].(registries := rs)])
  }

  function Next(s: World, step: Step): (s': World)
    requires IssuersKnown(s)
    ensures IssuersKnown(s') && s.log <= s'.log
  {
    if step.Join? then
      if step.n in s.nodes || step.cert >= |s.log| then s
      else
        var issuer := if s.log[step.cert].pathLen > 0 then Intermediate(step.cert) else NoIssuer;
        s.(nodes := s.nodes[step.n := Node(issuer, map[])])
    else if step.n !in s.nodes then s
    else
      var node := s.nodes[step.n];
      match step
      case Register(n, id, trustRoot, url) => WithRegistries(s, n, DoRegister(node.registries, id, trustRoot, url))
      case Approve(n, id) => WithRegistries(s, n, DoSetStatus(node.registries, id, Active))
      case Suspend(n, id) => WithRegistries(s, n, DoSetStatus(node.registries, id, Suspended))
      case UpdateMaxPathLen(n, id, k) => WithRegistries(s, n, DoUpdateMaxPathLen(node.registries, id, k))
      case IssueCA(n, id) =>
        if id !in node.registries || CertFor(s.log, node.issuer, node.registries[id]).None? then s
        else
          var rs := node.registries[id := node.registries[id].(intermediateCA := Some(|s.log|))];
          WithRegistries(s, n, rs).(log := s.log + [CertFor(s.log, node.issuer, node.registries[id]).value])
  }

  predicate IssuersKnown(s: World) {
    forall n | n in s.nodes && s.nodes[n].issuer.Intermediate? :: s.nodes[n].issuer.cert < |s.log|
  }

  ghost predicate DepthsOk(s: World) {
    forall n, id | n in s.nodes && id in s.nodes[n].registries ::
      0 <= s.nodes[n].registries[id].maxPathLen <= MAX_ALLOWED_PATH_LEN
  }

  /** A certificate of the log: in range, and below its issuer. */
  predicate CertOk(log: Log, i: nat)
    requires i < |log|
  {
    && 0 <= log[i].pathLen <= MAX_ALLOWED_PATH_LEN
    && (log[i].issuer.Some? ==> log[i].issuer.value < i && log[i].pathLen < log[log[i].issuer.value].pathLen)
  }

  ghost predicate LogOk(log: Log) { forall i | 0 <= i < |log| :: CertOk(log, i) }

  ghost predicate Inv(s: World) { IssuersKnown(s) && DepthsOk(s) && LogOk(s.log) }

  lemma IssuedOk(s: World, n: NodeId, id: RegId)
    requires Inv(s) && n in s.nodes && id in s.nodes[n].registries
    requires CertFor(s.log, s.nodes[n].issuer, s.nodes[n].registries[id]).Some?
    ensures LogOk(s.log + [CertFor(s.log, s.nodes[n].issuer, s.nodes[n].registries[id]).value])
  {
    var log' := s.log + [CertFor(s.log, s.nodes[n].issuer, s.nodes[n].registries[id]).value];
    forall i | 0 <= i < |log'| ensures CertOk(log', i) {
      if i < |s.log| { assert CertOk(s.log, i); }
    }
  }

  lemma NextKeepsInv(s: World, step: Step)
    requires Inv(s)
    ensures Inv(Next(s, step))
  {
    if step.IssueCA? && step.n in s.nodes && step.id in s.nodes[step.n].registries
       && CertFor(s.log, s.nodes[step.n].issuer, s.nodes[step.n].registries[step.id]).Some? {
      IssuedOk(s, step.n, step.id);
    }
  }

  /** Any sequence of steps; a step that cannot be taken changes nothing. */
  function Run(s: World, steps: seq<Step>): (s': World)
    requires IssuersKnown(s)
    ensures IssuersKnown(s') && s.log <= s'.log
    decreases |steps|
  {
    if steps == [] then s else Run(Next(s, steps[0]), steps[1..])
  }

  const INIT: World := World(map[0 := Node(RootCA, map[])], [])

  lemma {:induction false} RunKeepsInv(s: World, steps: seq<Step>)
    requires Inv(s)
    ensures Inv(Run(s, steps))
    decreases |steps|
  {
    if steps != [] {
      NextKeepsInv(s, steps[0]);
      RunKeepsInv(Next(s, steps[0]), steps[1..]);
    }
  }

  // ------------------------------------------------------- chains

  /** The certificates from just below the root CA down to certificate i. */
  function Chain(log: Log, i: nat): (chain: seq<Cert>)
    requires LogOk(log) && i < |log|
    ensures chain != [] && chain[|chain| - 1] == log[i]
    decreases i
  {
    assert CertOk(log, i);
    if log[i].issuer.None? then [log[i]] else Chain(log, log[i].issuer.value) + [log[i]]
  }

  predicate Decreasing(chain: seq<Cert>) {
    && (forall k | 0 <= k < |chain| :: 0 <= chain[k].pathLen <= MAX_ALLOWED_PATH_LEN)
    && forall k | 0 < k < |chain| :: chain[k].pathLen < chain[k - 1].pathLen
  }

  lemma {:induction false} ChainDecreasing(log: Log, i: nat)
    requires LogOk(log) && i < |log|
    ensures Decreasing(Chain(log, i))
    decreases i
  {
    assert CertOk(log, i);
    if log[i].issuer.Some? { ChainDecreasing(log, log[i].issuer.value); }
  }

  /** What is below a certificate fits into its path length. */
  lemma {:induction false} RoomBelow(chain: seq<Cert>, k: nat)
    requires Decreasing(chain) && k < |chain|
    ensures |chain| - 1 - k <= chain[k].pathLen
    decreases |chain| - k
  {
    if k < |chain| - 1 { RoomBelow(chain, k + 1); }
  }

  /** Path validation of section 6.1 of RFC 5280 as far as path lengths go, over the CA
      certificates of a path: each certificate that is not self-issued uses up one unit, then
      a certificate's own constraint may lower what is left. */
  predicate PathLengthsValid(cas: seq<Cert>, above: Option<string>, maxPathLength: int) {
    cas == [] ||
    var selfIssued := above == Some(cas[0].subject);
    var left := if selfIssued then maxPathLength else maxPathLength - 1;
    (selfIssued || maxPathLength > 0)
    && PathLengthsValid(cas[1..], Some(cas[0].subject),
                        if cas[0].pathLen >= 0 && cas[0].pathLen < left then cas[0].pathLen else left)
  }

  lemma {:induction false} DecreasingIsValid(cas: seq<Cert>, above: Option<string>, max: int)
    requires Decreasing(cas) && max >= |cas|
    ensures PathLengthsValid(cas, above, max)
  {
    if cas != [] {
      RoomBelow(cas, 0);
      var left := if above == Some(cas[0].subject) then max else max - 1;
      DecreasingIsValid(cas[1..], Some(cas[0].subject), if cas[0].pathLen < left then cas[0].pathLen else left);
    }
  }

  /** The check of Go's verifier: no certificate has more intermediates below it than its
      path length allows. */
  predicate GoPathLengthsOk(cas: seq<Cert>) {
    forall k | 0 <= k < |cas| :: cas[k].pathLen >= 0 ==> |cas| - 1 - k <= cas[k].pathLen
  }

  lemma {:induction false} ChainStable(log: Log, log': Log, i: nat)
    requires LogOk(log) && LogOk(log') && log <= log' && i < |log|
    ensures Chain(log', i) == Chain(log, i)
    decreases i
  {
    assert CertOk(log, i);
    if log[i].issuer.Some? { ChainStable(log, log', log[i].issuer.value); }
  }

  /** Delegation depth over whole runs. After any steps of the federation, every issued
      chain has strictly decreasing path lengths in 0..2 and at most three intermediates,
      passes the path-length processing of RFC 5280 with a leaf appended (the path then has
      one certificate more than the chain) and Go's check; and it is the same chain after any
      further steps, whatever depths are changed. */
  lemma DelegationDepth(before: seq<Step>, after: seq<Step>, i: nat)
    requires i < |Run(INIT, before).log|
    ensures LogOk(Run(INIT, before).log) && LogOk(Run(Run(INIT, before), after).log)
    ensures var s := Run(INIT, before);
            var chain := Chain(s.log, i);
            && Decreasing(chain) && |chain| <= 3
            && PathLengthsValid(chain, None, |chain| + 1) && GoPathLengthsOk(chain)
            && Chain(Run(s, after).log, i) == chain
  {
    RunKeepsInv(INIT, before);
    var s := Run(INIT, before);
    RunKeepsInv(s, after);
    var chain := Chain(s.log, i);
    ChainDecreasing(s.log, i);
    RoomBelow(chain, 0);
    DecreasingIsValid(chain, None, |chain| + 1);
    forall k | 0 <= k < |chain| ensures |chain| - 1 - k <= chain[k].pathLen {
      RoomBelow(chain, k);
    }
    ChainStable(s.log, Run(s, after).log, i);
  }

  // ------------------------------------------------------- delegation is possible

  lemma {:induction false} RunConcat(s: World, a: seq<Step>, b: seq<Step>)
    requires IssuersKnown(s)
    ensures Run(s, a + b) == Run(Run(s, a), b)
    decreases |a|
  {
    if a == [] {
      assert a + b == b;
    } else {
      assert (a + b)[1..] == a[1..] + b;
      RunConcat(Next(s, a[0]), a[1..], b);
    }
  }

  predicate MayIssue(log: Log, issuer: Issuer, k: int) {
    match issuer
    case NoIssuer => false
    case RootCA => true
    case Intermediate(i) => i < |log| && k < log[i].pathLen
  }

  function NewCert(issuer: Issuer, trustRoot: string, k: int): Cert {
    Cert(if issuer.Intermediate? then Some(issuer.cert) else None, trustRoot, k)
  }

  /** A node can delegate every path length from 0 to 2 that is below its own: there is a run
      in which a new registry gets such a certificate. */
  lemma CanDelegate(s: World, n: NodeId, id: RegId, trustRoot: string, url: string, k: int) returns (steps: seq<Step>)
    requires Inv(s) && n in s.nodes && id !in s.nodes[n].registries && TrustRootFree(s.nodes[n].registries, trustRoot)
    requires trustRoot != "" && url != "" && 0 <= k <= MAX_ALLOWED_PATH_LEN && MayIssue(s.log, s.nodes[n].issuer, k)
    ensures Run(s, steps).nodes.Keys == s.nodes.Keys
    ensures Run(s, steps).log == s.log + [NewCert(s.nodes[n].issuer, trustRoot, k)]
  {
    var (a, b, c, d) := (Register(n, id, trustRoot, url), Approve(n, id), UpdateMaxPathLen(n, id, k), IssueCA(n, id));
    var s1 := Next(s, a);
    assert Holds(s, s1, n, id, Registry(trustRoot, url, None, 0, Pending));
    var s2 := Next(s1, b);
    assert Holds(s, s2, n, id, Registry(trustRoot, url, None, 0, Active));
    var s3 := Next(s2, c);
    assert Holds(s, s3, n, id, Registry(trustRoot, url, None, k, Active));
    CanIssue(s3, n, id);
    steps := [a, b, c, d];
    assert steps[1..] == [b, c, d] && steps[1..][1..] == [c, d] && steps[1..][1..][1..] == [d];
    assert Run(s, steps) == Run(s1, [b, c, d]) == Run(s2, [c, d]) == Run(s3, [d]);
    OneStep(s3, d);
  }

  lemma OneStep(s: World, step: Step)
    requires IssuersKnown(s)
    ensures Run(s, [step]) == Next(s, step)
  {
    assert [step][1..] == [];
  }

  /** The node has this row and is otherwise as it was. */
  predicate Holds(s: World, s': World, n: NodeId, id: RegId, r: Registry) {
    && s'.log == s.log && n in s.nodes && n in s'.nodes && s'.nodes.Keys == s.nodes.Keys
    && s'.nodes[n].issuer == s.nodes[n].issuer && id in s'.nodes[n].registries && s'.nodes[n].registries[id] == r
  }

  lemma CanIssue(s: World, n: NodeId, id: RegId)
    requires IssuersKnown(s) && n in s.nodes && id in s.nodes[n].registries
    requires var r := s.nodes[n].registries[id];
             r.status == Active && 0 <= r.maxPathLen && MayIssue(s.log, s.nodes[n].issuer, r.maxPathLen)
    ensures var (r, s') := (s.nodes[n].registries[id], Next(s, IssueCA(n, id)));
            && s'.nodes.Keys == s.nodes.Keys
            && s'.log == s.log + [NewCert(s.nodes[n].issuer, r.trustRoot, r.maxPathLen)]
  {
    var r := s.nodes[n].registries[id];
    assert CertFor(s.log, s.nodes[n].issuer, r) == Some(NewCert(s.nodes[n].issuer, r.trustRoot, r.maxPathLen));
  }

  /** A registry with a positive path length passes certificate authority on once more: a
      new registry joins with its certificate and delegates. */
  lemma CanSubDelegate(s: World, n: NodeId, cert: nat, trustRoot: string, k: int) returns (steps: seq<Step>)
    requires Inv(s) && n !in s.nodes && cert < |s.log| && trustRoot != ""
    requires 0 <= k < s.log[cert].pathLen <= MAX_ALLOWED_PATH_LEN
    ensures Run(s, steps).nodes.Keys == s.nodes.Keys + {n}
    ensures Run(s, steps).log == s.log + [Cert(Some(cert), trustRoot, k)]
  {
    var join := Join(n, cert);
    var joined := Next(s, join);
    NextKeepsInv(s, join);
    var more := CanDelegate(joined, n, 0, trustRoot, "url", k);
    OneStep(s, join);
    RunConcat(s, [join], more);
    steps := [join] + more;
  }

  /** The bound of three intermediates is attained. */
  lemma ThreeLevelsReachable() returns (steps: seq<Step>)
    ensures var log := Run(INIT, steps).log; LogOk(log) && |log| == 3 && |Chain(log, 2)| == 3
  {
    var a := CanDelegate(INIT, 0, 0, "a", "url", 2);
    var s1 := Run(INIT, a);
    RunKeepsInv(INIT, a);
    assert 1 !in s1.nodes.Keys && 2 !in s1.nodes.Keys;
    var b := CanSubDelegate(s1, 1, 0, "b", 1);
    var s2 := Run(s1, b);
    RunKeepsInv(s1, b);
    assert 2 !in s2.nodes.Keys;
    var c := CanSubDelegate(s2, 2, 1, "c", 0);
    RunKeepsInv(s2, c);
    RunConcat(INIT, a, b);
    RunConcat(INIT, a + b, c);
    steps := a + b + c;
    ThreeCerts(Run(s2, c).log);
  }

  lemma ThreeCerts(log: Log)
    requires LogOk(log) && |log| == 3 && log[0].issuer == None && log[1].issuer == Some(0) && log[2].issuer == Some(1)
    ensures |Chain(log, 2)| == 3
  {
    assert |Chain(log, 0)| == 1;
    assert |Chain(log, 1)| == 2;
  }

  // ------------------------------------------------------- approval

  lemma RunMore(s: World, steps: seq<Step>, step: Step)
    requires IssuersKnown(s)
    ensures Run(s, steps + [step]) == Next(Run(s, steps), step)
  {
    RunConcat(s, steps, [step]);
    OneStep(Run(s, steps), step);
  }

  /** The row of a registry at a node, while there is one. */
  predicate HasRow(s: World, n: NodeId, id: RegId) { n in s.nodes && id in s.nodes[n].registries }

  /** The only step that issues: an IssueCA for a registry whose row is active. The certificate
      names the registry's trust root and carries its depth, and is signed with what the node
      has to sign with. */
  lemma OnlyActiveIssues(s: World, step: Step)
    requires IssuersKnown(s) && Next(s, step).log != s.log
    ensures step.IssueCA? && HasRow(s, step.n, step.id)
    ensures var (r, issuer) := (s.nodes[step.n].registries[step.id], s.nodes[step.n].issuer);
            && r.status == Active && issuer != NoIssuer
            && Next(s, step).log == s.log
               + [Cert(if issuer == RootCA then None else Some(issuer.cert), r.trustRoot, r.maxPathLen)]
            && (issuer.Intermediate? ==> s.log[issuer.cert].pathLen > r.maxPathLen && s.log[issuer.cert].pathLen > 0)
  {
  }

  /** What makes a row active, and what keeps it so. */
  lemma ActiveByApproval(s: World, step: Step, n: NodeId, id: RegId)
    requires IssuersKnown(s) && HasRow(Next(s, step), n, id) && Next(s, step).nodes[n].registries[id].status == Active
    ensures step == Approve(n, id)
            || (step != Suspend(n, id) && HasRow(s, n, id) && s.nodes[n].registries[id].status == Active)
  {
  }

  /** An active registry was approved, and not suspended since. */
  lemma {:induction false} ActiveWasApproved(start: World, steps: seq<Step>, n: NodeId, id: RegId) returns (j: nat)
    requires start == INIT
    requires var s := Run(start, steps); HasRow(s, n, id) && s.nodes[n].registries[id].status == Active
    ensures j < |steps| && steps[j] == Approve(n, id) && forall m | j < m < |steps| :: steps[m] != Suspend(n, id)
    decreases |steps|
  {
    if steps == [] { assert false; }
    var (before, last) := (steps[..|steps| - 1], steps[|steps| - 1]);
    assert steps == before + [last];
    RunMore(start, before, last);
    ActiveByApproval(Run(start, before), last, n, id);
    if last == Approve(n, id) {
      j := |before|;
    } else {
      j := ActiveWasApproved(start, before, n, id);
    }
  }

  /** The step that issued certificate i of a run. */
  lemma {:induction false} IssuedAt(start: World, steps: seq<Step>, i: nat) returns (k: nat)
    requires start == INIT && i < |Run(start, steps).log|
    ensures k < |steps| && |Run(start, steps[..k]).log| == i
    ensures var log := Next(Run(start, steps[..k]), steps[k]).log; |log| > i && log <= Run(start, steps).log
    decreases |steps|
  {
    if steps == [] { assert false; }
    var (before, last) := (steps[..|steps| - 1], steps[|steps| - 1]);
    assert steps == before + [last];
    RunMore(start, before, last);
    if i < |Run(start, before).log| {
      k := IssuedAt(start, before, i);
      assert before[..k] == steps[..k];
    } else {
      k := |before|;
      LogGrowsByOne(Run(start, before), last);
    }
  }

  lemma LogGrowsByOne(s: World, step: Step)
    requires IssuersKnown(s)
    ensures |Next(s, step).log| <= |s.log| + 1
  {
  }

  /** Approval over whole runs. Behind every certificate there is a step that issued it, to a
      registry that the node approved before and did not suspend in between: a registry never
      approved, or suspended and not approved since, gets none. */
  lemma CertsAreApproved(steps: seq<Step>, i: nat) returns (j: nat, k: nat)
    requires i < |Run(INIT, steps).log|
    ensures j < k < |steps| && steps[k].IssueCA? && steps[j] == Approve(steps[k].n, steps[k].id)
    ensures forall m | j < m < k :: steps[m] != Suspend(steps[k].n, steps[k].id)
    ensures var s := Run(INIT, steps[..k]);
            && |s.log| == i && HasRow(s, steps[k].n, steps[k].id)
            && var (r, c) := (s.nodes[steps[k].n].registries[steps[k].id], Run(INIT, steps).log[i]);
               r.status == Active && c.subject == r.trustRoot && c.pathLen == r.maxPathLen
  {
    k := IssuedAt(INIT, steps, i);
    OnlyActiveIssues(Run(INIT, steps[..k]), steps[k]);
    j := ActiveWasApproved(INIT, steps[..k], steps[k].n, steps[k].id);
  }

  /** No two registries of a node have the same trust root, and none has an empty one; so the
      lookup by trust root finds the registry there is. */
  predicate UniqueIn(rs: Registries) {
    && (forall i | i in rs :: rs[i].trustRoot != "")
    && forall i, j | i in rs && j in rs && i != j :: rs[i].trustRoot != rs[j].trustRoot
  }

  ghost predicate RootsUnique(s: World) { forall n | n in s.nodes :: UniqueIn(s.nodes[n].registries) }

  /** The same registries with the same trust roots. */
  predicate SameRoots(rs: Registries, rs': Registries) {
    rs'.Keys == rs.Keys && forall i | i in rs :: rs'[i].trustRoot == rs[i].trustRoot
  }

  lemma StepKeepsRoots(s: World, step: Step, n: NodeId)
    requires IssuersKnown(s) && n in s.nodes && !step.Register?
    ensures n in Next(s, step).nodes && SameRoots(s.nodes[n].registries, Next(s, step).nodes[n].registries)
  {
  }

  lemma RegisterKeepsUnique(rs: Registries, id: RegId, trustRoot: string, url: string)
    requires UniqueIn(rs)
    ensures UniqueIn(DoRegister(rs, id, trustRoot, url))
  {
  }

  lemma NextKeepsRoots(s: World, step: Step)
    requires IssuersKnown(s) && RootsUnique(s)
    ensures RootsUnique(Next(s, step))
  {
    forall n | n in Next(s, step).nodes ensures UniqueIn(Next(s, step).nodes[n].registries) {
      if step.Register? {
        assert UniqueIn(s.nodes[n].registries);
        RegisterKeepsUnique(s.nodes[n].registries, step.id, step.trustRoot, step.url);
      } else if n in s.nodes {
        assert UniqueIn(s.nodes[n].registries);
        StepKeepsRoots(s, step, n);
      }
    }
  }

  lemma {:induction false} RootsStayUnique(s: World, steps: seq<Step>)
    requires IssuersKnown(s) && RootsUnique(s)
    ensures RootsUnique(Run(s, steps))
    decreases |steps|
  {
    if steps != [] {
      NextKeepsRoots(s, steps[0]);
      RootsStayUnique(Next(s, steps[0]), steps[1..]);
    }
  }

  /** What the issuing function accepts: from the root any length but those that cannot be
      encoded, with an intermediate only lengths below a positive one of its own. */
  lemma IssuesIff(log: Log, issuer: Issuer, org: string, maxPathLen: int)
    requires issuer.Intermediate? ==> issuer.cert < |log|
    ensures IssueIntermediateCert(log, issuer, org, maxPathLen).Some? <==>
            || (issuer == RootCA && maxPathLen >= -1)
            || (issuer.Intermediate? && log[issuer.cert].pathLen > 0 && -1 <= maxPathLen < log[issuer.cert].pathLen)
  {
  }

  // ------------------------------------------------------- bounds and verification

  /** The bound comes from the depth column alone: issuing keeps the log in order exactly
      when the requested path length is not the -1 that stands for "no constraint" (and, from
      the root, is within the allowed depth). */
  lemma IssueKeepsLogIff(log: Log, issuer: Issuer, org: string, maxPathLen: int)
    requires LogOk(log) && (issuer.Intermediate? ==> issuer.cert < |log|)
    requires IssueIntermediateCert(log, issuer, org, maxPathLen).Some?
    ensures LogOk(log + [IssueIntermediateCert(log, issuer, org, maxPathLen).value])
            <==> maxPathLen >= 0 && (issuer == RootCA ==> maxPathLen <= MAX_ALLOWED_PATH_LEN)
  {
    var log' := log + [IssueIntermediateCert(log, issuer, org, maxPathLen).value];
    forall i | 0 <= i < |log| ensures CertOk(log', i) {
      assert CertOk(log, i);
    }
    if issuer.Intermediate? { assert CertOk(log, issuer.cert); }
    assert LogOk(log') <==> CertOk(log', |log|);
  }

  // ------------------------------------------------------- verification

  datatype Authority = RootAuthority | Issued(cert: nat)

  predicate Known(log: Log, a: Authority) { a.Issued? ==> a.cert < |log| }

  /** Who signed the certificate of an authority; nobody else that of the root CA. */
  function SignerOf(log: Log, a: Authority): Option<Authority>
    requires Known(log, a)
  {
    match a
    case RootAuthority => None
    case Issued(i) => Some(if log[i].issuer.Some? then Issued(log[i].issuer.value) else RootAuthority)
  }

  /** The authorities above a leaf, from its signer up to a trusted root, each below the root
      taken from the pool of intermediates and none with more below it than its path length
      allows. */
  predicate TrustPath(log: Log, path: seq<Authority>, intermediates: set<Authority>, roots: set<Authority>) {
    && path != [] && (forall k | 0 <= k < |path| :: Known(log, path[k]))
    && path[|path| - 1] in roots
    && (forall k | 0 <= k < |path| - 1 :: path[k] in intermediates && SignerOf(log, path[k]) == Some(path[k + 1]))
    && forall k | 0 <= k < |path| && path[k].Issued? ::
         log[path[k].cert].pathLen >= 0 ==> k <= log[path[k].cert].pathLen
  }

  /** What certificate verification decides for a leaf signed by an authority: whether there
      is such a path. */
  ghost predicate Accepts(log: Log, signer: Authority, intermediates: set<Authority>, roots: set<Authority>) {
    exists path :: TrustPath(log, path, intermediates, roots) && path[0] == signer
  }

  /** A federated registry, whose only intermediate is its own certificate, accepts the leaves
      it signed exactly when its trust anchor is the direct issuer of that certificate or the
      certificate itself; anchored at the root CA, that fails for every sub-delegated
      registry. */
  lemma OwnLeafIff(log: Log, anchor: Authority, own: nat)
    requires LogOk(log) && own < |log| && Known(log, anchor)
    ensures Accepts(log, Issued(own), {Issued(own)}, {anchor})
            <==> anchor == Issued(own) || SignerOf(log, Issued(own)) == Some(anchor)
    ensures Accepts(log, Issued(own), {Issued(own)}, {RootAuthority}) <==> |Chain(log, own)| == 1
  {
    OwnPath(log, anchor, own);
    OwnPath(log, RootAuthority, own);
    assert CertOk(log, own);
  }

  lemma OwnPath(log: Log, anchor: Authority, own: nat)
    requires LogOk(log) && own < |log| && Known(log, anchor)
    ensures Accepts(log, Issued(own), {Issued(own)}, {anchor})
            <==> anchor == Issued(own) || SignerOf(log, Issued(own)) == Some(anchor)
  {
    var pool := {Issued(own)};
    assert CertOk(log, own);
    if anchor == Issued(own) {
      assert TrustPath(log, [Issued(own)], pool, {anchor});
    } else if SignerOf(log, Issued(own)) == Some(anchor) {
      assert TrustPath(log, [Issued(own), anchor], pool, {anchor});
    }
    if path :| TrustPath(log, path, pool, {anchor}) && path[0] == Issued(own) {
      PathFromOwn(log, path, anchor, own);
    }
  }

  lemma PathFromOwn(log: Log, path: seq<Authority>, anchor: Authority, own: nat)
    requires LogOk(log) && TrustPath(log, path, {Issued(own)}, {anchor}) && path[0] == Issued(own)
    ensures anchor == Issued(own) || SignerOf(log, Issued(own)) == Some(anchor)
  {
    assert CertOk(log, own);
    assert SignerOf(log, Issued(own)) != Some(Issued(own));
    var second := if |path| > 1 then path[1] else anchor;
    assert |path| > 1 ==> SignerOf(log, path[0]) == Some(second);
  }

  /** The authorities from a certificate up to the root CA. */
  function PathUp(log: Log, i: nat): (path: seq<Authority>)
    requires LogOk(log) && i < |log|
    ensures path != [] && path[0] == Issued(i)
    decreases i
  {
    assert CertOk(log, i);
    [Issued(i)] + if log[i].issuer.None? then [RootAuthority] else PathUp(log, log[i].issuer.value)
  }

  function AllIntermediates(log: Log): set<Authority> { set i: nat | i < |log| :: Issued(i) }

  lemma {:induction false} PathUpTrusted(log: Log, i: nat)
    requires LogOk(log) && i < |log|
    ensures TrustPath(log, PathUp(log, i), AllIntermediates(log), {RootAuthority})
    ensures forall k | 0 <= k < |PathUp(log, i)| && PathUp(log, i)[k].Issued? ::
              Known(log, PathUp(log, i)[k]) && k + log[i].pathLen <= log[PathUp(log, i)[k].cert].pathLen
    decreases i
  {
    assert CertOk(log, i);
    if log[i].issuer.Some? {
      var j := log[i].issuer.value;
      PathUpTrusted(log, j);
      var (path, rest) := (PathUp(log, i), PathUp(log, j));
      assert path == [Issued(i)] + rest;
      forall k | 0 <= k < |path| && path[k].Issued?
        ensures Known(log, path[k]) && k + log[i].pathLen <= log[path[k].cert].pathLen
      {
        if k > 0 { assert path[k] == rest[k - 1]; }
      }
    }
  }

  /** It is the pool that is too small: with all certificates as intermediates, the leaves of
      every registry verify up to the root CA. */
  lemma FullPoolAccepts(log: Log, own: nat)
    requires LogOk(log) && own < |log|
    ensures Accepts(log, Issued(own), AllIntermediates(log), {RootAuthority})
  {
    PathUpTrusted(log, own);
  }
}
