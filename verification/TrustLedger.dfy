/** The append-only hash chain: entry encoding, chain verification, tamper evidence,
    and the in-memory ledger. SHA-256 is a parameter about which nothing is assumed. */
module TrustLedger {
  import opened Strings

  predicate IsHex(c: char) { '0' <= c <= '9' || 'a' <= c <= 'f' }

  predicate IsDigest(s: string) { |s| == 64 && '|' !in s && forall c | c in s :: IsHex(c) }

  function Zeros(n: nat): (s: string)
    ensures |s| == n && forall c | c in s :: c == '0'
  {
    seq(n, i => '0')
  }

  /** Hex-encoded SHA-256 output. */
  type Digest = s: string | IsDigest(s) witness Zeros(64)

  type Hasher = string -> Digest

  /** Text of a timestamp in RFC 3339 form; it never holds the field separator. */
  type Timestamp = s: string | '|' !in s witness ""

  const GENESIS_HASH: Digest := Zeros(64)

  datatype Entry = Entry(
    index: int, timestamp: Timestamp, agentURI: string, action: string, actor: string,
    dataHash: string, prevHash: string, hash: string)

  function Fields(e: Entry): seq<string> {
    [Decimal(e.index), e.timestamp, e.agentURI, e.action, e.actor, e.dataHash, e.prevHash]
  }

  /** The text that is hashed for an entry. */
  function Encode(e: Entry): string { Join(Fields(e), '|') }

  // ------------------------------------------------------- the encoding

  lemma JoinMore(first: string, rest: seq<string>, d: char)
    requires rest != []
    ensures Join([first] + rest, d) == first + [d] + Join(rest, d)
  {
    assert ([first] + rest)[1..] == rest;
  }

  /** The hashed text, column by column. */
  lemma EncodeText(e: Entry)
    ensures Encode(e) ==
            Decimal(e.index) + ("|" + (e.timestamp + ("|" + (e.agentURI + ("|" + (e.action + ("|" + (e.actor
            + ("|" + (e.dataHash + ("|" + e.prevHash)))))))))))
  {
    var rest := [e.agentURI, e.action, e.actor, e.dataHash, e.prevHash];
    RestText(e.agentURI, e.action, e.actor, e.dataHash, e.prevHash);
    JoinMore(e.timestamp, rest, '|');
    JoinMore(Decimal(e.index), [e.timestamp] + rest, '|');
    assert [Decimal(e.index)] + ([e.timestamp] + rest) == Fields(e);
  }

  lemma RestText(u: string, a: string, c: string, d: string, p: string)
    ensures Join([u, a, c, d, p], '|') == u + ("|" + (a + ("|" + (c + ("|" + (d + ("|" + p)))))))
  {
    JoinTwo(d, p, '|');
    JoinMore(c, [d, p], '|');
    JoinMore(a, [c] + [d, p], '|');
    JoinMore(u, [a] + ([c] + [d, p]), '|');
    assert [u] + ([a] + ([c] + [d, p])) == [u, a, c, d, p];
  }

  /** No text column of the entry holds the separator. */
  predicate SeparatorFree(e: Entry) {
    '|' !in e.agentURI && '|' !in e.action && '|' !in e.actor && '|' !in e.dataHash
  }

  lemma FieldsSeparatorFree(e: Entry)
    requires '|' !in e.prevHash
    ensures SeparatorFree(e) <==> forall p | p in Fields(e) :: '|' !in p
  {
  }

  /** The encoding of a separator-free entry determines every hashed field, even against
      entries that are not separator-free. */
  lemma EncodingInjective(e: Entry, f: Entry)
    requires SeparatorFree(e) && '|' !in e.prevHash && '|' !in f.prevHash
    requires Encode(e) == Encode(f)
    ensures e.(hash := f.hash) == f
  {
    FieldsSeparatorFree(e);
    FieldsSeparatorFree(f);
    JoinCount(Fields(e), '|');
    JoinCount(Fields(f), '|');
    SplitJoin(Fields(e), '|');
    SplitJoin(Fields(f), '|');
    var fs, gs := Fields(e), Fields(f);
    assert fs[0] == gs[0] && fs[1] == gs[1] && fs[2] == gs[2] && fs[3] == gs[3];
    assert fs[4] == gs[4] && fs[5] == gs[5] && fs[6] == gs[6];
    DecimalInjective(e.index, f.index);
  }

  /** Another reading of an ambiguous entry: the first ambiguous column is cut at its first
      separator and the other columns move along. */
  function Reread(e: Entry): Entry
    requires !SeparatorFree(e)
  {
    var (u, a, c, d) := (e.agentURI, e.action, e.actor, e.dataHash);
    if '|' in u then
      var i := Index(u, '|');
      e.(agentURI := u[..i], action := u[i + 1..], actor := a, dataHash := c + "|" + d)
    else if '|' in a then
      var i := Index(a, '|');
      e.(action := a[..i], actor := a[i + 1..], dataHash := c + "|" + d)
    else if '|' in c then
      var i := Index(c, '|');
      e.(actor := c[..i], dataHash := c[i + 1..] + "|" + d)
    else
      var i := Index(d, '|');
      e.(agentURI := u + "|" + a, action := c, actor := d[..i], dataHash := d[i + 1..])
  }

  /** fs is longer with columns j and j + 1 joined. */
  predicate Joined(longer: seq<string>, j: nat, fs: seq<string>)
    requires j + 1 < |longer|
  {
    fs == longer[..j] + [longer[j] + "|" + longer[j + 1]] + longer[j + 2..]
  }

  lemma SameText(longer: seq<string>, j: nat, k: nat, fs: seq<string>, gs: seq<string>)
    requires j + 1 < |longer| && k + 1 < |longer| && Joined(longer, j, fs) && Joined(longer, k, gs)
    ensures Join(fs, '|') == Join(gs, '|')
  {
    JoinMerge(longer, j, '|');
    JoinMerge(longer, k, '|');
  }

  lemma JoinedLists(n: string, t: string, u: string, a: string, c: string, x: string, d: string, p: string)
    ensures var longer := [n, t, u, a, c, x, d, p];
            && Joined(longer, 2, [n, t, u + "|" + a, c, x, d, p])
            && Joined(longer, 3, [n, t, u, a + "|" + c, x, d, p])
            && Joined(longer, 4, [n, t, u, a, c + "|" + x, d, p])
            && Joined(longer, 5, [n, t, u, a, c, x + "|" + d, p])
  {
  }

  lemma RereadSameText(e: Entry)
    requires !SeparatorFree(e)
    ensures Encode(Reread(e)) == Encode(e) && Reread(e) != e
  {
    var f := Reread(e);
    var (n, t, u, a, c, d, p) := (Decimal(e.index), e.timestamp, e.agentURI, e.action, e.actor, e.dataHash, e.prevHash);
    if '|' in u {
      CutAtIndex(u, '|');
      var i := Index(u, '|');
      JoinedLists(n, t, u[..i], u[i + 1..], a, c, d, p);
      SameText([n, t, u[..i], u[i + 1..], a, c, d, p], 2, 5, Fields(e), Fields(f));
    } else if '|' in a {
      CutAtIndex(a, '|');
      var i := Index(a, '|');
      JoinedLists(n, t, u, a[..i], a[i + 1..], c, d, p);
      SameText([n, t, u, a[..i], a[i + 1..], c, d, p], 3, 5, Fields(e), Fields(f));
    } else if '|' in c {
      CutAtIndex(c, '|');
      var i := Index(c, '|');
      JoinedLists(n, t, u, a, c[..i], c[i + 1..], d, p);
      SameText([n, t, u, a, c[..i], c[i + 1..], d, p], 4, 5, Fields(e), Fields(f));
    } else {
      CutAtIndex(d, '|');
      var i := Index(d, '|');
      JoinedLists(n, t, u, a, c, d[..i], d[i + 1..], p);
      SameText([n, t, u, a, c, d[..i], d[i + 1..], p], 5, 2, Fields(e), Fields(f));
    }
  }

  // ------------------------------------------------------- the chain

  /** What Verify accepts. An empty list is accepted, and indices are not looked at. */
  ghost predicate Verifies(h: Hasher, es: seq<Entry>) {
    && (es != [] ==> es[0].hash == GENESIS_HASH)
    && forall i | 0 < i < |es| :: Linked(h, es, i)
  }

  predicate Linked(h: Hasher, es: seq<Entry>, i: int)
    requires 0 < i < |es|
  {
    es[i].prevHash == es[i - 1].hash && es[i].hash == h(Encode(es[i]))
  }

  function Root(es: seq<Entry>): string {
    if es == [] then "" else es[|es| - 1].hash
  }

  /** Same length and the same entries from index 1 on. */
  predicate SameRecords(a: seq<Entry>, b: seq<Entry>) {
    |a| == |b| && forall i | 0 < i < |a| :: a[i] == b[i]
  }

  /** Where two ledgers exhibit that the hash function has been broken. */
  datatype Breach = NoBreach | Collision(i: nat, j: nat) | GenesisPreimageInA(i: nat) | GenesisPreimageInB(j: nat)

  /** Two different texts of entries of a and b with one hash, or the text of an entry that
      hashes to the genesis constant. */
  ghost predicate Breaks(h: Hasher, a: seq<Entry>, b: seq<Entry>, w: Breach) {
    match w
    case NoBreach => false
    case Collision(i, j) =>
      0 < i < |a| && 0 < j < |b| && Encode(a[i]) != Encode(b[j]) && h(Encode(a[i])) == h(Encode(b[j]))
    case GenesisPreimageInA(i) => 0 < i < |a| && h(Encode(a[i])) == GENESIS_HASH
    case GenesisPreimageInB(j) => 0 < j < |b| && h(Encode(b[j])) == GENESIS_HASH
  }

  lemma HashesAreDigests(h: Hasher, es: seq<Entry>, i: int)
    requires Verifies(h, es) && 0 <= i < |es|
    ensures IsDigest(es[i].hash)
  {
    if i > 0 { assert Linked(h, es, i); }
  }

  /** Tamper evidence, by backward induction from a shared root. A verified ledger whose
      columns are separator-free cannot be replaced by a different verified ledger with the
      same root unless entries of the two ledgers themselves exhibit a hash collision or a
      text hashing to the genesis constant; the lemma says which entries. */
  lemma {:induction false} TamperEvidence(h: Hasher, a: seq<Entry>, b: seq<Entry>) returns (w: Breach)
    requires Verifies(h, a) && Verifies(h, b) && Root(a) == Root(b)
    requires forall i | 0 < i < |a| :: SeparatorFree(a[i])
    ensures SameRecords(a, b) || Breaks(h, a, b, w)
  {
    w := NoBreach;
    if a != [] { HashesAreDigests(h, a, |a| - 1); }
    if b != [] { HashesAreDigests(h, b, |b| - 1); }
    var m, n := |a| - 1, |b| - 1;
    if m <= 0 && n <= 0 {
      return;
    } else if m <= 0 {
      assert Linked(h, b, n);
      return GenesisPreimageInB(n);
    } else if n <= 0 {
      assert Linked(h, a, m);
      return GenesisPreimageInA(m);
    }
    assert Linked(h, a, m) && Linked(h, b, n);
    if Encode(a[m]) != Encode(b[n]) {
      return Collision(m, n);
    }
    HashesAreDigests(h, a, m - 1);
    HashesAreDigests(h, b, n - 1);
    EncodingInjective(a[m], b[n]);
    PrefixVerifies(h, a);
    PrefixVerifies(h, b);
    w := TamperEvidence(h, a[..m], b[..n]);
    if !Breaks(h, a[..m], b[..n], w) {
      assert SameRecords(a[..m], b[..n]);
      forall i | 0 < i < |a| ensures a[i] == b[i] {
        if i < m { assert a[i] == a[..m][i] == b[..n][i] == b[i]; }
      }
    }
  }

  lemma PrefixVerifies(h: Hasher, es: seq<Entry>)
    requires Verifies(h, es) && es != []
    ensures Verifies(h, es[..|es| - 1])
  {
    var p := es[..|es| - 1];
    forall i | 0 < i < |p| ensures Linked(h, p, i) {
      assert Linked(h, es, i);
    }
  }

  /** An alteration that no hash computation can see: a different verified ledger, with the
      same root, whose entries all have the same text. */
  ghost predicate Forgery(h: Hasher, a: seq<Entry>, b: seq<Entry>) {
    && Verifies(h, b) && Root(b) == Root(a) && !SameRecords(a, b)
    && |a| == |b| && forall i | 0 < i < |a| :: Encode(a[i]) == Encode(b[i])
  }

  /** The exact condition: a verified ledger admits no such alteration if and only if none
      of its text columns holds the separator. */
  lemma ForgeableIff(h: Hasher, a: seq<Entry>)
    requires Verifies(h, a)
    ensures (forall b :: !Forgery(h, a, b)) <==> (forall i | 0 < i < |a| :: SeparatorFree(a[i]))
  {
    if forall i | 0 < i < |a| :: SeparatorFree(a[i]) {
      forall b ensures !Forgery(h, a, b) {
        if Forgery(h, a, b) {
          forall i | 0 < i < |a| ensures a[i] == b[i] {
            assert Linked(h, a, i) && Linked(h, b, i);
            HashesAreDigests(h, a, i - 1);
            HashesAreDigests(h, b, i - 1);
            EncodingInjective(a[i], b[i]);
          }
        }
      }
    }
    if i :| 0 < i < |a| && !SeparatorFree(a[i]) {
      assert Forgery(h, a, Forge(h, a, i));
    }
  }

  /** Replaces an ambiguous entry by its other reading. */
  lemma ForgeVerifies(h: Hasher, a: seq<Entry>, i: int)
    requires Verifies(h, a) && 0 < i < |a| && !SeparatorFree(a[i])
    ensures Forgery(h, a, a[i := Reread(a[i])])
  {
    var b := a[i := Reread(a[i])];
    RereadSameText(a[i]);
    forall j | 0 < j < |b| ensures Linked(h, b, j) {
      assert Linked(h, a, j);
    }
  }

  ghost function Forge(h: Hasher, a: seq<Entry>, i: int): (b: seq<Entry>)
    requires Verifies(h, a) && 0 < i < |a| && !SeparatorFree(a[i])
    ensures Forgery(h, a, b)
  {
    ForgeVerifies(h, a, i);
    a[i := Reread(a[i])]
  }

  // ------------------------------------------------------- appending

  /** One Append call; the payload is None when it cannot be marshalled. */
  datatype Request = Request(agentURI: string, action: string, actor: string, payload: Option<string>)

  function NewEntry(h: Hasher, index: int, prevHash: string, now: Timestamp, r: Request): Entry
    requires r.payload.Some?
  {
    var e := Entry(index, now, r.agentURI, r.action, r.actor, h(r.payload.value), prevHash, "");
    e.(hash := h(Encode(e)))
  }

  /** The ledger after an Append: unchanged when the payload cannot be marshalled. */
  function Appended(h: Hasher, es: seq<Entry>, now: Timestamp, r: Request): seq<Entry>
    requires es != []
  {
    if r.payload.None? then es
    else es + [NewEntry(h, |es|, es[|es| - 1].hash, now, r)]
  }

  /** An append adds one entry, and this is what it records: the next position, the clock
      reading, the request's own columns, the hash of its payload, the tail it is chained to,
      and the hash of its own text. Without a payload nothing is added. */
  lemma AppendedEntry(h: Hasher, es: seq<Entry>, now: Timestamp, r: Request)
    requires es != []
    ensures r.payload.None? ==> Appended(h, es, now, r) == es
    ensures r.payload.Some? ==>
              var es' := Appended(h, es, now, r);
              && |es'| == |es| + 1 && es'[..|es|] == es
              && var e := es'[|es|];
                 && e.index == |es| && e.timestamp == now
                 && e.agentURI == r.agentURI && e.action == r.action && e.actor == r.actor
                 && e.dataHash == h(r.payload.value)
                 && e.prevHash == es[|es| - 1].hash && e.hash == h(Encode(e))
  {
    if r.payload.Some? {
      var e := Appended(h, es, now, r)[|es|];
      EncodeIgnoresHash(e, "");
    }
  }

  predicate IsGenesis(e: Entry) {
    e.index == 0 && e.hash == GENESIS_HASH && e.prevHash == GENESIS_HASH && e.dataHash == GENESIS_HASH
    && e.action == "genesis" && e.actor == "nexus-system" && e.agentURI == ""
  }

  /** A chain that some sequence of appends can have built. */
  ghost predicate WellFormed(h: Hasher, es: seq<Entry>) {
    && es != [] && IsGenesis(es[0]) && Verifies(h, es)
    && forall i | 0 <= i < |es| :: es[i].index == i
  }

  lemma EncodeIgnoresHash(e: Entry, x: string)
    ensures Encode(e.(hash := x)) == Encode(e)
  {
  }

  /** Appending keeps the chain verified and the indices contiguous, and leaves every
      earlier entry in place; the new entry is tamper-evident exactly when the URI, action
      and actor it was given are separator-free. */
  lemma AppendKeepsChain(h: Hasher, es: seq<Entry>, now: Timestamp, r: Request)
    requires WellFormed(h, es)
    ensures var es' := Appended(h, es, now, r);
            && WellFormed(h, es') && es <= es'
            && (r.payload.Some? ==>
                (SeparatorFree(es'[|es|]) <==> '|' !in r.agentURI && '|' !in r.action && '|' !in r.actor))
  {
    var es' := Appended(h, es, now, r);
    if r.payload.Some? {
      var e := es'[|es|];
      EncodeIgnoresHash(e, "");
      assert e.hash == h(Encode(e));
      forall i | 0 < i < |es'| ensures Linked(h, es', i) {
        if i < |es| { assert Linked(h, es, i); }
      }
    }
  }

  /** Everything but the index and what follows from it. */
  predicate SameContents(e: Entry, f: Entry) {
    e == f.(index := e.index, prevHash := e.prevHash, hash := e.hash)
  }

  /** An entry given another index and predecessor and hashed again. */
  function Rehashed(h: Hasher, e: Entry, index: int, prevHash: string): (r: Entry)
    ensures r.index == index && r.prevHash == prevHash && r.hash == h(Encode(r)) && SameContents(r, e)
  {
    var linked := e.(index := index, prevHash := prevHash);
    EncodeIgnoresHash(linked, h(Encode(linked)));
    linked.(hash := h(Encode(linked)))
  }

  /** A chain given other indices and hashed again. */
  function Reindexed(h: Hasher, es: seq<Entry>, indices: seq<int>): (r: seq<Entry>)
    requires |indices| == |es|
    ensures |r| == |es|
  {
    if es == [] then []
    else
      var n := |es| - 1;
      var before := Reindexed(h, es[..n], indices[..n]);
      before + [if n == 0 then es[0].(index := indices[0]) else Rehashed(h, es[n], indices[n], before[n - 1].hash)]
  }

  lemma Extended(h: Hasher, es: seq<Entry>, e: Entry)
    requires Verifies(h, es) && es != [] && e.prevHash == es[|es| - 1].hash && e.hash == h(Encode(e))
    ensures Verifies(h, es + [e])
  {
    forall i | 0 < i <= |es| ensures Linked(h, es + [e], i) {
      if i < |es| { assert Linked(h, es, i); }
    }
  }

  /** Verify does not compare Index with the position: any verified chain with any indices in
      place of its own, hashed again, is a verified chain with the same contents. */
  lemma {:induction false} VerifyIgnoresIndex(h: Hasher, es: seq<Entry>, indices: seq<int>)
    requires Verifies(h, es) && |indices| == |es|
    ensures var r := Reindexed(h, es, indices);
            Verifies(h, r) && forall k | 0 <= k < |es| :: r[k].index == indices[k] && SameContents(r[k], es[k])
  {
    if es != [] {
      var n := |es| - 1;
      PrefixVerifies(h, es);
      VerifyIgnoresIndex(h, es[..n], indices[..n]);
      var before := Reindexed(h, es[..n], indices[..n]);
      if n > 0 {
        var e := Rehashed(h, es[n], indices[n], before[n - 1].hash);
        assert Reindexed(h, es, indices) == before + [e];
        Extended(h, before, e);
      }
    }
  }

  /** Only what follows a changed index is hashed anew. */
  lemma {:induction false} ReindexedPrefix(h: Hasher, es: seq<Entry>, indices: seq<int>, m: nat)
    requires Verifies(h, es) && |indices| == |es| && m <= |es| && forall k | 0 <= k < m :: es[k].index == indices[k]
    ensures Reindexed(h, es, indices)[..m] == es[..m]
  {
    if es != [] {
      var n := |es| - 1;
      PrefixVerifies(h, es);
      ReindexedPrefix(h, es[..n], indices[..n], if m <= n then m else n);
      if m == n + 1 && n > 0 {
        assert Linked(h, es, n);
        var linked := es[n].(index := indices[n], prevHash := es[n - 1].hash);
        EncodeIgnoresHash(es[n], h(Encode(linked)));
      }
    }
  }

  datatype VerifyResult = Intact | BadGenesis | Broken(index: int) | BadHash(index: int)

  /** The chain is in order up to position k. */
  predicate LinkedUpTo(h: Hasher, es: seq<Entry>, k: nat)
    requires k <= |es|
  {
    (k > 0 ==> es[0].hash == GENESIS_HASH) && forall j | 0 < j < k :: Linked(h, es, j)
  }

  /** The result names the first defect: the entry at which the chain stops being in order, by
      its own index, and which of the two checks it fails first. */
  predicate FirstDefect(h: Hasher, es: seq<Entry>, r: VerifyResult) {
    match r
    case Intact => LinkedUpTo(h, es, |es|)
    case BadGenesis => es != [] && es[0].hash != GENESIS_HASH
    case Broken(i) =>
      exists k | 0 < k < |es| :: LinkedUpTo(h, es, k) && es[k].index == i && es[k].prevHash != es[k - 1].hash
    case BadHash(i) =>
      exists k | 0 < k < |es| ::
        && LinkedUpTo(h, es, k) && es[k].index == i && es[k].prevHash == es[k - 1].hash
        && es[k].hash != h(Encode(es[k]))
  }

  class MemoryLedger {
    const sha: Hasher
    var entries: seq<Entry>

    ghost predicate Valid() reads this { WellFormed(sha, entries) }

    constructor (sha: Hasher, now: Timestamp)
      ensures Valid() && this.sha == sha && |entries| == 1
      ensures var z := entries[0].hash;
              && |z| == 64 && (forall c | c in z :: c == '0')
              && entries[0] == Entry(0, now, "", "genesis", "nexus-system", z, z, z)
    {
      this.sha := sha;
      entries := [Entry(0, now, "", "genesis", "nexus-system", GENESIS_HASH, GENESIS_HASH, GENESIS_HASH)];
    }

    /** Appends one entry chained to the tail; fails without effect when the payload cannot
        be marshalled. */
    method Append(now: Timestamp, r: Request) returns (entry: Option<Entry>)
      requires Valid()
      modifies this`entries
      ensures Valid()
      ensures entries == Appended(sha, old(entries), now, r) && old(entries) <= entries
      ensures entry.Some? <==> r.payload.Some?
      ensures entry.Some? ==> entries == old(entries) + [entry.value]
    {
      if r.payload.None? { return None; }
      var dataHash := sha(r.payload.value);
      var prev := entries[|entries| - 1];
      var e := Entry(|entries|, now, r.agentURI, r.action, r.actor, dataHash, prev.hash, "");
      e := e.(hash := sha(Encode(e)));
      AppendKeepsChain(sha, entries, now, r);
      entries := entries + [e];
      return Some(e);
    }

    method Get(index: int) returns (e: Option<Entry>)
      ensures e == if 0 <= index < |entries| then Some(entries[index]) else None
    {
      if index < 0 || index >= |entries| { return None; }
      return Some(entries[index]);
    }

    /** Reports the first defect in chain order, and Intact exactly for verified chains. */
    method Verify() returns (r: VerifyResult)
      ensures r == Intact <==> Verifies(sha, entries)
      ensures FirstDefect(sha, entries, r)
    {
      for i := 0 to |entries|
        invariant LinkedUpTo(sha, entries, i)
      {
        var curr := entries[i];
        if i == 0 {
          if curr.hash != GENESIS_HASH { return BadGenesis; }
          continue;
        }
        var prev := entries[i - 1];
        if curr.prevHash != prev.hash {
          assert !Linked(sha, entries, i);
          return Broken(curr.index);
        }
        if curr.hash != sha(Encode(curr)) {
          assert !Linked(sha, entries, i);
          return BadHash(curr.index);
        }
      }
      return Intact;
    }

    method ReadRoot() returns (root: string)
      ensures root == Root(entries)
    {
      if |entries| == 0 { return ""; }
      return entries[|entries| - 1].hash;
    }
  }
}
