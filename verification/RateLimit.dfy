/** Per-IP rate limiting with token buckets, and the background cleanup that forgets idle
    addresses. A request looks up its bucket under the lock; then, outside the lock, it reads
    the clock again; then it takes a token under the bucket's own lock, by the time it has
    read. Requests and cleanups interleave freely. Buckets are heap objects, named here by
    their allocation number. */
module RateLimit {
  import opened Strings

  type Time = real
  type ThreadId = nat

  datatype Config = Config(rps: nat, burst: nat)

  const IDLE: Time := 600.0

  // ------------------------------------------------------- one bucket

  datatype Bucket = Bucket(tokens: real, last: Time)

  /** Tokens that accrue over d seconds. */
  function Gain(cfg: Config, d: Time): real { cfg.rps as real * d }

  function Level(cfg: Config, b: Bucket, t: Time): real {
    var n := b.tokens + Gain(cfg, if t < b.last then 0.0 else t - b.last);
    if n > cfg.burst as real then cfg.burst as real else n
  }

  function NewBucket(cfg: Config): Bucket { Bucket(cfg.burst as real, 0.0) }

  predicate Allows(cfg: Config, b: Bucket, t: Time) { Level(cfg, b, t) >= 1.0 }

  /** A refused request leaves the bucket as it was. */
  function Asked(cfg: Config, b: Bucket, t: Time): Bucket {
    if Allows(cfg, b, t) then Bucket(Level(cfg, b, t) - 1.0, t) else b
  }

  /** A bucket after n questions at one moment. */
  function AskedTimes(cfg: Config, b: Bucket, t: Time, n: nat): Bucket {
    if n == 0 then b else Asked(cfg, AskedTimes(cfg, b, t, n - 1), t)
  }

  /** A full bucket allows a burst and not one request more. */
  lemma {:induction false} ExactlyABurst(cfg: Config, b: Bucket, t: Time, n: nat)
    requires Level(cfg, b, t) == cfg.burst as real
    ensures Level(cfg, AskedTimes(cfg, b, t, n), t) == if n < cfg.burst then (cfg.burst - n) as real else 0.0
    ensures Allows(cfg, AskedTimes(cfg, b, t, n), t) <==> n < cfg.burst
  {
    if n > 0 {
      ExactlyABurst(cfg, b, t, n - 1);
      assert Gain(cfg, 0.0) == 0.0;
    }
  }

  /** One second's share of the rate later there is a token again: whoever keeps to the rate
      is never refused. */
  lemma SteadyNeverRefused(cfg: Config, b: Bucket, t: Time, u: Time)
    requires Allows(cfg, b, t) && t <= u && cfg.rps as real * (u - t) >= 1.0
    ensures Allows(cfg, Asked(cfg, b, t), u)
  {
    assert cfg.burst >= 1;
  }

  /** A refusal costs nothing: later answers are those that there would have been without it. */
  lemma RefusalIsFree(cfg: Config, b: Bucket, t: Time, u: Time)
    requires !Allows(cfg, b, t)
    ensures Level(cfg, Asked(cfg, b, t), u) == Level(cfg, b, u)
    ensures Allows(cfg, Asked(cfg, b, t), u) <==> Allows(cfg, b, u)
  {
  }

  /** What a bucket grants, in plain terms: the tokens left by the last grant and those that
      accrued since then at the rate, a burst at most, have to make one. */
  lemma AllowsIff(cfg: Config, b: Bucket, t: Time)
    ensures Allows(cfg, b, t) <==>
            && cfg.burst >= 1
            && (b.tokens >= 1.0 || (t > b.last && b.tokens + cfg.rps as real * (t - b.last) >= 1.0))
  {
    if t <= b.last { assert Gain(cfg, 0.0) == 0.0; } else { GainMonotone(cfg, 0.0, t - b.last); }
  }

  /** An address seen for the first time has a burst at once, and not one request more. */
  lemma FirstBurst(cfg: Config, t: Time, n: nat)
    requires 0.0 <= t
    ensures Allows(cfg, AskedTimes(cfg, NewBucket(cfg), t, n), t) <==> n < cfg.burst
  {
    GainMonotone(cfg, 0.0, t);
    ExactlyABurst(cfg, NewBucket(cfg), t, n);
  }

  // ------------------------------------------------------- the limiter

  datatype Entry = Entry(bucket: nat, lastSeen: Time)

  /** A request between its lookup and its question to the bucket, with its second clock
      reading once it has one. */
  datatype Call = Call(ip: string, bucket: nat, since: Time, reading: Option<Time>)

  datatype World = World(entries: map<string, Entry>, heap: seq<Bucket>, calls: map<ThreadId, Call>)

  datatype Event =
    | Lookup(th: ThreadId, ip: string, at: Time)
    | Read(th: ThreadId, at: Time)
    | Take(th: ThreadId, at: Time)
    | Cleanup(at: Time)

  /** The answer a request got, by the time it had read. */
  datatype Decision = Decision(ip: string, at: Time, allowed: bool)

  predicate WellFormed(w: World) {
    && (forall ip | ip in w.entries :: w.entries[ip].bucket < |w.heap|)
    && (forall th | th in w.calls :: w.calls[th].bucket < |w.heap|)
  }

  function DoLookup(cfg: Config, w: World, th: ThreadId, ip: string, at: Time): World {
    if th in w.calls then w
    else if ip in w.entries then
      var id := w.entries[ip].bucket;
      w.(entries := w.entries[ip := Entry(id, at)], calls := w.calls[th := Call(ip, id, at, None)])
    else
      var id := |w.heap|;
      World(w.entries[ip := Entry(id, at)], w.heap + [NewBucket(cfg)], w.calls[th := Call(ip, id, at, None)])
  }

  function DoRead(w: World, th: ThreadId, at: Time): World {
    if th !in w.calls || w.calls[th].reading.Some? then w
    else w.(calls := w.calls[th := w.calls[th].(reading := Some(at))])
  }

  predicate Ready(w: World, th: ThreadId) { th in w.calls && w.calls[th].reading.Some? }

  /** The bucket answers by the reading, which other requests may have overtaken. */
  function DoTake(cfg: Config, w: World, th: ThreadId): World
    requires WellFormed(w)
  {
    if !Ready(w, th) then w
    else
      var (id, t) := (w.calls[th].bucket, w.calls[th].reading.value);
      w.(heap := w.heap[id := Asked(cfg, w.heap[id], t)], calls := w.calls - {th})
  }

  function DoCleanup(w: World, at: Time): World {
    w.(entries := map ip | ip in w.entries && at - w.entries[ip].lastSeen <= IDLE :: w.entries[ip])
  }

  function Next(cfg: Config, w: World, e: Event): (w': World)
    requires WellFormed(w)
    ensures WellFormed(w')
  {
    match e
    case Lookup(th, ip, at) => DoLookup(cfg, w, th, ip, at)
    case Read(th, at) => DoRead(w, th, at)
    case Take(th, _) => DoTake(cfg, w, th)
    case Cleanup(at) => DoCleanup(w, at)
  }

  /** The decisions of a run, in order. */
  function Decisions(cfg: Config, w: World, events: seq<Event>): seq<Decision>
    requires WellFormed(w)
    decreases |events|
  {
    if events == [] then []
    else
      var rest := Decisions(cfg, Next(cfg, w, events[0]), events[1..]);
      if events[0].Take? && Ready(w, events[0].th) then
        var c := w.calls[events[0].th];
        [Decision(c.ip, c.reading.value, Allows(cfg, w.heap[c.bucket], c.reading.value))] + rest
      else rest
  }

  const EMPTY: World := World(map[], [], map[])

  /** The limiter as the middleware keeps it. */
  class RateLimiter {
    const cfg: Config
    var entries: map<string, Entry>
    var heap: seq<Bucket>
    var calls: map<ThreadId, Call>

    function View(): World
      reads this
    {
      World(entries, heap, calls)
    }

    constructor (cfg: Config)
      ensures this.cfg == cfg && View() == EMPTY
    {
      this.cfg := cfg;
      entries, heap, calls := map[], [], map[];
    }

    method Lookup(th: ThreadId, ip: string, now: Time)
      modifies this
      ensures View() == DoLookup(cfg, old(View()), th, ip, now)
      ensures th !in old(calls) ==>
                && ip in entries && entries[ip].lastSeen == now && calls == old(calls)[th := calls[th]]
                && calls[th] == Call(ip, entries[ip].bucket, now, None)
                && (ip in old(entries) ==> entries[ip].bucket == old(entries)[ip].bucket && heap == old(heap))
                && (ip !in old(entries) ==> entries[ip].bucket == |old(heap)| && heap[..|old(heap)|] == old(heap))
      ensures th in old(calls) ==> View() == old(View())
    {
      if th in calls { return; }
      var id := |heap|;
      if ip in entries {
        id := entries[ip].bucket;
      } else {
        heap := heap + [NewBucket(cfg)];
      }
      entries := entries[ip := Entry(id, now)];
      calls := calls[th := Call(ip, id, now, None)];
    }

    method Read(th: ThreadId, now: Time)
      modifies this
      ensures View() == DoRead(old(View()), th, now)
      ensures entries == old(entries) && heap == old(heap)
      ensures calls == if th in old(calls) && old(calls)[th].reading == None
                       then old(calls)[th := old(calls)[th].(reading := Some(now))] else old(calls)
    {
      if th in calls && calls[th].reading.None? { calls := calls[th := calls[th].(reading := Some(now))]; }
    }

    method Take(th: ThreadId) returns (ok: bool)
      requires WellFormed(View()) && Ready(View(), th)
      modifies this
      ensures ok == Allows(cfg, old(heap[calls[th].bucket]), old(calls[th].reading.value))
      ensures View() == DoTake(cfg, old(View()), th)
      ensures entries == old(entries) && calls == old(calls) - {th}
      ensures var (id, t) := (old(calls)[th].bucket, old(calls)[th].reading.value);
              |heap| == |old(heap)| && (forall i | 0 <= i < |heap| && i != id :: heap[i] == old(heap)[i])
              && if ok then heap[id].last == t else heap[id] == old(heap)[id]
    {
      var (id, t) := (calls[th].bucket, calls[th].reading.value);
      ok := Allows(cfg, heap[id], t);
      if ok { heap := heap[id := Bucket(Level(cfg, heap[id], t) - 1.0, t)]; }
      calls := calls - {th};
    }

    method Cleanup(now: Time)
      modifies this
      ensures View() == DoCleanup(old(View()), now)
      ensures heap == old(heap) && calls == old(calls)
      ensures forall ip :: ip in entries <==> ip in old(entries) && now - old(entries)[ip].lastSeen <= 600.0
      ensures forall ip | ip in entries :: entries[ip] == old(entries)[ip]
    {
      var todo := entries.Keys;
      ghost var before := entries;
      while todo != {}
        invariant todo <= before.Keys
        invariant heap == old(heap) && calls == old(calls)
        invariant forall ip :: ip in entries <==>
                    ip in before && (ip in todo || now - before[ip].lastSeen <= IDLE)
        invariant forall ip | ip in entries :: entries[ip] == before[ip]
        decreases |todo|
      {
        var ip :| ip in todo;
        if now - entries[ip].lastSeen > IDLE { entries := entries - {ip}; }
        todo := todo - {ip};
      }
    }
  }

  // ------------------------------------------------------- the specification

  /** A limiter that never forgets: one bucket per address, full until first asked. */
  type Ideal = map<string, Bucket>

  function BucketOf(cfg: Config, m: Ideal, ip: string): Bucket {
    if ip in m then m[ip] else NewBucket(cfg)
  }

  /** Each decision is the one that the never-forgetting limiter takes. */
  predicate Faithful(cfg: Config, m: Ideal, ds: seq<Decision>)
    decreases |ds|
  {
    ds == [] ||
    var b := BucketOf(cfg, m, ds[0].ip);
    ds[0].allowed == Allows(cfg, b, ds[0].at)
    && Faithful(cfg, m[ds[0].ip := Asked(cfg, b, ds[0].at)], ds[1..])
  }

  /** The clock of a run never goes back, and no request takes longer than patience from its
      lookup to its question. */
  ghost predicate Timely(cfg: Config, w: World, events: seq<Event>, now: Time, patience: Time)
    requires WellFormed(w)
    decreases |events|
  {
    events == [] ||
    (now <= events[0].at
     && (forall th | th in w.calls :: events[0].at <= w.calls[th].since + patience)
     && Timely(cfg, Next(cfg, w, events[0]), events[1..], events[0].at, patience))
  }

  // ------------------------------------------------------- cleanup is invisible

  predicate BucketOk(cfg: Config, b: Bucket, now: Time) {
    0.0 <= b.tokens <= cfg.burst as real && 0.0 <= b.last <= now
  }

  ghost predicate IdealOk(cfg: Config, m: Ideal, now: Time) {
    forall ip | ip in m :: BucketOk(cfg, m[ip], now)
  }

  /** Buckets that nobody can tell apart by a time from t on. */
  predicate Alike(cfg: Config, a: Bucket, b: Bucket, t: Time) {
    a == b || (Level(cfg, a, t) == cfg.burst as real && Level(cfg, b, t) == cfg.burst as real)
  }

  /** The entry of an address names a bucket like the one of the specification, which was
      last drawn from no later than patience after the entry was last seen. */
  predicate EntryOk(cfg: Config, e: Entry, heap: seq<Bucket>, b: Bucket, now: Time, patience: Time) {
    && e.bucket < |heap| && Alike(cfg, heap[e.bucket], b, now)
    && 0.0 <= e.lastSeen <= now && b.last <= e.lastSeen + patience
  }

  ghost predicate EntriesOk(cfg: Config, w: World, m: Ideal, now: Time, patience: Time) {
    forall ip | ip in w.entries :: EntryOk(cfg, w.entries[ip], w.heap, BucketOf(cfg, m, ip), now, patience)
  }

  /** Forgotten addresses have full buckets. */
  ghost predicate ForgottenFull(cfg: Config, w: World, m: Ideal, now: Time) {
    forall ip | ip in m && ip !in w.entries :: Level(cfg, m[ip], now) == cfg.burst as real
  }

  /** A call in progress holds the bucket that its address is mapped to. */
  predicate CallOk(entries: map<string, Entry>, c: Call) {
    c.ip in entries && entries[c.ip].bucket == c.bucket && c.since <= entries[c.ip].lastSeen
  }

  ghost predicate CallsOk(w: World) { forall th | th in w.calls :: CallOk(w.entries, w.calls[th]) }

  /** By the time a call has read or will read, its bucket is like that of the specification. */
  predicate CallAlike(cfg: Config, w: World, m: Ideal, c: Call, now: Time)
    requires c.bucket < |w.heap|
  {
    && Alike(cfg, w.heap[c.bucket], BucketOf(cfg, m, c.ip), c.since) && 0.0 <= c.since <= now
    && (c.reading.Some? ==> c.since <= c.reading.value <= now)
  }

  ghost predicate CallsAlike(cfg: Config, w: World, m: Ideal, now: Time)
    requires WellFormed(w)
  {
    forall th | th in w.calls :: CallAlike(cfg, w, m, w.calls[th], now)
  }

  /** No two addresses share a bucket. */
  ghost predicate Unshared(entries: map<string, Entry>) {
    forall ip, jp | ip in entries && jp in entries && entries[ip].bucket == entries[jp].bucket :: ip == jp
  }

  ghost predicate Agree(cfg: Config, w: World, m: Ideal, now: Time, patience: Time) {
    && WellFormed(w) && IdealOk(cfg, m, now) && EntriesOk(cfg, w, m, now, patience)
    && ForgottenFull(cfg, w, m, now) && CallsOk(w) && CallsAlike(cfg, w, m, now) && Unshared(w.entries)
  }

  lemma GainMonotone(cfg: Config, d: Time, e: Time)
    requires d <= e
    ensures Gain(cfg, d) <= Gain(cfg, e)
  {
  }

  lemma FullStaysFull(cfg: Config, b: Bucket, t: Time, u: Time)
    requires Level(cfg, b, t) == cfg.burst as real && t <= u
    ensures Level(cfg, b, u) == cfg.burst as real
  {
  }

  lemma IdleIsFull(cfg: Config, b: Bucket, t: Time, wait: Time)
    requires b.tokens >= 0.0 && t - b.last >= wait >= 0.0 && Gain(cfg, wait) >= cfg.burst as real
    ensures Level(cfg, b, t) == cfg.burst as real
  {
  }

  lemma AskedOk(cfg: Config, b: Bucket, now: Time, t: Time)
    requires BucketOk(cfg, b, now) && 0.0 <= t <= now
    ensures BucketOk(cfg, Asked(cfg, b, t), now)
  {
    GainMonotone(cfg, 0.0, if t < b.last then 0.0 else t - b.last);
  }

  lemma TimePasses(cfg: Config, w: World, m: Ideal, now: Time, p: Time, at: Time)
    requires Agree(cfg, w, m, now, p) && now <= at
    ensures Agree(cfg, w, m, at, p)
  {
    forall ip | ip in m ensures BucketOk(cfg, m[ip], at) {
      assert BucketOk(cfg, m[ip], now);
    }
    forall ip | ip in m && ip !in w.entries ensures Level(cfg, m[ip], at) == cfg.burst as real {
      FullStaysFull(cfg, m[ip], now, at);
    }
    forall ip | ip in w.entries ensures EntryOk(cfg, w.entries[ip], w.heap, BucketOf(cfg, m, ip), at, p) {
      var (a, b) := (w.heap[w.entries[ip].bucket], BucketOf(cfg, m, ip));
      assert EntryOk(cfg, w.entries[ip], w.heap, b, now, p);
      if a != b { FullStaysFull(cfg, a, now, at); FullStaysFull(cfg, b, now, at); }
    }
    forall th | th in w.calls ensures CallAlike(cfg, w, m, w.calls[th], at) {
      assert CallAlike(cfg, w, m, w.calls[th], now);
    }
  }

  lemma LookupKnown(cfg: Config, w: World, m: Ideal, th: ThreadId, ip: string, at: Time, p: Time)
    requires Agree(cfg, w, m, at, p) && 0.0 <= at && 0.0 <= p && ip in w.entries && th !in w.calls
    ensures Agree(cfg, DoLookup(cfg, w, th, ip, at), m, at, p)
  {
    var w' := DoLookup(cfg, w, th, ip, at);
    assert w'.heap == w.heap && w'.entries == w.entries[ip := Entry(w.entries[ip].bucket, at)];
    forall jp | jp in w'.entries ensures EntryOk(cfg, w'.entries[jp], w.heap, BucketOf(cfg, m, jp), at, p) {
      assert EntryOk(cfg, w.entries[jp], w.heap, BucketOf(cfg, m, jp), at, p);
    }
    CallsKept(cfg, w, w', m, th, at);
  }

  lemma LookupNew(cfg: Config, w: World, m: Ideal, th: ThreadId, ip: string, at: Time, p: Time)
    requires Agree(cfg, w, m, at, p) && 0.0 <= at && 0.0 <= p && ip !in w.entries && th !in w.calls
    ensures Agree(cfg, DoLookup(cfg, w, th, ip, at), m, at, p)
  {
    var w' := DoLookup(cfg, w, th, ip, at);
    assert w'.heap == w.heap + [NewBucket(cfg)] && w'.entries == w.entries[ip := Entry(|w.heap|, at)];
    forall jp | jp in w'.entries ensures EntryOk(cfg, w'.entries[jp], w'.heap, BucketOf(cfg, m, jp), at, p) {
      if jp != ip {
        assert EntryOk(cfg, w.entries[jp], w.heap, BucketOf(cfg, m, jp), at, p);
      } else {
        NewIsAlike(cfg, m, ip, at);
      }
    }
    CallsKept(cfg, w, w', m, th, at);
  }

  lemma NewIsAlike(cfg: Config, m: Ideal, ip: string, at: Time)
    requires IdealOk(cfg, m, at) && 0.0 <= at && (ip in m ==> Level(cfg, m[ip], at) == cfg.burst as real)
    ensures Alike(cfg, NewBucket(cfg), BucketOf(cfg, m, ip), at) && 0.0 <= BucketOf(cfg, m, ip).last <= at
  {
    if ip in m { assert BucketOk(cfg, m[ip], at); }
    assert Gain(cfg, at) >= 0.0;
  }

  /** A new call on a bucket like the specification's leaves the others as they are. */
  lemma CallsKept(cfg: Config, w: World, w': World, m: Ideal, th: ThreadId, at: Time)
    requires WellFormed(w) && WellFormed(w') && CallsOk(w) && CallsAlike(cfg, w, m, at) && w.heap <= w'.heap
    requires th !in w.calls && th in w'.calls
    requires CallOk(w'.entries, w'.calls[th]) && CallAlike(cfg, w', m, w'.calls[th], at)
    requires forall u | u in w'.calls && u != th :: u in w.calls && w'.calls[u] == w.calls[u]
    requires forall ip | ip in w.entries ::
               && ip in w'.entries && w'.entries[ip].bucket == w.entries[ip].bucket
               && (w.entries[ip].lastSeen <= w'.entries[ip].lastSeen)
    ensures CallsOk(w') && CallsAlike(cfg, w', m, at)
  {
    forall u | u in w'.calls ensures CallOk(w'.entries, w'.calls[u]) && CallAlike(cfg, w', m, w'.calls[u], at) {
      if u != th { assert CallOk(w.entries, w.calls[u]) && CallAlike(cfg, w, m, w.calls[u], at); }
    }
  }

  lemma LookupAgrees(cfg: Config, w: World, m: Ideal, th: ThreadId, ip: string, at: Time, p: Time)
    requires Agree(cfg, w, m, at, p) && 0.0 <= at && 0.0 <= p
    ensures Agree(cfg, DoLookup(cfg, w, th, ip, at), m, at, p)
  {
    if th !in w.calls {
      if ip in w.entries { LookupKnown(cfg, w, m, th, ip, at, p); } else { LookupNew(cfg, w, m, th, ip, at, p); }
    }
  }

  lemma ReadAgrees(cfg: Config, w: World, m: Ideal, th: ThreadId, at: Time, p: Time)
    requires Agree(cfg, w, m, at, p)
    ensures Agree(cfg, DoRead(w, th, at), m, at, p)
  {
    var w' := DoRead(w, th, at);
    forall u | u in w'.calls ensures CallOk(w'.entries, w'.calls[u]) && CallAlike(cfg, w', m, w'.calls[u], at) {
      assert CallOk(w.entries, w.calls[u]) && CallAlike(cfg, w, m, w.calls[u], at);
    }
  }

  /** Buckets alike by t give the same answer by t, and are afterwards alike by every time by
      which they were alike before. */
  lemma AskedAlike(cfg: Config, a: Bucket, b: Bucket, t: Time, u: Time)
    requires Alike(cfg, a, b, t) && Alike(cfg, a, b, u)
    ensures Allows(cfg, a, t) == Allows(cfg, b, t)
    ensures Alike(cfg, Asked(cfg, a, t), Asked(cfg, b, t), u)
  {
  }

  lemma AlikeLater(cfg: Config, a: Bucket, b: Bucket, t: Time, u: Time)
    requires Alike(cfg, a, b, t) && t <= u
    ensures Alike(cfg, a, b, u)
  {
    if a != b { FullStaysFull(cfg, a, t, u); FullStaysFull(cfg, b, t, u); }
  }

  lemma TakeEntries(cfg: Config, w: World, m: Ideal, th: ThreadId, now: Time, p: Time)
    requires Agree(cfg, w, m, now, p) && Ready(w, th) && now <= w.calls[th].since + p
    ensures var (c, t) := (w.calls[th], w.calls[th].reading.value);
            EntriesOk(cfg, DoTake(cfg, w, th), m[c.ip := Asked(cfg, BucketOf(cfg, m, c.ip), t)], now, p)
  {
    var (c, t) := (w.calls[th], w.calls[th].reading.value);
    var (a, b) := (w.heap[c.bucket], BucketOf(cfg, m, c.ip));
    var (w', m') := (DoTake(cfg, w, th), m[c.ip := Asked(cfg, b, t)]);
    assert CallOk(w.entries, c) && CallAlike(cfg, w, m, c, now);
    assert EntryOk(cfg, w.entries[c.ip], w.heap, b, now, p);
    AlikeLater(cfg, a, b, c.since, t);
    AskedAlike(cfg, a, b, t, now);
    forall ip | ip in w'.entries ensures EntryOk(cfg, w'.entries[ip], w'.heap, BucketOf(cfg, m', ip), now, p) {
      assert EntryOk(cfg, w.entries[ip], w.heap, BucketOf(cfg, m, ip), now, p);
    }
  }

  lemma TakeCalls(cfg: Config, w: World, m: Ideal, th: ThreadId, now: Time, p: Time)
    requires Agree(cfg, w, m, now, p) && Ready(w, th)
    ensures var (c, t, w') := (w.calls[th], w.calls[th].reading.value, DoTake(cfg, w, th));
            CallsOk(w') && CallsAlike(cfg, w', m[c.ip := Asked(cfg, BucketOf(cfg, m, c.ip), t)], now)
  {
    var (c, t) := (w.calls[th], w.calls[th].reading.value);
    var (a, b) := (w.heap[c.bucket], BucketOf(cfg, m, c.ip));
    var (w', m') := (DoTake(cfg, w, th), m[c.ip := Asked(cfg, b, t)]);
    assert CallOk(w.entries, c) && CallAlike(cfg, w, m, c, now);
    AlikeLater(cfg, a, b, c.since, t);
    forall u | u in w'.calls ensures CallOk(w'.entries, w'.calls[u]) && CallAlike(cfg, w', m', w'.calls[u], now) {
      var d := w.calls[u];
      assert CallOk(w.entries, d) && CallAlike(cfg, w, m, d, now);
      if d.ip == c.ip { AskedAlike(cfg, a, b, t, d.since); }
    }
  }

  lemma TakeAgrees(cfg: Config, w: World, m: Ideal, th: ThreadId, now: Time, p: Time)
    requires Agree(cfg, w, m, now, p) && Ready(w, th) && now <= w.calls[th].since + p
    ensures var (c, t) := (w.calls[th], w.calls[th].reading.value);
            var b := BucketOf(cfg, m, c.ip);
            && Allows(cfg, w.heap[c.bucket], t) == Allows(cfg, b, t)
            && Agree(cfg, DoTake(cfg, w, th), m[c.ip := Asked(cfg, b, t)], now, p)
  {
    var (c, t) := (w.calls[th], w.calls[th].reading.value);
    var b := BucketOf(cfg, m, c.ip);
    var m' := m[c.ip := Asked(cfg, b, t)];
    assert CallOk(w.entries, c) && CallAlike(cfg, w, m, c, now);
    AlikeLater(cfg, w.heap[c.bucket], b, c.since, t);
    AskedAlike(cfg, w.heap[c.bucket], b, t, t);
    TakeEntries(cfg, w, m, th, now, p);
    TakeCalls(cfg, w, m, th, now, p);
    assert BucketOk(cfg, b, now) by { if c.ip in m { assert BucketOk(cfg, m[c.ip], now); } }
    AskedOk(cfg, b, now, t);
    forall ip | ip in m' ensures BucketOk(cfg, m'[ip], now) {
      assert ip in m ==> BucketOk(cfg, m[ip], now);
    }
  }

  /** The refill time of a whole burst fits into the idle time. */
  predicate Refills(cfg: Config, patience: Time) {
    0.0 <= patience <= IDLE && cfg.burst as real <= Gain(cfg, IDLE - patience)
  }

  lemma CleanupAgrees(cfg: Config, w: World, m: Ideal, at: Time, p: Time)
    requires Agree(cfg, w, m, at, p) && Refills(cfg, p)
    requires forall th | th in w.calls :: at <= w.calls[th].since + p
    ensures Agree(cfg, DoCleanup(w, at), m, at, p)
  {
    var w' := DoCleanup(w, at);
    forall ip | ip in m && ip !in w'.entries ensures Level(cfg, m[ip], at) == cfg.burst as real {
      if ip in w.entries {
        assert EntryOk(cfg, w.entries[ip], w.heap, m[ip], at, p);
        assert BucketOk(cfg, m[ip], at);
        IdleIsFull(cfg, m[ip], at, IDLE - p);
      }
    }
    forall u | u in w'.calls ensures CallOk(w'.entries, w'.calls[u]) && CallAlike(cfg, w', m, w'.calls[u], at) {
      assert CallOk(w.entries, w.calls[u]) && CallAlike(cfg, w, m, w.calls[u], at);
    }
    forall ip | ip in w'.entries ensures EntryOk(cfg, w'.entries[ip], w'.heap, BucketOf(cfg, m, ip), at, p) {
      assert EntryOk(cfg, w.entries[ip], w.heap, BucketOf(cfg, m, ip), at, p);
    }
  }

  lemma {:induction false} RunAgrees(cfg: Config, w: World, m: Ideal, events: seq<Event>, now: Time, p: Time)
    requires Agree(cfg, w, m, now, p) && Refills(cfg, p) && 0.0 <= now && Timely(cfg, w, events, now, p)
    ensures Faithful(cfg, m, Decisions(cfg, w, events))
    decreases |events|
  {
    if events != [] {
      var e := events[0];
      TimePasses(cfg, w, m, now, p, e.at);
      match e
      case Lookup(th, ip, at) =>
        LookupAgrees(cfg, w, m, th, ip, at, p);
        RunAgrees(cfg, Next(cfg, w, e), m, events[1..], at, p);
      case Cleanup(at) =>
        CleanupAgrees(cfg, w, m, at, p);
        RunAgrees(cfg, Next(cfg, w, e), m, events[1..], at, p);
      case Read(th, at) =>
        ReadAgrees(cfg, w, m, th, at, p);
        RunAgrees(cfg, Next(cfg, w, e), m, events[1..], at, p);
      case Take(th, at) =>
        if !Ready(w, th) {
          RunAgrees(cfg, w, m, events[1..], at, p);
        } else {
          TakeAgrees(cfg, w, m, th, at, p);
          var (c, t) := (w.calls[th], w.calls[th].reading.value);
          RunAgrees(cfg, Next(cfg, w, e), m[c.ip := Asked(cfg, BucketOf(cfg, m, c.ip), t)], events[1..], at, p);
        }
    }
  }

  /** Idle cleanup is invisible: in every interleaving of lookups, clock readings, takes and
      cleanups every decision is the one that a limiter which never forgets an address takes. */
  lemma CleanupInvisible(cfg: Config, events: seq<Event>, patience: Time)
    requires Refills(cfg, patience) && Timely(cfg, EMPTY, events, 0.0, patience)
    ensures Faithful(cfg, map[], Decisions(cfg, EMPTY, events))
  {
    RunAgrees(cfg, EMPTY, map[], events, 0.0, patience);
  }

  /** The configuration in use refills within two seconds. */
  lemma ShippedConfigRefills(rps: nat, patience: Time)
    requires 0.0 <= patience <= 598.0
    ensures Refills(Config(rps, rps * 2), patience)
  {
    GainMonotone(Config(rps, rps * 2), 2.0, IDLE - patience);
  }

  /** The condition is exact: an address may be forgotten after its idle time, however long
      ago its bucket was emptied, if and only if a burst refills within that time. */
  lemma ForgettingIsSoundIff(cfg: Config, emptied: Time, patience: Time)
    requires 0.0 <= patience <= IDLE
    ensures (forall t | t - emptied > IDLE - patience :: Level(cfg, Bucket(0.0, emptied), t) == cfg.burst as real)
            <==> Refills(cfg, patience)
  {
    if Refills(cfg, patience) {
      forall t | t - emptied > IDLE - patience ensures Level(cfg, Bucket(0.0, emptied), t) == cfg.burst as real {
        IdleIsFull(cfg, Bucket(0.0, emptied), t, IDLE - patience);
      }
    } else {
      var missing := cfg.burst as real - Gain(cfg, IDLE - patience);
      var extra := missing / (cfg.rps as real + 1.0);
      var t := emptied + IDLE - patience + extra;
      GainSplit(cfg, IDLE - patience, extra);
      assert Gain(cfg, extra) < missing;
      assert Level(cfg, Bucket(0.0, emptied), t) < cfg.burst as real;
    }
  }

  lemma GainSplit(cfg: Config, d: Time, e: Time)
    ensures Gain(cfg, d + e) == Gain(cfg, d) + Gain(cfg, e)
  {
  }

  lemma GainIs(cfg: Config, d: Time)
    ensures Gain(cfg, d) == cfg.rps as real * d
  {
  }

  lemma RefillsIff(cfg: Config, patience: Time)
    ensures Refills(cfg, patience) <==>
            0.0 <= patience <= 600.0 && cfg.burst as real <= cfg.rps as real * (600.0 - patience)
  {
    GainIs(cfg, 600.0 - patience);
  }
}
