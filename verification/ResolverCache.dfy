/** The resolver's cache of registry answers. Calls are concurrent: each reads the cache
    and, on a miss, asks the registry and stores what it was told as two later steps;
    invalidations and evictions fall anywhere in between. */
module ResolverCache {
  import opened Strings
  import AgentTable
  import Capability

  type Time = int
  type ThreadId = nat

  datatype Request = Request(trustRoot: string, capabilityNode: string, agentId: string)

  /** What the registry answers, and the part of it that is cached. */
  datatype Reply = Reply(uri: string, data: Data)
  datatype Data = Data(endpoint: string, status: string, certSerial: string)

  datatype Response = Resolved(uri: string, data: Data) | Failed

  datatype Entry = Entry(data: Data, expiresAt: Time)

  // ------------------------------------------------------- keys

  predicate ValidRequest(req: Request) { req.trustRoot != "" && req.capabilityNode != "" && req.agentId != "" }

  function Key(req: Request): string {
    "agent://" + req.trustRoot + "/" + req.capabilityNode + "/" + req.agentId
  }

  predicate SlashFree(req: Request) { '/' !in req.trustRoot && '/' !in req.agentId }

  lemma KeyInjective(r: Request, q: Request)
    requires SlashFree(r) && SlashFree(q) && Key(r) == Key(q)
    ensures r == q
  {
    var (x, y) := (r.trustRoot + "/" + r.capabilityNode, q.trustRoot + "/" + q.capabilityNode);
    assert Key(r) == ("agent://" + x) + ['/'] + r.agentId && Key(q) == ("agent://" + y) + ['/'] + q.agentId;
    CutUniqueRight("agent://" + x, r.agentId, "agent://" + y, q.agentId, '/');
    assert x == ("agent://" + x)[8..] == ("agent://" + y)[8..] == y;
    assert x == r.trustRoot + ['/'] + r.capabilityNode && y == q.trustRoot + ['/'] + q.capabilityNode;
    CutUnique(r.trustRoot, r.capabilityNode, q.trustRoot, q.capabilityNode, '/');
  }

  /** Without that restriction keys collide: moving the boundary between trust root and
      capability, or between capability and agent ID, across a slash changes the request but
      not the key. */
  lemma KeysCollide(a: string, b: string, c: string, id: string)
    ensures var (x, y) := (Request(a + "/" + b, c, id), Request(a, b + "/" + c, id)); Key(x) == Key(y) && x != y
    ensures var (x, y) := (Request(id, a, b + "/" + c), Request(id, a + "/" + b, c)); Key(x) == Key(y) && x != y
  {
    assert "agent://" + (a + "/" + b) + "/" + c + "/" + id == "agent://" + a + "/" + (b + "/" + c) + "/" + id;
    assert "agent://" + id + "/" + a + "/" + (b + "/" + c) == "agent://" + id + "/" + (a + "/" + b) + "/" + c;
    assert |a + "/" + b| > |a|;
  }

  predicate NoSlash(req: Request) {
    '/' !in req.trustRoot && '/' !in req.capabilityNode && '/' !in req.agentId
  }

  function Fields(req: Request): seq<string> { [req.trustRoot, req.capabilityNode, req.agentId] }

  function Path(req: Request): string { Join(Fields(req), '/') }

  lemma KeyIsJoin(req: Request)
    ensures Key(req) == "agent://" + Path(req) && Key(req)[8..] == Path(req)
  {
    JoinThree(req.trustRoot, req.capabilityNode, req.agentId, '/');
    assert Key(req) == "agent://" + (req.trustRoot + "/" + req.capabilityNode + "/" + req.agentId);
  }

  lemma FieldsSlashFree(req: Request)
    ensures NoSlash(req) <==> forall p | p in Fields(req) :: '/' !in p
  {
    var fs := Fields(req);
    assert fs[0] in fs && fs[1] in fs && fs[2] in fs;
  }

  lemma NoSlashCount(req: Request)
    ensures Count(Path(req), '/') == 2 <==> NoSlash(req)
  {
    JoinCount(Fields(req), '/');
    FieldsSlashFree(req);
  }

  lemma NoSlashSplit(req: Request)
    requires NoSlash(req)
    ensures Split(Path(req), '/') == Fields(req)
  {
    FieldsSlashFree(req);
    SplitJoin(Fields(req), '/');
  }

  lemma NoSlashKeyUnique(r: Request, q: Request)
    requires NoSlash(r) && Key(q) == Key(r)
    ensures q == r
  {
    KeyIsJoin(r);
    KeyIsJoin(q);
    NoSlashCount(r);
    NoSlashCount(q);
    NoSlashSplit(r);
    NoSlashSplit(q);
    var (a, b) := (Fields(r), Fields(q));
    assert a[0] == b[0] && a[1] == b[1] && a[2] == b[2];
  }

  /** The exact condition: a request shares its key with no other if and only if no component
      holds a slash. */
  lemma KeyUniqueIff(r: Request)
    ensures (forall q :: Key(q) == Key(r) ==> q == r) <==> NoSlash(r)
  {
    if NoSlash(r) {
      forall q | Key(q) == Key(r) ensures q == r { NoSlashKeyUnique(r, q); }
    } else {
      var q := OtherWithSameKey(r);
      assert Key(q) == Key(r) && q != r;
    }
  }

  lemma OtherWithSameKey(r: Request) returns (q: Request)
    requires !NoSlash(r)
    ensures Key(q) == Key(r) && q != r
  {
    var (t, c, id) := (r.trustRoot, r.capabilityNode, r.agentId);
    if '/' in t {
      CutAtIndex(t, '/');
      var i := Index(t, '/');
      KeysCollide(t[..i], t[i + 1..], c, id);
      q := Request(t[..i], t[i + 1..] + "/" + c, id);
      assert r == Request(t[..i] + "/" + t[i + 1..], c, id);
    } else if '/' in c {
      CutAtIndex(c, '/');
      var i := Index(c, '/');
      KeysCollide(t, c[..i], c[i + 1..], id);
      q := Request(t + "/" + c[..i], c[i + 1..], id);
      assert r == Request(t, c[..i] + "/" + c[i + 1..], id);
    } else {
      CutAtIndex(id, '/');
      var i := Index(id, '/');
      KeysCollide(c, id[..i], id[i + 1..], t);
      q := Request(t, c + "/" + id[..i], id[i + 1..]);
      assert r == Request(t, c, id[..i] + "/" + id[i + 1..]);
    }
  }

  /** A hit rebuilds the URI from the request. For a row asked for by its own trust root,
      category and agent ID that is the URI the registry prints exactly when the row has no
      primary skill. */
  lemma HitURIIff(r: AgentTable.Row)
    ensures Key(Request(r.trustRoot, Capability.TopLevelCategory(r.capabilityNode), r.agentID)) == AgentTable.URI(r)
            <==> r.primarySkill == ""
  {
  }

  // ------------------------------------------------------- the cache

  type Entries = map<string, Entry>

  function DoGet(es: Entries, key: string, now: Time): Option<Data> {
    if key in es && now <= es[key].expiresAt then Some(es[key].data) else None
  }

  function DoEvict(es: Entries, now: Time): Entries {
    map k | k in es && now <= es[k].expiresAt :: es[k]
  }

  class Cache {
    const ttl: Time
    var entries: Entries

    constructor (ttl: Time)
      ensures this.ttl == ttl && entries == map[]
    {
      this.ttl := ttl;
      entries := map[];
    }

    method Get(key: string, now: Time) returns (data: Option<Data>)
      ensures data == DoGet(entries, key, now)
      ensures data == if key in entries && now <= entries[key].expiresAt then Some(entries[key].data) else None
    {
      if key !in entries || now > entries[key].expiresAt { return None; }
      return Some(entries[key].data);
    }

    method Set(key: string, data: Data, now: Time)
      modifies this
      ensures entries == old(entries)[key := Entry(data, now + ttl)]
    {
      entries := entries[key := Entry(data, now + ttl)];
    }

    method Invalidate(key: string)
      modifies this
      ensures entries == old(entries) - {key}
    {
      entries := entries - {key};
    }

    method Evict(now: Time) returns (n: nat)
      modifies this
      ensures entries == DoEvict(old(entries), now)
      ensures n == |old(entries)| - |entries|
      ensures forall k :: k in entries <==> k in old(entries) && now <= old(entries)[k].expiresAt
      ensures forall k | k in entries :: entries[k] == old(entries)[k]
    {
      n := 0;
      var todo := entries.Keys;
      ghost var before := entries;
      while todo != {}
        invariant todo <= entries.Keys
        invariant forall k :: k in entries <==> k in before && (k in todo || now <= before[k].expiresAt)
        invariant forall k | k in entries :: entries[k] == before[k]
        invariant n + |entries| == |before|
        decreases |todo|
      {
        var k :| k in todo;
        todo := todo - {k};
        if now > entries[k].expiresAt {
          assert (entries - {k}).Keys == entries.Keys - {k} && |entries| == |entries.Keys|;
          assert |entries - {k}| == |(entries - {k}).Keys|;
          entries := entries - {k};
          n := n + 1;
        }
      }
    }
  }

  // ------------------------------------------------------- concurrent calls

  /** A call after its miss, and after the registry's reply. */
  datatype Phase = Missed(req: Request) | Fetched(req: Request, reply: Reply)

  datatype Mark = Stored(req: Request, data: Data, at: Time) | Invalidated(req: Request)

  datatype Answer = Answer(req: Request, response: Response, at: Time)

  /** The cache, the calls in progress and the responses given; history: stores and
      invalidations in order, and the registry's replies. */
  datatype World = World(
    entries: Entries, calls: map<ThreadId, Phase>, answers: seq<Answer>, marks: seq<Mark>, given: set<(Request, Data)>)

  datatype Event =
    | Resolve(th: ThreadId, req: Request, at: Time)
    | Fetch(th: ThreadId, reply: Option<Reply>, at: Time)
    | Store(th: ThreadId, at: Time)
    | Invalidate(req: Request, at: Time)
    | Evict(at: Time)

  function Answered(w: World, req: Request, response: Response, at: Time): World {
    w.(answers := w.answers + [Answer(req, response, at)])
  }

  /** The lookup that starts a call; a positive TTL switches caching on. */
  function DoResolve(ttl: Time, w: World, th: ThreadId, req: Request, at: Time): World {
    if th in w.calls then w
    else if !ValidRequest(req) then Answered(w, req, Failed, at)
    else
      var hit := if ttl > 0 then DoGet(w.entries, Key(req), at) else None;
      if hit.Some? then Answered(w, req, Resolved(Key(req), hit.value), at)
      else w.(calls := w.calls[th := Missed(req)])
  }

  function DoFetch(w: World, th: ThreadId, reply: Option<Reply>, at: Time): World {
    if th !in w.calls || !w.calls[th].Missed? then w
    else
      var req := w.calls[th].req;
      if reply.None? then Answered(w, req, Failed, at).(calls := w.calls - {th})
      else w.(calls := w.calls[th := Fetched(req, reply.value)], given := w.given + {(req, reply.value.data)})
  }

  function DoStore(ttl: Time, w: World, th: ThreadId, at: Time): World {
    if th !in w.calls || !w.calls[th].Fetched? then w
    else
      var (req, reply) := (w.calls[th].req, w.calls[th].reply);
      var w' := Answered(w, req, Resolved(reply.uri, reply.data), at).(calls := w.calls - {th});
      if ttl <= 0 then w'
      else w'.(entries := w.entries[Key(req) := Entry(reply.data, at + ttl)],
          marks := w.marks + [Stored(req, reply.data, at)])
  }

  function DoInvalidate(w: World, req: Request): World {
    w.(entries := w.entries - {Key(req)}, marks := w.marks + [Invalidated(req)])
  }

  function Next(ttl: Time, w: World, e: Event): World {
    match e
    case Resolve(th, req, at) => DoResolve(ttl, w, th, req, at)
    case Fetch(th, reply, at) => DoFetch(w, th, reply, at)
    case Store(th, at) => DoStore(ttl, w, th, at)
    case Invalidate(req, _) => DoInvalidate(w, req)
    case Evict(at) => w.(entries := DoEvict(w.entries, at))
  }

  function Run(ttl: Time, w: World, events: seq<Event>): World
    decreases |events|
  {
    if events == [] then w else Run(ttl, Next(ttl, w, events[0]), events[1..])
  }

  /** A call that nothing interleaves with. */
  function OneCall(ttl: Time, es: Entries, req: Request, now: Time, reply: Option<Reply>, later: Time): World {
    var w := DoResolve(ttl, World(es, map[], [], [], {}), 0, req, now);
    DoStore(ttl, DoFetch(w, 0, reply, now), 0, later)
  }

  /** Service.Resolve; reply is what the registry says if it is asked. */
  method ResolveCall(cache: Cache, req: Request, now: Time, reply: Option<Reply>, later: Time)
    returns (response: Response)
    modifies cache
    ensures var w := OneCall(cache.ttl, old(cache.entries), req, now, reply, later);
            && cache.entries == w.entries
            && |w.answers| == 1 && w.answers[0].req == req && w.answers[0].response == response
    ensures var es := old(cache.entries);
            var key := "agent://" + req.trustRoot + "/" + req.capabilityNode + "/" + req.agentId;
            if req.trustRoot == "" || req.capabilityNode == "" || req.agentId == "" then
              response == Failed && cache.entries == es
            else if cache.ttl > 0 && key in es && now <= es[key].expiresAt then
              response == Resolved(key, es[key].data) && cache.entries == es
            else if reply.None? then
              response == Failed && cache.entries == es
            else
              && response == Resolved(reply.value.uri, reply.value.data)
              && cache.entries == if cache.ttl > 0 then es[key := Entry(reply.value.data, later + cache.ttl)] else es
  {
    if req.trustRoot == "" || req.capabilityNode == "" || req.agentId == "" { return Failed; }
    var key := Key(req);
    if cache.ttl > 0 {
      var hit := cache.Get(key, now);
      if hit.Some? { return Resolved(key, hit.value); }
    }
    if reply.None? { return Failed; }
    if cache.ttl > 0 { cache.Set(key, reply.value.data, later); }
    return Resolved(reply.value.uri, reply.value.data);
  }

  const EMPTY: World := World(map[], map[], [], [], {})

  predicate CleanEvent(e: Event) {
    match e
    case Resolve(_, req, _) => SlashFree(req)
    case Invalidate(req, _) => SlashFree(req)
    case _ => true
  }

  /** Requests without stray slashes, and a clock that never goes back. */
  predicate Timely(events: seq<Event>, now: Time)
    decreases |events|
  {
    events == [] || (now <= events[0].at && CleanEvent(events[0]) && Timely(events[1..], events[0].at))
  }

  // ------------------------------------------------------- the specification

  /** The last mark of a request, if it is a store: no keys, no expiry, no evictions. */
  function Latest(marks: seq<Mark>, req: Request): Option<(Data, Time)> {
    if marks == [] then None
    else
      var m := marks[|marks| - 1];
      if m.req != req then Latest(marks[..|marks| - 1], req)
      else if m.Stored? then Some((m.data, m.at)) else None
  }

  function Fresh(ttl: Time, latest: Option<(Data, Time)>, t: Time): Option<Data> {
    if latest.Some? && t <= latest.value.1 + ttl then Some(latest.value.0) else None
  }

  lemma {:induction false} LatestIsAMark(marks: seq<Mark>, req: Request) returns (i: nat)
    requires Latest(marks, req).Some?
    ensures i < |marks| && marks[i] == Stored(req, Latest(marks, req).value.0, Latest(marks, req).value.1)
    ensures forall k | i < k < |marks| :: marks[k].req != req
  {
    i := |marks| - 1;
    if marks[i].req != req { i := LatestIsAMark(marks[..i], req); }
  }

  // ------------------------------------------------------- the cache against the specification

  /** The entry of a key is the latest store; a missing entry was never stored, was
      invalidated, or is too old. */
  predicate EntryOk(ttl: Time, es: Entries, key: string, latest: Option<(Data, Time)>, now: Time) {
    if key in es then latest == Some((es[key].data, es[key].expiresAt - ttl))
    else latest.None? || now > latest.value.1 + ttl
  }

  ghost predicate CacheOk(ttl: Time, es: Entries, marks: seq<Mark>, now: Time) {
    forall req | SlashFree(req) :: EntryOk(ttl, es, Key(req), Latest(marks, req), now)
  }

  ghost predicate CallsOk(calls: map<ThreadId, Phase>, given: set<(Request, Data)>) {
    forall th | th in calls ::
      SlashFree(calls[th].req) && (calls[th].Fetched? ==> (calls[th].req, calls[th].reply.data) in given)
  }

  ghost predicate MarksOk(marks: seq<Mark>, given: set<(Request, Data)>, now: Time) {
    forall i | 0 <= i < |marks| && marks[i].Stored? ::
      marks[i].at <= now && (marks[i].req, marks[i].data) in given
  }

  ghost predicate Inv(ttl: Time, w: World, now: Time) {
    CacheOk(ttl, w.entries, w.marks, now) && CallsOk(w.calls, w.given) && MarksOk(w.marks, w.given, now)
  }

  lemma CacheTimePasses(ttl: Time, es: Entries, marks: seq<Mark>, now: Time, at: Time)
    requires CacheOk(ttl, es, marks, now) && now <= at
    ensures CacheOk(ttl, es, marks, at)
  {
  }

  lemma CacheMarked(ttl: Time, es: Entries, es': Entries, marks: seq<Mark>, m: Mark, now: Time)
    requires CacheOk(ttl, es, marks, now) && SlashFree(m.req)
    requires es' == if m.Stored? then es[Key(m.req) := Entry(m.data, m.at + ttl)] else es - {Key(m.req)}
    ensures CacheOk(ttl, es', marks + [m], now)
  {
    forall req | SlashFree(req) ensures EntryOk(ttl, es', Key(req), Latest(marks + [m], req), now) {
      assert EntryOk(ttl, es, Key(req), Latest(marks, req), now);
      assert (marks + [m])[..|marks|] == marks;
      if req != m.req && Key(req) == Key(m.req) { KeyInjective(req, m.req); }
    }
  }

  lemma CacheEvicted(ttl: Time, es: Entries, marks: seq<Mark>, now: Time)
    requires CacheOk(ttl, es, marks, now)
    ensures CacheOk(ttl, DoEvict(es, now), marks, now)
  {
  }

  lemma NextKeepsInv(ttl: Time, w: World, e: Event, now: Time)
    requires Inv(ttl, w, now) && now <= e.at && CleanEvent(e)
    ensures Inv(ttl, Next(ttl, w, e), e.at)
  {
    CacheTimePasses(ttl, w.entries, w.marks, now, e.at);
    var w' := Next(ttl, w, e);
    match e
    case Store(th, at) =>
      if th in w.calls && w.calls[th].Fetched? && ttl > 0 {
        var m := Stored(w.calls[th].req, w.calls[th].reply.data, at);
        CacheMarked(ttl, w.entries, w'.entries, w.marks, m, at);
      }
    case Invalidate(req, at) => CacheMarked(ttl, w.entries, w'.entries, w.marks, Invalidated(req), at);
    case Evict(at) => CacheEvicted(ttl, w.entries, w.marks, at);
    case _ =>
  }

  function Last(events: seq<Event>, now: Time): Time { if events == [] then now else events[|events| - 1].at }

  lemma {:induction false} RunKeepsInv(ttl: Time, w: World, events: seq<Event>, now: Time)
    requires Inv(ttl, w, now) && Timely(events, now)
    ensures Inv(ttl, Run(ttl, w, events), Last(events, now))
    decreases |events|
  {
    if events != [] {
      NextKeepsInv(ttl, w, events[0], now);
      RunKeepsInv(ttl, Next(ttl, w, events[0]), events[1..], events[0].at);
    }
  }

  /** The cache refines its specification. After any interleaving, a lookup gives what the
      last mark of the same request calls for: a hit exactly when that is a store at most one
      TTL ago. */
  lemma LookupRefines(ttl: Time, events: seq<Event>, start: Time, req: Request, t: Time)
    requires Timely(events, start) && SlashFree(req) && Last(events, start) <= t
    ensures var w := Run(ttl, EMPTY, events);
            DoGet(w.entries, Key(req), t) == Fresh(ttl, Latest(w.marks, req), t)
  {
    RunKeepsInv(ttl, EMPTY, events, start);
    var w := Run(ttl, EMPTY, events);
    assert EntryOk(ttl, w.entries, Key(req), Latest(w.marks, req), Last(events, start));
  }

  /** A hit has bounded age: the registry gave it for the same request, it was stored at some
      s with s <= t <= s + TTL, and that request was neither stored again nor invalidated since. */
  lemma HitHasBoundedAge(ttl: Time, events: seq<Event>, start: Time, req: Request, t: Time) returns (i: nat)
    requires Timely(events, start) && SlashFree(req) && Last(events, start) <= t
    requires DoGet(Run(ttl, EMPTY, events).entries, Key(req), t).Some?
    ensures var w := Run(ttl, EMPTY, events);
            var data := DoGet(w.entries, Key(req), t).value;
            && i < |w.marks| && w.marks[i].Stored? && w.marks[i].req == req && w.marks[i].data == data
            && w.marks[i].at <= t <= w.marks[i].at + ttl && (req, data) in w.given
            && forall k | i < k < |w.marks| :: w.marks[k].req != req
  {
    LookupRefines(ttl, events, start, req, t);
    RunKeepsInv(ttl, EMPTY, events, start);
    i := LatestIsAMark(Run(ttl, EMPTY, events).marks, req);
  }

  // ------------------------------------------------------- every call is answered once

  /** The calls that a run starts. */
  function Started(ttl: Time, w: World, events: seq<Event>): nat
    decreases |events|
  {
    if events == [] then 0
    else
      (if events[0].Resolve? && events[0].th !in w.calls then 1 else 0)
      + Started(ttl, Next(ttl, w, events[0]), events[1..])
  }

  lemma AnsweredOnce(ttl: Time, w: World, e: Event)
    ensures var w' := Next(ttl, w, e);
            |w'.answers| + |w'.calls| ==
            |w.answers| + |w.calls| + if e.Resolve? && e.th !in w.calls then 1 else 0
  {
    assert |w.calls| == |w.calls.Keys|;
    if (e.Fetch? || e.Store?) && e.th in w.calls {
      var rest := w.calls - {e.th};
      assert rest.Keys == w.calls.Keys - {e.th} && |rest| == |rest.Keys|;
      assert w.calls[e.th := w.calls[e.th]] == w.calls;
    }
  }

  /** Every call is answered once, or is still under way, in every interleaving. */
  lemma {:induction false} EachAnsweredOnce(ttl: Time, w: World, events: seq<Event>)
    ensures var w' := Run(ttl, w, events);
            |w'.answers| + |w'.calls| == |w.answers| + |w.calls| + Started(ttl, w, events)
    decreases |events|
  {
    if events != [] {
      AnsweredOnce(ttl, w, events[0]);
      EachAnsweredOnce(ttl, Next(ttl, w, events[0]), events[1..]);
    }
  }

  // ------------------------------------------------------- evictions are invisible

  function WithoutEvictions(events: seq<Event>): seq<Event> {
    if events == [] then []
    else (if events[0].Evict? then [] else [events[0]]) + WithoutEvictions(events[1..])
  }

  /** Two runs that differ in their cache contents only, both within the specification. */
  ghost predicate Same(ttl: Time, v: World, w: World, now: Time) {
    Inv(ttl, v, now) && Inv(ttl, w, now) && v == w.(entries := v.entries)
  }

  lemma SameLookup(ttl: Time, v: World, w: World, req: Request, now: Time, t: Time)
    requires Same(ttl, v, w, now) && now <= t && SlashFree(req)
    ensures DoGet(v.entries, Key(req), t) == DoGet(w.entries, Key(req), t)
  {
  }

  lemma SameNext(ttl: Time, v: World, w: World, e: Event, now: Time)
    requires Same(ttl, v, w, now) && now <= e.at && CleanEvent(e)
    ensures Same(ttl, Next(ttl, v, e), Next(ttl, w, e), e.at)
  {
    NextKeepsInv(ttl, v, e, now);
    NextKeepsInv(ttl, w, e, now);
    if e.Resolve? { SameLookup(ttl, v, w, e.req, now, e.at); }
  }

  lemma {:induction false} SameRun(ttl: Time, v: World, w: World, events: seq<Event>, now: Time)
    requires Same(ttl, v, w, now) && Timely(events, now)
    ensures Run(ttl, v, events).answers == Run(ttl, w, WithoutEvictions(events)).answers
    decreases |events|
  {
    if events != [] {
      var e := events[0];
      if e.Evict? {
        NextKeepsInv(ttl, v, e, now);
        CacheTimePasses(ttl, w.entries, w.marks, now, e.at);
        SameRun(ttl, Next(ttl, v, e), w, events[1..], e.at);
        assert WithoutEvictions(events) == WithoutEvictions(events[1..]);
      } else {
        SameNext(ttl, v, w, e, now);
        SameRun(ttl, Next(ttl, v, e), Next(ttl, w, e), events[1..], e.at);
        assert WithoutEvictions(events)[1..] == WithoutEvictions(events[1..]);
      }
    }
  }

  /** Two runs that differ in nothing but evictions, wherever they fall, give the same
      responses. */
  lemma EvictionsInvisible(ttl: Time, events: seq<Event>, others: seq<Event>, start: Time)
    requires Timely(events, start) && Timely(others, start)
    requires WithoutEvictions(events) == WithoutEvictions(others)
    ensures Run(ttl, EMPTY, events).answers == Run(ttl, EMPTY, others).answers
  {
    SameRun(ttl, EMPTY, EMPTY, events, start);
    SameRun(ttl, EMPTY, EMPTY, others, start);
  }

  // ------------------------------------------------------- invalidations

  ghost predicate CallsClean(calls: map<ThreadId, Phase>) { forall th | th in calls :: SlashFree(calls[th].req) }

  /** What an invalidation of req is for: in every continuation, whatever a lookup of req hits
      was replied after it. (The record of replies starts out empty.) */
  ghost predicate InvalidationLasts(ttl: Time, w: World, req: Request, now: Time) {
    forall events, t | Timely(events, now) && Last(events, now) <= t ::
      HitsAreNew(Run(ttl, DoInvalidate(w, req).(given := {}), events), req, t)
  }

  predicate HitsAreNew(w: World, req: Request, t: Time) {
    var hit := DoGet(w.entries, Key(req), t);
    hit.Some? ==> (req, hit.value) in w.given
  }

  /** The data of req in the cache and in calls about to store it is among the replies. */
  ghost predicate NewOnly(w: World, req: Request) {
    && (Key(req) in w.entries ==> (req, w.entries[Key(req)].data) in w.given)
    && CallsClean(w.calls)
    && forall th | th in w.calls && w.calls[th].Fetched? && w.calls[th].req == req ::
         (req, w.calls[th].reply.data) in w.given
  }

  lemma NextKeepsNew(ttl: Time, w: World, e: Event, req: Request)
    requires SlashFree(req) && NewOnly(w, req) && CleanEvent(e)
    ensures NewOnly(Next(ttl, w, e), req)
  {
    if e.Store? && e.th in w.calls && w.calls[e.th].Fetched? {
      var stored := w.calls[e.th].req;
      if Key(stored) == Key(req) { KeyInjective(stored, req); }
    }
  }

  lemma {:induction false} RunKeepsNew(ttl: Time, w: World, events: seq<Event>, now: Time, req: Request)
    requires SlashFree(req) && NewOnly(w, req) && Timely(events, now)
    ensures NewOnly(Run(ttl, w, events), req)
    decreases |events|
  {
    if events != [] {
      NextKeepsNew(ttl, w, events[0], req);
      RunKeepsNew(ttl, Next(ttl, w, events[0]), events[1..], events[0].at, req);
    }
  }

  predicate NoReplyPending(w: World, req: Request) {
    forall th | th in w.calls && w.calls[th].Fetched? :: w.calls[th].req != req
  }

  /** The exact condition: an invalidation lasts if and only if at that moment no call holds a
      reply for the same request that it has not stored yet. */
  lemma InvalidationLastsIff(ttl: Time, w: World, req: Request, now: Time)
    requires ttl > 0 && SlashFree(req) && CallsClean(w.calls)
    ensures InvalidationLasts(ttl, w, req, now) <==> NoReplyPending(w, req)
  {
    var w' := DoInvalidate(w, req).(given := {});
    if NoReplyPending(w, req) {
      forall events, t | Timely(events, now) && Last(events, now) <= t
        ensures HitsAreNew(Run(ttl, w', events), req, t)
      {
        RunKeepsNew(ttl, w', events, now, req);
      }
    } else {
      var th :| th in w.calls && w.calls[th].Fetched? && w.calls[th].req == req;
      var events := [Store(th, now)];
      assert events[1..] == [] && events[|events| - 1] == Store(th, now);
      assert events[0].at == now;
      assert Timely(events, now);
      assert Last(events, now) == now;
      assert Run(ttl, w', events) == DoStore(ttl, w', th, now);
      assert !HitsAreNew(Run(ttl, w', events), req, now);
    }
  }

  /** An invalidation between a call's reply and its store does not last: the old data is
      stored after it and served for a whole TTL. */
  lemma InvalidationOvertaken(ttl: Time, w: World, th: ThreadId, other: ThreadId, t: Time)
    requires ttl > 0 && th in w.calls && w.calls[th].Fetched? && ValidRequest(w.calls[th].req)
    requires other !in w.calls && other != th
    ensures var (req, reply) := (w.calls[th].req, w.calls[th].reply);
            var w' := Run(ttl, w, [Invalidate(req, t), Store(th, t), Resolve(other, req, t + ttl)]);
            w'.answers == w.answers
                + [Answer(req, Resolved(reply.uri, reply.data), t),
                    Answer(req, Resolved(Key(req), reply.data), t + ttl)]
  {
    var (req, reply) := (w.calls[th].req, w.calls[th].reply);
    var events := [Invalidate(req, t), Store(th, t), Resolve(other, req, t + ttl)];
    var w1 := DoInvalidate(w, req);
    var w2 := DoStore(ttl, w1, th, t);
    var w3 := DoResolve(ttl, w2, other, req, t + ttl);
    assert events[1..] == [Store(th, t), Resolve(other, req, t + ttl)]
             && events[1..][1..] == [Resolve(other, req, t + ttl)];
    assert Run(ttl, w, events) == Run(ttl, w1, events[1..]) == Run(ttl, w2, events[1..][1..]) == Run(ttl, w3, []);
  }
}
