/** Runs of the limiter that go over the advertised rate, or that forget too early, and with
    them the exact conditions under which no run does. */
module RateSchedules {
  import opened Strings
  import opened RateLimit
  import opened RateBound

  // ------------------------------------------------------- pieces of runs

  function DecisionOf(cfg: Config, w: World, e: Event): seq<Decision>
    requires WellFormed(w)
  {
    if e.Take? && Ready(w, e.th) then
      var c := w.calls[e.th];
      [Decision(c.ip, c.reading.value, Allows(cfg, w.heap[c.bucket], c.reading.value))]
    else []
  }

  ghost predicate Patient(w: World, at: Time, p: Time) { forall th | th in w.calls :: at <= w.calls[th].since + p }

  /** A piece of a run: from a world at a time, events that come to decisions and end in a
      world at a later time. */
  datatype Piece = Piece(
    start: World, from: Time, events: seq<Event>, ds: seq<Decision>, end: World, until: Time)

  /** The events do lead there in time, whatever follows. */
  ghost predicate Leads(cfg: Config, p: Time, piece: Piece) {
    match piece
    case Piece(w, now, events, ds, w', later) =>
      && WellFormed(w) && WellFormed(w')
      && forall rest {:trigger Decisions(cfg, w, events + rest)} {:trigger Timely(cfg, w, events + rest, now, p)} ::
           && Decisions(cfg, w, events + rest) == ds + Decisions(cfg, w', rest)
           && (Timely(cfg, w', rest, later, p) ==> Timely(cfg, w, events + rest, now, p))
  }

  predicate Between(x: Piece, start: World, from: Time, ds: seq<Decision>, end: World, until: Time) {
    x.start == start && x.from == from && x.ds == ds && x.end == end && x.until == until
  }

  lemma LeadsEvent(cfg: Config, p: Time, w: World, now: Time, e: Event) returns (x: Piece)
    requires WellFormed(w) && now <= e.at && Patient(w, e.at, p)
    ensures Leads(cfg, p, x) && x.events == [e]
    ensures Between(x, w, now, DecisionOf(cfg, w, e), Next(cfg, w, e), e.at)
  {
    forall rest
      ensures Decisions(cfg, w, [e] + rest) == DecisionOf(cfg, w, e) + Decisions(cfg, Next(cfg, w, e), rest)
      ensures Timely(cfg, Next(cfg, w, e), rest, e.at, p) ==> Timely(cfg, w, [e] + rest, now, p)
    {
      assert ([e] + rest)[1..] == rest;
    }
    x := Piece(w, now, [e], DecisionOf(cfg, w, e), Next(cfg, w, e), e.at);
  }

  function Joined(x: Piece, y: Piece): Piece {
    Piece(x.start, x.from, x.events + y.events, x.ds + y.ds, y.end, y.until)
  }

  lemma LeadsOn(cfg: Config, p: Time, x: Piece, y: Piece)
    requires Leads(cfg, p, x) && Leads(cfg, p, y) && x.end == y.start && x.until == y.from
    ensures Leads(cfg, p, Joined(x, y))
  {
    var (w, w2) := (x.start, y.end);
    forall rest
      ensures Decisions(cfg, w, (x.events + y.events) + rest) == (x.ds + y.ds) + Decisions(cfg, w2, rest)
      ensures Timely(cfg, w2, rest, y.until, p) ==> Timely(cfg, w, (x.events + y.events) + rest, x.from, p)
    {
      assert (x.events + y.events) + rest == x.events + (y.events + rest);
      assert (x.ds + y.ds) + Decisions(cfg, w2, rest) == x.ds + (y.ds + Decisions(cfg, w2, rest));
    }
  }

  lemma LeadsRun(cfg: Config, p: Time, x: Piece)
    requires Leads(cfg, p, x)
    ensures Decisions(cfg, x.start, x.events) == x.ds && Timely(cfg, x.start, x.events, x.from, p)
  {
    assert x.events + [] == x.events && x.ds + [] == x.ds;
    assert Decisions(cfg, x.end, []) == [];
  }

  lemma ThreeLead(cfg: Config, p: Time, x: Piece, y: Piece, z: Piece) returns (r: Piece)
    requires Leads(cfg, p, x) && Leads(cfg, p, y) && Leads(cfg, p, z)
    requires x.end == y.start && x.until == y.from && y.end == z.start && y.until == z.from
    ensures Leads(cfg, p, r) && Between(r, x.start, x.from, x.ds + y.ds + z.ds, z.end, z.until)
    ensures r.events == x.events + y.events + z.events
  {
    LeadsOn(cfg, p, x, y);
    LeadsOn(cfg, p, Joined(x, y), z);
    r := Joined(Joined(x, y), z);
  }

  // ------------------------------------------------------- requests that nothing interleaves with

  /** One address, its bucket the last one of the heap, and possibly an early request that has
      looked up and read at the same time and waits. */
  datatype Spot = Spot(older: seq<Bucket>, bucket: Bucket, seen: Time, early: Option<Time>)

  function At(s: Spot): World {
    World(map["" := Entry(|s.older|, s.seen)], s.older + [s.bucket],
          if s.early.Some? then map[0 := Call("", |s.older|, s.early.value, Some(s.early.value))] else map[])
  }

  /** The early request can wait until time t. */
  predicate Waits(s: Spot, t: Time, p: Time) { 0.0 <= p && (s.early.Some? ==> t <= s.early.value + p) }

  function Drawn(cfg: Config, s: Spot, t: Time): Spot { s.(bucket := Asked(cfg, s.bucket, t), seen := t) }

  lemma RunsRequest(cfg: Config, p: Time, s: Spot, now: Time, t: Time) returns (x: Piece)
    requires now <= t && Waits(s, t, p)
    ensures Leads(cfg, p, x) && x.events != [] && x.events[0] == Lookup(1, "", t)
    ensures Between(x, At(s), now, [Decision("", t, Allows(cfg, s.bucket, t))], At(Drawn(cfg, s, t)), t)
  {
    var (w, id) := (At(s), |s.older|);
    var w1 := World(map["" := Entry(id, t)], w.heap, w.calls[1 := Call("", id, t, None)]);
    var w2 := World(map["" := Entry(id, t)], w.heap, w.calls[1 := Call("", id, t, Some(t))]);
    assert Next(cfg, w, Lookup(1, "", t)) == w1;
    assert Next(cfg, w1, Read(1, t)) == w2;
    TakesRequest(cfg, s, t, w2);
    var a := LeadsEvent(cfg, p, w, now, Lookup(1, "", t));
    var b := LeadsEvent(cfg, p, w1, t, Read(1, t));
    var c := LeadsEvent(cfg, p, w2, t, Take(1, t));
    x := ThreeLead(cfg, p, a, b, c);
  }

  lemma TakesRequest(cfg: Config, s: Spot, t: Time, w: World)
    requires w.entries == map["" := Entry(|s.older|, t)] && w.heap == s.older + [s.bucket]
    requires w.calls == At(s).calls[1 := Call("", |s.older|, t, Some(t))]
    ensures WellFormed(w) && DecisionOf(cfg, w, Take(1, t)) == [Decision("", t, Allows(cfg, s.bucket, t))]
    ensures Next(cfg, w, Take(1, t)) == At(Drawn(cfg, s, t))
  {
    assert w.calls - {1} == At(s).calls;
    assert w.heap[|s.older| := Asked(cfg, s.bucket, t)] == s.older + [Asked(cfg, s.bucket, t)];
  }

  function Granted(n: nat, t: Time): seq<Decision> {
    if n == 0 then [] else [Decision("", t, true)] + Granted(n - 1, t)
  }

  /** A spot after n requests at time t have been granted. */
  function After(cfg: Config, s: Spot, n: nat, t: Time): Spot {
    if n == 0 then s else s.(bucket := Bucket(Level(cfg, s.bucket, t) - n as real, t), seen := t)
  }

  lemma DrawnAfter(cfg: Config, s: Spot, n: nat, t: Time)
    requires n > 0 && Level(cfg, s.bucket, t) >= n as real
    ensures Allows(cfg, s.bucket, t) && After(cfg, Drawn(cfg, s, t), n - 1, t) == After(cfg, s, n, t)
    ensures Level(cfg, Drawn(cfg, s, t).bucket, t) == Level(cfg, s.bucket, t) - 1.0
  {
    assert Gain(cfg, 0.0) == 0.0;
  }

  /** A bucket with n tokens grants n requests. */
  lemma {:induction false} RunsRequests(cfg: Config, p: Time, s: Spot, now: Time, n: nat, t: Time) returns (x: Piece)
    requires now <= t && Waits(s, t, p) && n > 0 && Level(cfg, s.bucket, t) >= n as real
    ensures Leads(cfg, p, x) && x.events != [] && x.events[0] == Lookup(1, "", t)
    ensures Between(x, At(s), now, Granted(n, t), At(After(cfg, s, n, t)), t)
    decreases n
  {
    DrawnAfter(cfg, s, n, t);
    x := RunsRequest(cfg, p, s, now, t);
    if n == 1 {
      assert Granted(0, t) == [] && Granted(1, t) == [Decision("", t, true)];
    } else {
      var more := RunsRequests(cfg, p, Drawn(cfg, s, t), t, n - 1, t);
      LeadsOn(cfg, p, x, more);
      x := Joined(x, more);
    }
  }

  lemma {:induction false} GrantedCount(n: nat, t: Time, rest: seq<Decision>, from: Time, to: Time)
    requires from <= t <= to
    ensures AllowedIn(Granted(n, t) + rest, "", from, to) == n + AllowedIn(rest, "", from, to)
  {
    if n > 0 {
      assert (Granted(n, t) + rest)[1..] == Granted(n - 1, t) + rest;
      GrantedCount(n - 1, t, rest, from, to);
    } else {
      assert Granted(0, t) + rest == rest;
    }
  }

  /** The address is not remembered; the heap holds buckets of other times. */
  function Forgotten(older: seq<Bucket>): World { World(map[], older, map[]) }

  /** Then a lookup finds what it would find with a full bucket in place. */
  lemma ForgottenIsNew(cfg: Config, p: Time, older: seq<Bucket>, x: Piece) returns (y: Piece)
    requires Leads(cfg, p, x) && x.events != [] && x.events[0].Lookup? && x.events[0].ip == ""
    requires x.start == At(Spot(older, NewBucket(cfg), 0.0, None))
    ensures Leads(cfg, p, y) && Between(y, Forgotten(older), x.from, x.ds, x.end, x.until)
  {
    var (w, v, e) := (Forgotten(older), x.start, x.events[0]);
    assert Next(cfg, w, e) == Next(cfg, v, e);
    forall rest
      ensures Decisions(cfg, w, x.events + rest) == x.ds + Decisions(cfg, x.end, rest)
      ensures Timely(cfg, x.end, rest, x.until, p) ==> Timely(cfg, w, x.events + rest, x.from, p)
    {
      assert Decisions(cfg, w, x.events + rest) == Decisions(cfg, v, x.events + rest);
      assert Timely(cfg, v, x.events + rest, x.from, p) ==> Timely(cfg, w, x.events + rest, x.from, p);
    }
    y := x.(start := w);
  }

  lemma NewIsFull(cfg: Config, t: Time)
    requires 0.0 <= t
    ensures Level(cfg, NewBucket(cfg), t) == cfg.burst as real
  {
    GainMonotone(cfg, 0.0, t);
  }

  // ------------------------------------------------------- a request overtaken

  function Answered(s: Time, t: Time, n: nat): seq<Decision> { Granted(n, t) + [Decision("", s, true)] }

  lemma EarlyStarts(cfg: Config, p: Time, spot: Spot, now: Time, s: Time) returns (x: Piece)
    requires spot.early.None? && now <= s && 0.0 <= p
    ensures Leads(cfg, p, x) && x.events != [] && x.events[0] == Lookup(0, "", s)
    ensures Between(x, At(spot), now, [], At(spot.(seen := s, early := Some(s))), s)
  {
    var w := At(spot);
    var w1 := World(map["" := Entry(|spot.older|, s)], w.heap, map[0 := Call("", |spot.older|, s, None)]);
    assert Next(cfg, w, Lookup(0, "", s)) == w1;
    assert Next(cfg, w1, Read(0, s)) == At(spot.(seen := s, early := Some(s)));
    x := LeadsEvent(cfg, p, w, now, Lookup(0, "", s));
    var y := LeadsEvent(cfg, p, w1, s, Read(0, s));
    LeadsOn(cfg, p, x, y);
    x := Joined(x, y);
  }

  lemma EarlyTakes(cfg: Config, p: Time, spot: Spot, s: Time, t: Time) returns (x: Piece)
    requires cfg.burst >= 1 && spot.early == Some(s) && spot.bucket == Bucket(1.0, t) && s <= t <= s + p
    ensures Leads(cfg, p, x)
    ensures Between(x, At(spot), t, [Decision("", s, true)], At(spot.(bucket := Bucket(0.0, s), early := None)), t)
  {
    var w := At(spot);
    assert Gain(cfg, 0.0) == 0.0;
    assert Allows(cfg, spot.bucket, s) && Asked(cfg, spot.bucket, s) == Bucket(0.0, s);
    assert w.calls - {0} == map[];
    assert w.heap[|spot.older| := Bucket(0.0, s)] == spot.older + [Bucket(0.0, s)];
    assert Next(cfg, w, Take(0, t)) == At(spot.(bucket := Bucket(0.0, s), early := None));
    x := LeadsEvent(cfg, p, w, t, Take(0, t));
  }

  /** A block: a request reads time s and waits; n requests pass at time t; then it takes its
      token by s. It turns n + 1 tokens into as many grants and an empty bucket dated s. */
  lemma RunsBlock(cfg: Config, p: Time, spot: Spot, now: Time, s: Time, t: Time, n: nat) returns (x: Piece)
    requires cfg.burst >= 1 && spot.early.None? && n >= 1 && now <= s <= t <= s + p
    requires Level(cfg, spot.bucket, t) == (n + 1) as real
    ensures Leads(cfg, p, x) && x.events != [] && x.events[0] == Lookup(0, "", s)
    ensures Between(x, At(spot), now, Answered(s, t, n), At(spot.(bucket := Bucket(0.0, s), seen := t)), t)
  {
    var waiting := spot.(seen := s, early := Some(s));
    var a := EarlyStarts(cfg, p, spot, now, s);
    var b := RunsRequests(cfg, p, waiting, s, n, t);
    var c := EarlyTakes(cfg, p, After(cfg, waiting, n, t), s, t);
    x := ThreeLead(cfg, p, a, b, c);
    assert [] + Granted(n, t) == Granted(n, t);
  }

  /** Delays with which two tokens accrue from the reading of one block to the requests of the
      next. */
  lemma Delays(cfg: Config, p: Time) returns (q: Time, d: Time)
    requires cfg.rps >= 1 && p > 0.0
    ensures 0.0 < q <= p && q <= d && Gain(cfg, d + q) == 2.0 && Gain(cfg, q) > 0.0
  {
    var r := cfg.rps as real;
    var share := 1.0 / r;
    assert r * share == 1.0 && share > 0.0;
    q := if p < share then p else share;
    d := 2.0 * share - q;
    assert d + q == 2.0 * share && Gain(cfg, 2.0 * share) == 2.0 * (r * share);
  }

  /** An empty bucket dated s. */
  function Empty(s: Time, seen: Time): World { At(Spot([], Bucket(0.0, s), seen, None)) }

  /** The first block uses up a whole burst. */
  lemma FirstBlock(cfg: Config, p: Time, q: Time) returns (x: Piece)
    requires cfg.burst >= 2 && 0.0 <= q <= p
    ensures Leads(cfg, p, x) && Between(x, EMPTY, 0.0, Answered(0.0, q, cfg.burst - 1), Empty(0.0, q), q)
  {
    NewIsFull(cfg, q);
    x := RunsBlock(cfg, p, Spot([], NewBucket(cfg), 0.0, None), 0.0, 0.0, q, cfg.burst - 1);
    x := ForgottenIsNew(cfg, p, [], x);
    assert EMPTY == Forgotten([]);
  }

  /** A later block uses up what has accrued since the reading of the one before, some of it
      for the second time. */
  lemma LaterBlock(cfg: Config, p: Time, seen: Time, s: Time, s1: Time, t: Time) returns (x: Piece)
    requires cfg.burst >= 2 && seen <= s1 <= t <= s1 + p && s <= t && Gain(cfg, t - s) == 2.0
    ensures Leads(cfg, p, x) && Between(x, Empty(s, seen), seen, Answered(s1, t, 1), Empty(s1, t), t)
  {
    x := RunsBlock(cfg, p, Spot([], Bucket(0.0, s), seen, None), seen, s1, t, 1);
  }

  lemma AnsweredCount(s: Time, t: Time, n: nat, rest: seq<Decision>, to: Time)
    requires 0.0 <= s <= t <= to
    ensures AllowedIn(Answered(s, t, n) + rest, "", 0.0, to) == n + 1 + AllowedIn(rest, "", 0.0, to)
  {
    var late := [Decision("", s, true)] + rest;
    assert Answered(s, t, n) + rest == Granted(n, t) + late && late[1..] == rest;
    GrantedCount(n, t, late, 0.0, to);
  }

  /** Three blocks, the readings of the last two at d and e. */
  lemma ThreeBlocks(cfg: Config, p: Time, q: Time, d: Time, e: Time) returns (events: seq<Event>)
    requires cfg.burst >= 2 && 0.0 <= q <= p && q <= d && d + q <= e
    requires Gain(cfg, d + q) == 2.0 && Gain(cfg, e + q - d) == 2.0
    ensures Timely(cfg, EMPTY, events, 0.0, p)
    ensures Decisions(cfg, EMPTY, events)
            == Answered(0.0, q, cfg.burst - 1) + Answered(d, d + q, 1) + Answered(e, e + q, 1)
  {
    var a := FirstBlock(cfg, p, q);
    var b := LaterBlock(cfg, p, q, 0.0, d, d + q);
    var c := LaterBlock(cfg, p, d + q, d, e, e + q);
    var x := ThreeLead(cfg, p, a, b, c);
    LeadsRun(cfg, p, x);
    events := x.events;
  }

  /** They let four more than a burst through, in a time in which less than four accrue. */
  lemma OvertakenExceeds(cfg: Config, p: Time) returns (events: seq<Event>, to: Time)
    requires cfg.burst >= 2 && cfg.rps >= 1 && p > 0.0
    ensures Timely(cfg, EMPTY, events, 0.0, p)
    ensures 0.0 <= to && AllowedIn(Decisions(cfg, EMPTY, events), "", 0.0, to) == cfg.burst + 4
    ensures Gain(cfg, to - 0.0) < 4.0
  {
    var q, d := Delays(cfg, p);
    var e := d + d;
    to := e + q;
    assert e + q - d == d + q;
    events := ThreeBlocks(cfg, p, q, d, e);
    ThreeCount(cfg.burst - 1, q, d, e, to);
    GainSplit(cfg, d + q, d + q);
    GainSplit(cfg, to, q);
  }

  lemma ThreeCount(n: nat, q: Time, d: Time, e: Time, to: Time)
    requires 0.0 <= q <= d && d + q <= e && to == e + q
    ensures AllowedIn(Answered(0.0, q, n) + Answered(d, d + q, 1) + Answered(e, e + q, 1), "", 0.0, to) == n + 5
  {
    var (x, y, z) := (Answered(0.0, q, n), Answered(d, d + q, 1), Answered(e, e + q, 1));
    assert (x + y) + z == x + (y + z) && z + [] == z;
    AnsweredCount(0.0, q, n, y + z, to);
    AnsweredCount(d, d + q, 1, z, to);
    AnsweredCount(e, e + q, 1, [], to);
  }

  lemma RateIsPositive(cfg: Config, patience: Time)
    requires cfg.burst >= 1 && Refills(cfg, patience)
    ensures cfg.rps >= 1
  {
    assert cfg.rps == 0 ==> Gain(cfg, IDLE - patience) == 0.0;
  }

  /** The exact condition: the advertised bound is kept in every run if and only if the burst is
      at most one or no time can pass between a request's lookup and its take. */
  lemma BoundKeptIff(cfg: Config, patience: Time)
    requires 0.0 <= patience <= 600.0 && cfg.burst as real <= cfg.rps as real * (600.0 - patience)
    ensures BoundKept(cfg, patience) <==> cfg.burst <= 1 || patience == 0.0
  {
    RefillsIff(cfg, patience);
    if cfg.burst <= 1 || patience == 0.0 {
      forall events, ip, from, to | Timely(cfg, EMPTY, events, 0.0, patience) && 0.0 <= from <= to
        ensures WithinRate(cfg, events, ip, from, to)
      {
        if cfg.burst <= 1 {
          BurstOneKeeps(cfg, events, patience, ip, from, to);
        } else {
          ZeroPatienceKeeps(cfg, events, ip, from, to);
        }
      }
    } else {
      RateIsPositive(cfg, patience);
      var events, to := OvertakenExceeds(cfg, patience);
      GainIs(cfg, to - 0.0);
      assert !WithinRate(cfg, events, "", 0.0, to);
    }
  }

  // ------------------------------------------------------- forgetting too early

  /** Calls k to n - 1, which have looked up at time 0 and wait. */
  function Waiting(k: nat, n: nat): (calls: map<ThreadId, Call>)
    ensures forall th :: th in calls <==> k <= th < n
    ensures forall th | th in calls :: calls[th] == Call("", 0, 0.0, None)
    decreases n
  {
    if n <= k then map[] else Waiting(k, n - 1)[n - 1 := Call("", 0, 0.0, None)]
  }

  function Crowd(k: nat, n: nat, b: Bucket): World { World(map["" := Entry(0, 0.0)], [b], Waiting(k, n)) }

  lemma {:induction false} CrowdGathers(cfg: Config, p: Time, n: nat) returns (x: Piece)
    requires n >= 1 && 0.0 <= p
    ensures Leads(cfg, p, x) && Between(x, EMPTY, 0.0, [], Crowd(0, n, NewBucket(cfg)), 0.0)
  {
    var (b, l) := (NewBucket(cfg), Lookup(n - 1, "", 0.0));
    if n == 1 {
      assert Next(cfg, EMPTY, l) == Crowd(0, 1, b);
      x := LeadsEvent(cfg, p, EMPTY, 0.0, l);
    } else {
      x := CrowdGathers(cfg, p, n - 1);
      assert Next(cfg, x.end, l) == Crowd(0, n, b);
      var y := LeadsEvent(cfg, p, x.end, 0.0, l);
      LeadsOn(cfg, p, x, y);
      x := Joined(x, y);
    }
  }

  lemma CrowdAnswers(cfg: Config, p: Time, k: nat, n: nat, b: Bucket, now: Time) returns (x: Piece)
    requires k < n && now <= p
    ensures Leads(cfg, p, x)
    ensures Between(x, Crowd(k, n, b), now, [Decision("", p, Allows(cfg, b, p))], Crowd(k + 1, n, Asked(cfg, b, p)), p)
  {
    var w := Crowd(k, n, b);
    var w1 := World(w.entries, [b], w.calls[k := Call("", 0, 0.0, Some(p))]);
    assert Next(cfg, w, Read(k, p)) == w1;
    assert w1.calls - {k} == Waiting(k + 1, n);
    assert [b][0 := Asked(cfg, b, p)] == [Asked(cfg, b, p)];
    assert Next(cfg, w1, Take(k, p)) == Crowd(k + 1, n, Asked(cfg, b, p));
    x := LeadsEvent(cfg, p, w, now, Read(k, p));
    var y := LeadsEvent(cfg, p, w1, p, Take(k, p));
    LeadsOn(cfg, p, x, y);
    x := Joined(x, y);
  }

  /** The crowd when calls k to n - 1 have taken their tokens by time p. */
  function Dispersed(cfg: Config, k: nat, n: nat, b: Bucket, p: Time): World {
    Crowd(n, n, if n <= k then b else Bucket(Level(cfg, b, p) - (n - k) as real, p))
  }

  lemma DispersesOn(cfg: Config, k: nat, n: nat, b: Bucket, p: Time)
    requires k < n && Level(cfg, b, p) >= (n - k) as real
    ensures Allows(cfg, b, p) && Level(cfg, Asked(cfg, b, p), p) == Level(cfg, b, p) - 1.0
    ensures Dispersed(cfg, k + 1, n, Asked(cfg, b, p), p) == Dispersed(cfg, k, n, b, p)
  {
    assert Gain(cfg, 0.0) == 0.0;
  }

  /** The whole crowd reads time p and takes its tokens. */
  lemma {:induction false} CrowdDrains(cfg: Config, p: Time, k: nat, n: nat, b: Bucket, now: Time) returns (x: Piece)
    requires k < n && now <= p && Level(cfg, b, p) >= (n - k) as real
    ensures Leads(cfg, p, x)
    ensures Between(x, Crowd(k, n, b), now, Granted(n - k, p), Dispersed(cfg, k, n, b, p), p)
    decreases n - k
  {
    DispersesOn(cfg, k, n, b, p);
    x := CrowdAnswers(cfg, p, k, n, b, now);
    if k + 1 == n {
      assert Granted(0, p) == [] && Granted(1, p) == [Decision("", p, true)];
    } else {
      var more := CrowdDrains(cfg, p, k + 1, n, Asked(cfg, b, p), p);
      LeadsOn(cfg, p, x, more);
      x := Joined(x, more);
    }
  }

  /** After the idle time has passed since the lookups the bucket is forgotten, however short
      ago it was drained, and a burst passes. */
  lemma SecondBurst(cfg: Config, p: Time, w: World, t: Time) returns (x: Piece)
    requires WellFormed(w) && w.entries == map["" := Entry(0, 0.0)] && w.calls == map[] && 0.0 <= p <= IDLE < t
    requires cfg.burst > 0
    ensures Leads(cfg, p, x) && x.start == w && x.from == p && x.ds == Granted(cfg.burst, t)
  {
    assert Next(cfg, w, Cleanup(t)) == Forgotten(w.heap);
    x := LeadsEvent(cfg, p, w, p, Cleanup(t));
    NewIsFull(cfg, t);
    var burst := RunsRequests(cfg, p, Spot(w.heap, NewBucket(cfg), 0.0, None), t, cfg.burst, t);
    burst := ForgottenIsNew(cfg, p, w.heap, burst);
    LeadsOn(cfg, p, x, burst);
    x := Joined(x, burst);
    assert [] + burst.ds == burst.ds;
  }

  /** A burst that looks up at once and reads at p, a cleanup just after the idle time has
      passed since the lookups, and another burst. */
  lemma TwoBursts(cfg: Config, p: Time, t: Time) returns (events: seq<Event>)
    requires cfg.burst >= 1 && 0.0 <= p <= IDLE < t
    ensures Timely(cfg, EMPTY, events, 0.0, p)
    ensures Decisions(cfg, EMPTY, events) == [] + Granted(cfg.burst, p) + Granted(cfg.burst, t)
  {
    var n := cfg.burst;
    NewIsFull(cfg, p);
    var a := CrowdGathers(cfg, p, n);
    var b := CrowdDrains(cfg, p, 0, n, NewBucket(cfg), 0.0);
    var c := SecondBurst(cfg, p, b.end, t);
    var x := ThreeLead(cfg, p, a, b, c);
    LeadsRun(cfg, p, x);
    events := x.events;
  }

  lemma {:induction false} GrantedInOrder(n: nat, t: Time, rest: seq<Decision>, now: Time)
    requires now <= t && InOrder(rest, "", t)
    ensures InOrder(Granted(n, t) + rest, "", now)
  {
    if n > 0 {
      assert (Granted(n, t) + rest)[1..] == Granted(n - 1, t) + rest;
      GrantedInOrder(n - 1, t, rest, t);
    } else {
      assert Granted(0, t) + rest == rest;
      InOrderEarlier(rest, "", now, t);
    }
  }

  /** No limiter that forgets nothing grants two bursts within less than the refill time. */
  lemma TwoBurstsUnfaithful(cfg: Config, p: Time, t: Time)
    requires 0.0 <= p <= t && Gain(cfg, t - p) < cfg.burst as real
    ensures !Faithful(cfg, map[], Granted(cfg.burst, p) + Granted(cfg.burst, t))
  {
    assert Gain(cfg, 0.0) == 0.0;
    var (n, second) := (cfg.burst, Granted(cfg.burst, t) + []);
    var ds := Granted(n, p) + second;
    assert second == Granted(n, t);
    GrantedInOrder(n, t, [], p);
    GrantedInOrder(n, p, second, 0.0);
    InOrderNoRegress(cfg, map[], ds, "", 0.0);
    GrantedCount(n, p, second, p, t);
    GrantedCount(n, t, [], p, t);
    if Faithful(cfg, map[], ds) { FaithfulBounded(cfg, ds, "", p, t); }
  }

  /** A time just after the idle time at which a burst drained at p has not accrued again. */
  lemma TooEarly(cfg: Config, p: Time) returns (t: Time)
    requires 0.0 <= p <= IDLE && !Refills(cfg, p)
    ensures t > IDLE && Gain(cfg, t - p) < cfg.burst as real && cfg.burst >= 1
  {
    var missing := cfg.burst as real - Gain(cfg, IDLE - p);
    var extra := missing / (cfg.rps as real + 1.0);
    GainMonotone(cfg, 0.0, IDLE - p);
    assert Gain(cfg, 0.0) == 0.0 && extra > 0.0 && Gain(cfg, extra) < missing;
    t := IDLE + extra;
    GainSplit(cfg, IDLE - p, extra);
    assert t - p == IDLE - p + extra;
  }

  /** Every decision of every run with this patience is that of a limiter that never forgets. */
  ghost predicate AlwaysFaithful(cfg: Config, patience: Time) {
    forall events | Timely(cfg, EMPTY, events, 0.0, patience) :: Faithful(cfg, map[], Decisions(cfg, EMPTY, events))
  }

  lemma ForgetsTooEarly(cfg: Config, p: Time)
    requires 0.0 <= p <= IDLE && !Refills(cfg, p)
    ensures !AlwaysFaithful(cfg, p)
  {
    var t := TooEarly(cfg, p);
    var events := TwoBursts(cfg, p, t);
    TwoBurstsUnfaithful(cfg, p, t);
    var (g, h) := (Granted(cfg.burst, p), Granted(cfg.burst, t));
    assert [] + g + h == g + h;
    assert !Faithful(cfg, map[], Decisions(cfg, EMPTY, events));
  }

  /** The exact condition for cleanup: it is invisible in every run if and only if a burst
      refills within the ten minutes of idle time less the longest time from lookup to take. */
  lemma CleanupInvisibleIff(cfg: Config, patience: Time)
    requires 0.0 <= patience <= 600.0
    ensures AlwaysFaithful(cfg, patience) <==> cfg.burst as real <= cfg.rps as real * (600.0 - patience)
  {
    RefillsIff(cfg, patience);
    if Refills(cfg, patience) {
      forall events | Timely(cfg, EMPTY, events, 0.0, patience)
        ensures Faithful(cfg, map[], Decisions(cfg, EMPTY, events))
      {
        CleanupInvisible(cfg, events, patience);
      }
    } else {
      ForgetsTooEarly(cfg, patience);
    }
  }
}
