/** How many requests of one address the limiter lets through. A request takes its token by a
    clock reading that others may have overtaken; the bucket then goes back to that reading
    and refills for the same time twice. */
module RateBound {
  import opened RateLimit

  /** Number of requests of an address allowed by a reading within a window. */
  function AllowedIn(ds: seq<Decision>, ip: string, from: Time, to: Time): nat {
    if ds == [] then 0
    else (if ds[0].ip == ip && ds[0].allowed && from <= ds[0].at <= to then 1 else 0) + AllowedIn(ds[1..], ip, from, to)
  }

  /** How far a granted request turns its bucket back. */
  function Back(b: Bucket, t: Time): Time { if t < b.last then b.last - t else 0.0 }

  /** How far the requests granted to an address turn its bucket back in all. */
  function Regress(cfg: Config, m: Ideal, ds: seq<Decision>, ip: string): Time
    decreases |ds|
  {
    if ds == [] then 0.0
    else
      var b := BucketOf(cfg, m, ds[0].ip);
      (if ds[0].ip == ip && Allows(cfg, b, ds[0].at) then Back(b, ds[0].at) else 0.0)
      + Regress(cfg, m[ds[0].ip := Asked(cfg, b, ds[0].at)], ds[1..], ip)
  }

  lemma {:induction false} RegressPositive(cfg: Config, m: Ideal, ds: seq<Decision>, ip: string)
    ensures Regress(cfg, m, ds, ip) >= 0.0
    decreases |ds|
  {
    if ds != [] {
      RegressPositive(cfg, m[ds[0].ip := Asked(cfg, BucketOf(cfg, m, ds[0].ip), ds[0].at)], ds[1..], ip);
    }
  }

  // ------------------------------------------------------- the budget of a window

  /** What a bucket can still give within a window: its tokens at the start of the window, or
      when it was last drawn from if that is later, and those that accrue from then on. */
  function Budget(cfg: Config, b: Bucket, from: Time, to: Time): real {
    if b.last >= from then b.tokens + Gain(cfg, to - b.last) else Level(cfg, b, from) + Gain(cfg, to - from)
  }

  lemma LevelSlope(cfg: Config, b: Bucket, t: Time, u: Time)
    requires b.last <= t <= u
    ensures Level(cfg, b, u) <= Level(cfg, b, t) + Gain(cfg, u - t)
  {
    GainSplit(cfg, t - b.last, u - t);
    GainMonotone(cfg, 0.0, u - t);
  }

  /** A request granted by a reading from the start of the window on uses up one unit of the
      budget, and what it turns the bucket back is gained again. */
  lemma GrantAfterStart(cfg: Config, b: Bucket, t: Time, from: Time, to: Time)
    requires Allows(cfg, b, t) && from <= t
    ensures Budget(cfg, Asked(cfg, b, t), from, to) <= Budget(cfg, b, from, to) - 1.0 + Gain(cfg, Back(b, t))
  {
    assert Gain(cfg, 0.0) == 0.0;
    if b.last < from {
      LevelSlope(cfg, b, from, t);
      GainSplit(cfg, t - from, to - t);
    } else if t < b.last {
      GainSplit(cfg, b.last - t, to - b.last);
    } else {
      GainSplit(cfg, t - b.last, to - t);
    }
  }

  lemma GrantBeforeStart(cfg: Config, b: Bucket, t: Time, from: Time, to: Time)
    requires Allows(cfg, b, t) && t < from
    ensures Budget(cfg, Asked(cfg, b, t), from, to) <= Budget(cfg, b, from, to) + Gain(cfg, Back(b, t))
  {
    assert Gain(cfg, 0.0) == 0.0;
    GainSplit(cfg, from - t, to - from);
    if t < b.last {
      if b.last >= from {
        GainSplit(cfg, b.last - t, to - b.last);
      } else {
        GainSplit(cfg, b.last - t, from - b.last);
        GainMonotone(cfg, 0.0, b.last - t);
      }
    } else {
      GainSplit(cfg, t - b.last, from - t);
      GainMonotone(cfg, 0.0, from - t);
    }
  }

  lemma {:induction false} WindowBudget(cfg: Config, m: Ideal, ds: seq<Decision>, ip: string, from: Time, to: Time)
    requires Faithful(cfg, m, ds) && from <= to && AllowedIn(ds, ip, from, to) > 0
    ensures AllowedIn(ds, ip, from, to) as real
            <= Budget(cfg, BucketOf(cfg, m, ip), from, to) + Gain(cfg, Regress(cfg, m, ds, ip))
    decreases |ds|
  {
    var (b, t) := (BucketOf(cfg, m, ds[0].ip), ds[0].at);
    var m' := m[ds[0].ip := Asked(cfg, b, t)];
    var rest := Regress(cfg, m', ds[1..], ip);
    RegressPositive(cfg, m', ds[1..], ip);
    GainMonotone(cfg, 0.0, rest);
    if AllowedIn(ds[1..], ip, from, to) > 0 { WindowBudget(cfg, m', ds[1..], ip, from, to); }
    if ds[0].ip == ip && ds[0].allowed {
      GainSplit(cfg, Back(b, t), rest);
      if from <= t { GrantAfterStart(cfg, b, t, from, to); } else { GrantBeforeStart(cfg, b, t, from, to); }
      if from <= t <= to { GainMonotone(cfg, 0.0, to - t); }
    }
  }

  lemma BudgetAtStart(cfg: Config, from: Time, to: Time)
    requires 0.0 <= from <= to
    ensures Budget(cfg, NewBucket(cfg), from, to) <= cfg.burst as real + Gain(cfg, to - from)
  {
  }

  lemma FaithfulBounded(cfg: Config, ds: seq<Decision>, ip: string, from: Time, to: Time)
    requires Faithful(cfg, map[], ds) && 0.0 <= from <= to
    ensures AllowedIn(ds, ip, from, to) as real
            <= cfg.burst as real + Gain(cfg, to - from) + Gain(cfg, Regress(cfg, map[], ds, ip))
  {
    BudgetAtStart(cfg, from, to);
    RegressPositive(cfg, map[], ds, ip);
    GainMonotone(cfg, 0.0, Regress(cfg, map[], ds, ip));
    GainMonotone(cfg, 0.0, to - from);
    if AllowedIn(ds, ip, from, to) > 0 { WindowBudget(cfg, map[], ds, ip, from, to); }
  }

  lemma BoundedByGain(cfg: Config, events: seq<Event>, patience: Time, ip: string, from: Time, to: Time)
    requires Refills(cfg, patience) && Timely(cfg, EMPTY, events, 0.0, patience)
    requires 0.0 <= from <= to
    ensures var ds := Decisions(cfg, EMPTY, events);
            AllowedIn(ds, ip, from, to) as real
            <= cfg.burst as real + Gain(cfg, to - from) + Gain(cfg, Regress(cfg, map[], ds, ip))
  {
    CleanupInvisible(cfg, events, patience);
    FaithfulBounded(cfg, Decisions(cfg, EMPTY, events), ip, from, to);
  }

  /** In every interleaving, whatever is forgotten in between, no address gets more than
      burst + rps * (to - from) requests through by readings in a window, apart from what
      accrues for the time that overtaken readings turn its bucket back. */
  lemma RateBounded(cfg: Config, events: seq<Event>, patience: Time, ip: string, from: Time, to: Time)
    returns (n: nat, back: Time)
    requires Refills(cfg, patience) && Timely(cfg, EMPTY, events, 0.0, patience)
    requires 0.0 <= from <= to
    ensures n == AllowedIn(Decisions(cfg, EMPTY, events), ip, from, to)
    ensures back == Regress(cfg, map[], Decisions(cfg, EMPTY, events), ip)
    ensures n as real <= cfg.burst as real + cfg.rps as real * (to - from + back)
  {
    CleanupInvisible(cfg, events, patience);
    n, back := BoundInPlainTerms(cfg, Decisions(cfg, EMPTY, events), ip, from, to);
  }

  lemma BoundInPlainTerms(cfg: Config, ds: seq<Decision>, ip: string, from: Time, to: Time) returns (n: nat, back: Time)
    requires Faithful(cfg, map[], ds) && 0.0 <= from <= to
    ensures n == AllowedIn(ds, ip, from, to) && back == Regress(cfg, map[], ds, ip)
    ensures n as real <= cfg.burst as real + cfg.rps as real * (to - from + back)
  {
    n, back := AllowedIn(ds, ip, from, to), Regress(cfg, map[], ds, ip);
    var d := to - from;
    assert n as real <= cfg.burst as real + Gain(cfg, d) + Gain(cfg, back) by {
      FaithfulBounded(cfg, ds, ip, from, to);
    }
    InPlainTerms(cfg, n, d, back);
  }

  lemma InPlainTerms(cfg: Config, n: nat, d: Time, e: Time)
    requires n as real <= cfg.burst as real + Gain(cfg, d) + Gain(cfg, e)
    ensures n as real <= cfg.burst as real + cfg.rps as real * (d + e)
  {
    GainSplit(cfg, d, e);
    GainIs(cfg, d + e);
  }

  // ------------------------------------------------------- readings in order

  /** The readings of an address are used in order. */
  predicate InOrder(ds: seq<Decision>, ip: string, now: Time)
    decreases |ds|
  {
    ds == [] ||
    if ds[0].ip == ip then now <= ds[0].at && InOrder(ds[1..], ip, ds[0].at) else InOrder(ds[1..], ip, now)
  }

  lemma {:induction false} InOrderNoRegress(cfg: Config, m: Ideal, ds: seq<Decision>, ip: string, now: Time)
    requires InOrder(ds, ip, now) && BucketOf(cfg, m, ip).last <= now
    ensures Regress(cfg, m, ds, ip) == 0.0
    decreases |ds|
  {
    if ds != [] {
      var m' := m[ds[0].ip := Asked(cfg, BucketOf(cfg, m, ds[0].ip), ds[0].at)];
      InOrderNoRegress(cfg, m', ds[1..], ip, if ds[0].ip == ip then ds[0].at else now);
    }
  }

  /** The requests of an address let through in a window are within the advertised rate. */
  ghost predicate WithinRate(cfg: Config, events: seq<Event>, ip: string, from: Time, to: Time) {
    AllowedIn(Decisions(cfg, EMPTY, events), ip, from, to) as real
    <= cfg.burst as real + cfg.rps as real * (to - from)
  }

  lemma NoRegressWithinRate(cfg: Config, events: seq<Event>, patience: Time, ip: string, from: Time, to: Time)
    requires Refills(cfg, patience) && Timely(cfg, EMPTY, events, 0.0, patience)
    requires 0.0 <= from <= to && Regress(cfg, map[], Decisions(cfg, EMPTY, events), ip) == 0.0
    ensures WithinRate(cfg, events, ip, from, to)
  {
    BoundedByGain(cfg, events, patience, ip, from, to);
    GainIs(cfg, to - from);
    assert Gain(cfg, 0.0) == 0.0;
  }

  /** The advertised bound: burst + rps * (to - from) requests in any window, when the requests
      of the address use their readings in order. */
  lemma RateBoundedInOrder(cfg: Config, events: seq<Event>, patience: Time, ip: string, from: Time, to: Time)
    requires Refills(cfg, patience) && Timely(cfg, EMPTY, events, 0.0, patience)
    requires 0.0 <= from <= to && InOrder(Decisions(cfg, EMPTY, events), ip, 0.0)
    ensures AllowedIn(Decisions(cfg, EMPTY, events), ip, from, to) as real
            <= cfg.burst as real + cfg.rps as real * (to - from)
  {
    InOrderNoRegress(cfg, map[], Decisions(cfg, EMPTY, events), ip, 0.0);
    NoRegressWithinRate(cfg, events, patience, ip, from, to);
  }

  // ------------------------------------------------------- readings overtaken

  /** The advertised bound, over every run with this patience. */
  ghost predicate BoundKept(cfg: Config, patience: Time) {
    forall events, ip, from, to | Timely(cfg, EMPTY, events, 0.0, patience) && 0.0 <= from <= to ::
      WithinRate(cfg, events, ip, from, to)
  }

  /** With a burst of one a bucket that was drawn from is empty at that time, so no overtaken
      reading is granted. */
  ghost predicate DrawnIsEmpty(cfg: Config, m: Ideal) {
    forall ip | ip in m :: m[ip].tokens <= 0.0 || m[ip].last <= 0.0
  }

  lemma {:induction false} BurstOneNoRegress(cfg: Config, m: Ideal, ds: seq<Decision>, ip: string)
    requires cfg.burst <= 1 && DrawnIsEmpty(cfg, m) && forall k | 0 <= k < |ds| :: 0.0 <= ds[k].at
    ensures Regress(cfg, m, ds, ip) == 0.0
    decreases |ds|
  {
    if ds != [] {
      assert Gain(cfg, 0.0) == 0.0;
      BurstOneNoRegress(cfg, m[ds[0].ip := Asked(cfg, BucketOf(cfg, m, ds[0].ip), ds[0].at)], ds[1..], ip);
    }
  }

  /** Calls have read times that are not negative. */
  ghost predicate CallTimes(w: World) {
    forall th | th in w.calls && w.calls[th].reading.Some? :: 0.0 <= w.calls[th].reading.value
  }

  lemma {:induction false} DecisionTimes(cfg: Config, w: World, events: seq<Event>, now: Time, p: Time)
    requires WellFormed(w) && CallTimes(w) && 0.0 <= now && Timely(cfg, w, events, now, p)
    ensures forall k | 0 <= k < |Decisions(cfg, w, events)| :: 0.0 <= Decisions(cfg, w, events)[k].at
    decreases |events|
  {
    if events != [] {
      DecisionTimes(cfg, Next(cfg, w, events[0]), events[1..], events[0].at, p);
    }
  }

  lemma BurstOneKeeps(cfg: Config, events: seq<Event>, patience: Time, ip: string, from: Time, to: Time)
    requires cfg.burst <= 1 && Refills(cfg, patience)
    requires Timely(cfg, EMPTY, events, 0.0, patience) && 0.0 <= from <= to
    ensures WithinRate(cfg, events, ip, from, to)
  {
    DecisionTimes(cfg, EMPTY, events, 0.0, patience);
    BurstOneNoRegress(cfg, map[], Decisions(cfg, EMPTY, events), ip);
    NoRegressWithinRate(cfg, events, patience, ip, from, to);
  }

  // ------------------------------------------------------- no time between reading and take

  /** A reading is no earlier than its lookup, and neither is in the future. */
  ghost predicate CallsSane(w: World, now: Time) {
    forall th | th in w.calls ::
      && w.calls[th].since <= now
      && (w.calls[th].reading.Some? ==> w.calls[th].since <= w.calls[th].reading.value <= now)
  }

  lemma InOrderEarlier(ds: seq<Decision>, ip: string, now: Time, later: Time)
    requires InOrder(ds, ip, later) && now <= later
    ensures InOrder(ds, ip, now)
  {
    if ds != [] && ds[0].ip != ip { InOrderEarlier(ds[1..], ip, now, later); }
  }

  lemma {:induction false} ZeroPatienceInOrder(cfg: Config, w: World, events: seq<Event>, now: Time, ip: string)
    requires WellFormed(w) && CallsSane(w, now) && Timely(cfg, w, events, now, 0.0)
    ensures InOrder(Decisions(cfg, w, events), ip, now)
    decreases |events|
  {
    if events != [] {
      var e := events[0];
      ZeroPatienceInOrder(cfg, Next(cfg, w, e), events[1..], e.at, ip);
      InOrderEarlier(Decisions(cfg, Next(cfg, w, e), events[1..]), ip, now, e.at);
    }
  }

  lemma ZeroPatienceKeeps(cfg: Config, events: seq<Event>, ip: string, from: Time, to: Time)
    requires Refills(cfg, 0.0) && Timely(cfg, EMPTY, events, 0.0, 0.0) && 0.0 <= from <= to
    ensures WithinRate(cfg, events, ip, from, to)
  {
    ZeroPatienceInOrder(cfg, EMPTY, events, 0.0, ip);
    RateBoundedInOrder(cfg, events, 0.0, ip, from, to);
  }
}
