/** Endpoint health: rounds of probes by concurrent goroutines, at most ten past the
    semaphore, that share one map of failure counters. */
module Health {
  import opened Strings

  type Id = nat

  datatype Status = Unknown | Healthy | Degraded

  /** Where the goroutine of an agent stands. All but the first hold a semaphore slot. */
  datatype Phase =
    | Waiting
    | Probing
    | Probed(success: bool)
    | Counted(success: bool, prev: int, count: int)
    | Notifying
    | Leaving

  /** The round in progress (one goroutine per agent), the slots taken, the counters, the
      status column and the webhooks sent; history: probe results in the order they were
      counted, and the agents for which a status write has failed. */
  datatype World = World(
    round: map<Id, Phase>, sem: nat, failCounts: map<Id, int>, status: map<Id, Status>, webhooks: map<Id, nat>,
    history: map<Id, seq<bool>>, lost: set<Id>)

  datatype Event =
    | CheckAll(agents: seq<Id>)
    | Acquire(id: Id)
    | Probe(id: Id, success: bool)
    | Count(id: Id)
    | Write(id: Id, stored: bool)
    | Notify(id: Id)
    | Leave(id: Id)

  const SLOTS: nat := 10

  const INIT: World := World(map[], 0, map[], map[], map[], map[], {})

  function CountOf(w: World, id: Id): int { if id in w.failCounts then w.failCounts[id] else 0 }
  function StatusOf(w: World, id: Id): Status { if id in w.status then w.status[id] else Unknown }
  function WebhooksOf(w: World, id: Id): nat { if id in w.webhooks then w.webhooks[id] else 0 }
  function HistoryOf(w: World, id: Id): seq<bool> { if id in w.history then w.history[id] else [] }
  function PhaseOf(w: World, id: Id): Option<Phase> { if id in w.round then Some(w.round[id]) else None }

  // ------------------------------------------------------- steps

  function Move(w: World, id: Id, p: Phase): World { w.(round := w.round[id := p]) }

  /** CheckAll starts a goroutine for each listed agent; a round starts after the last one. */
  function DoCheckAll(w: World, agents: seq<Id>): World {
    if w.round != map[] then w else w.(round := map id | id in agents :: Waiting, sem := 0)
  }

  function DoAcquire(w: World, id: Id): World {
    if PhaseOf(w, id) == Some(Waiting) && w.sem < SLOTS then Move(w, id, Probing).(sem := w.sem + 1) else w
  }

  function DoProbe(w: World, id: Id, success: bool): World {
    if PhaseOf(w, id) == Some(Probing) then Move(w, id, Probed(success)) else w
  }

  /** The critical section. */
  function DoCount(w: World, id: Id): World {
    if id !in w.round || !w.round[id].Probed? then w
    else
      var success := w.round[id].success;
      var count := if success then 0 else CountOf(w, id) + 1;
      Move(w, id, Counted(success, CountOf(w, id), count)).(
        failCounts := w.failCounts[id := count], history := w.history[id := HistoryOf(w, id) + [success]])
  }

  /** Writes the status if the count calls for it; stored says whether the store took it. */
  function DoWrite(threshold: int, w: World, id: Id, stored: bool): World {
    if id !in w.round || !w.round[id].Counted? then w
    else
      var p := w.round[id];
      if p.success then Saved(Move(w, id, Leaving), id, Healthy, stored)
      else if p.count == threshold then Saved(Move(w, id, Notifying), id, Degraded, stored)
      else Move(w, id, Leaving)
  }

  function Saved(w: World, id: Id, s: Status, stored: bool): World {
    if stored then w.(status := w.status[id := s]) else w.(lost := w.lost + {id})
  }

  function DoNotify(w: World, id: Id): World {
    if PhaseOf(w, id) == Some(Notifying) then Move(w, id, Leaving).(webhooks := w.webhooks[id := WebhooksOf(w, id) + 1])
    else w
  }

  function DoLeave(w: World, id: Id): World {
    if PhaseOf(w, id) == Some(Leaving) && w.sem > 0 then w.(round := w.round - {id}, sem := w.sem - 1) else w
  }

  function Next(threshold: int, w: World, e: Event): World {
    match e
    case CheckAll(agents) => DoCheckAll(w, agents)
    case Acquire(id) => DoAcquire(w, id)
    case Probe(id, success) => DoProbe(w, id, success)
    case Count(id) => DoCount(w, id)
    case Write(id, stored) => DoWrite(threshold, w, id, stored)
    case Notify(id) => DoNotify(w, id)
    case Leave(id) => DoLeave(w, id)
  }

  function Run(threshold: int, w: World, events: seq<Event>): World
    decreases |events|
  {
    if events == [] then w else Run(threshold, Next(threshold, w, events[0]), events[1..])
  }

  /** The checker, the store it writes to and its goroutines. */
  class HealthChecker {
    const threshold: int
    var round: map<Id, Phase>
    var sem: nat
    var failCounts: map<Id, int>
    var status: map<Id, Status>
    var webhooks: map<Id, nat>
    ghost var history: map<Id, seq<bool>>
    ghost var lost: set<Id>

    ghost function View(): World
      reads this
    {
      World(round, sem, failCounts, status, webhooks, history, lost)
    }

    constructor (failThreshold: int)
      ensures threshold == (if failThreshold == 0 then 3 else failThreshold) && View() == INIT
    {
      threshold := if failThreshold == 0 then 3 else failThreshold;
      round, sem, failCounts, status, webhooks := map[], 0, map[], map[], map[];
      history, lost := map[], {};
    }

    method CheckAll(agents: seq<Id>)
      modifies this
      ensures View() == DoCheckAll(old(View()), agents)
      ensures old(round) == map[] ==>
                (forall id :: id in round <==> id in agents) && forall id | id in round :: round[id] == Waiting
    {
      if round != map[] { return; }
      sem := 0;
      for i := 0 to |agents|
        invariant round == map id | id in agents[..i] :: Waiting
        invariant View() == old(View()).(round := round, sem := 0)
      {
        round := round[agents[i] := Waiting];
      }
      assert agents[..|agents|] == agents;
    }

    method Acquire(id: Id)
      requires id in round && round[id] == Waiting && sem < SLOTS
      modifies this
      ensures View() == DoAcquire(old(View()), id)
    {
      sem := sem + 1;
      round := round[id := Probing];
    }

    method Probe(id: Id, success: bool)
      requires id in round && round[id] == Probing
      modifies this
      ensures View() == DoProbe(old(View()), id, success)
    {
      round := round[id := Probed(success)];
    }

    method Count(id: Id)
      requires id in round && round[id].Probed?
      modifies this
      ensures View() == DoCount(old(View()), id)
      ensures var before := if id in old(failCounts) then old(failCounts)[id] else 0;
              failCounts == old(failCounts)[id := if old(round)[id].success then 0 else before + 1]
    {
      var success := round[id].success;
      var prev := if id in failCounts then failCounts[id] else 0;
      if success { failCounts := failCounts[id := 0]; } else { failCounts := failCounts[id := prev + 1]; }
      round := round[id := Counted(success, prev, failCounts[id])];
      history := history[id := (if id in history then history[id] else []) + [success]];
    }

    method UpdateHealthStatus(id: Id, s: Status, stored: bool)
      modifies this`status, this`lost
      ensures View() == Saved(old(View()), id, s, stored)
    {
      if stored { status := status[id := s]; } else { lost := lost + {id}; }
    }

    method Write(id: Id, stored: bool)
      requires id in round && round[id].Counted?
      modifies this
      ensures View() == DoWrite(threshold, old(View()), id, stored)
      ensures var p := old(round)[id];
              && status == (if stored && p.success then old(status)[id := Healthy]
                            else if stored && p.count == threshold then old(status)[id := Degraded]
                            else old(status))
              && round == old(round)[id := if !p.success && p.count == threshold then Notifying else Leaving]
    {
      var p := round[id];
      round := round[id := Leaving];
      if p.success && p.prev >= threshold {
        UpdateHealthStatus(id, Healthy, stored);
      } else if p.success {
        UpdateHealthStatus(id, Healthy, stored);
      } else if p.count == threshold {
        round := round[id := Notifying];
        UpdateHealthStatus(id, Degraded, stored);
      }
    }

    method Notify(id: Id)
      requires id in round && round[id] == Notifying
      modifies this
      ensures View() == DoNotify(old(View()), id)
    {
      webhooks := webhooks[id := (if id in webhooks then webhooks[id] else 0) + 1];
      round := round[id := Leaving];
    }

    method Leave(id: Id)
      requires id in round && round[id] == Leaving && sem > 0
      modifies this
      ensures View() == DoLeave(old(View()), id)
    {
      sem := sem - 1;
      round := round - {id};
    }
  }

  // ------------------------------------------------------- histories

  /** Length of the run of failures at the end of a history. */
  function Trailing(h: seq<bool>): nat {
    if h == [] || h[|h| - 1] then 0 else Trailing(h[..|h| - 1]) + 1
  }

  lemma {:induction false} TrailingIsMaximal(h: seq<bool>)
    ensures var n := Trailing(h);
            n <= |h| && (forall k | |h| - n <= k < |h| :: !h[k]) && (n < |h| ==> h[|h| - n - 1])
  {
    if h != [] && !h[|h| - 1] { TrailingIsMaximal(h[..|h| - 1]); }
  }

  /** A maximal run of failures starts at a and is at least n long. */
  predicate LongRunAt(h: seq<bool>, n: int, a: nat) {
    1 <= n && a + n <= |h| && (a > 0 ==> h[a - 1]) && forall k | a <= k < a + n :: !h[k]
  }

  /** The maximal runs of failures of length at least n, by where they start. */
  function LongRuns(h: seq<bool>, n: int): set<nat> {
    set a: nat | a < |h| && LongRunAt(h, n, a)
  }

  lemma LongRunsGrow(h: seq<bool>, success: bool, n: int)
    ensures var h' := h + [success];
            LongRuns(h', n) == LongRuns(h, n) + if n >= 1 && Trailing(h') == n then {|h'| - n} else {}
    ensures var h' := h + [success];
            n >= 1 && Trailing(h') == n ==> |h'| - n !in LongRuns(h, n)
  {
    var h' := h + [success];
    TrailingIsMaximal(h');
    forall a: nat | a < |h'| && LongRunAt(h', n, a)
      ensures LongRunAt(h, n, a) || (Trailing(h') == n && a == |h'| - n)
    {
      if a + n <= |h| {
        assert forall k | a <= k < a + n :: h[k] == h'[k];
      } else {
        assert Trailing(h') == n;
      }
    }
    forall a: nat | a < |h| && LongRunAt(h, n, a) ensures LongRunAt(h', n, a) {
    }
  }

  // ------------------------------------------------------- invariants

  predicate InFlight(p: Phase) { !p.Waiting? }

  /** The goroutines past the semaphore. */
  function Holders(round: map<Id, Phase>): set<Id> { set id | id in round && InFlight(round[id]) }

  /** The part of a history that the status column reflects: all but a result that has been
      counted and not yet written. */
  function Settled(p: Option<Phase>, h: seq<bool>): seq<bool> {
    if p.Some? && p.value.Counted? && h != [] then h[..|h| - 1] else h
  }

  /** Some probe has succeeded. */
  predicate Succeeded(h: seq<bool>) { exists k | 0 <= k < |h| :: h[k] }

  function Expected(threshold: int, h: seq<bool>): bool { threshold >= 1 && Trailing(h) >= threshold }

  /** What the tables hold about one agent. */
  datatype Columns = Columns(
    phase: Option<Phase>, count: int, status: Status, webhooks: nat, history: seq<bool>, lost: bool)

  function Col(w: World, id: Id): Columns {
    Columns(PhaseOf(w, id), CountOf(w, id), StatusOf(w, id), WebhooksOf(w, id), HistoryOf(w, id), id in w.lost)
  }

  predicate CountedOk(p: Phase, h: seq<bool>) {
    p.Counted? ==> h != [] && h[|h| - 1] == p.success && p.count == Trailing(h)
  }

  predicate WebhooksOk(threshold: int, c: Columns) {
    c.webhooks + (if c.phase == Some(Notifying) then 1 else 0) == |LongRuns(Settled(c.phase, c.history), threshold)|
  }

  predicate StatusOk(threshold: int, c: Columns) {
    var h := Settled(c.phase, c.history);
    c.lost || c.status == if Expected(threshold, h) then Degraded else if Succeeded(h) then Healthy else Unknown
  }

  predicate AgentOk(threshold: int, c: Columns) {
    && c.count == Trailing(c.history)
    && (c.phase.Some? ==> CountedOk(c.phase.value, c.history))
    && WebhooksOk(threshold, c) && StatusOk(threshold, c)
  }

  ghost predicate AgentsOk(threshold: int, w: World) { forall id :: AgentOk(threshold, Col(w, id)) }

  predicate SlotsOk(w: World) { w.sem == |Holders(w.round)| && w.sem <= SLOTS }

  ghost predicate Inv(threshold: int, w: World) { SlotsOk(w) && AgentsOk(threshold, w) }

  lemma OthersOk(threshold: int, v: World, w: World, id: Id)
    requires AgentsOk(threshold, v) && AgentOk(threshold, Col(w, id))
    requires forall i | i != id :: Col(v, i) == Col(w, i)
    ensures AgentsOk(threshold, w)
  {
  }

  lemma HoldersMove(round: map<Id, Phase>, id: Id, p: Phase)
    requires id in round && InFlight(p)
    ensures var r := round[id := p];
            |Holders(r)| == |Holders(round)| + if InFlight(round[id]) then 0 else 1
  {
    assert Holders(round[id := p]) == Holders(round) + {id};
  }

  /** A goroutine past the semaphore goes on to its next phase. */
  lemma MoveKeepsSlots(w: World, w': World, id: Id, p: Phase)
    requires SlotsOk(w) && id in w.round && InFlight(w.round[id]) && InFlight(p)
    requires w'.round == w.round[id := p] && w'.sem == w.sem
    ensures SlotsOk(w')
  {
    HoldersMove(w.round, id, p);
  }

  /** A result is counted. */
  lemma CountedColumns(threshold: int, c: Columns, success: bool)
    requires AgentOk(threshold, c) && c.phase == Some(Probed(success))
    ensures var n := if success then 0 else c.count + 1;
            AgentOk(threshold,
                    c.(phase := Some(Counted(success, c.count, n)), count := n, history := c.history + [success]))
  {
  }

  /** The status written, if any, is the one the new history calls for; a webhook is due
      exactly when the result completes a long run. */
  lemma WrittenColumns(threshold: int, c: Columns, c': Columns, stored: bool)
    requires AgentOk(threshold, c) && c.phase.Some? && c.phase.value.Counted?
    requires c'.count == c.count && c'.history == c.history && c'.webhooks == c.webhooks
    requires var p := c.phase.value;
             && c'.phase == Some(if !p.success && p.count == threshold then Notifying else Leaving)
             && (if p.success || p.count == threshold
                 then (if stored then c'.status == (if p.success then Healthy else Degraded) && c'.lost == c.lost
                     else c'.lost)
                 else c'.status == c.status && c'.lost == c.lost)
    ensures AgentOk(threshold, c')
  {
    var h := c.history;
    var before := h[..|h| - 1];
    assert h == before + [c.phase.value.success];
    LongRunsGrow(before, c.phase.value.success, threshold);
    assert Trailing(h) == if c.phase.value.success then 0 else Trailing(before) + 1;
    OneMoreResult(before, c.phase.value.success);
  }

  lemma OneMoreResult(h: seq<bool>, success: bool)
    ensures Succeeded(h + [success]) <==> Succeeded(h) || success
  {
    if success { assert (h + [success])[|h|]; }
    if Succeeded(h) {
      var k :| 0 <= k < |h| && h[k];
      assert (h + [success])[k];
    }
  }

  lemma CheckAllOk(threshold: int, w: World, agents: seq<Id>)
    requires Inv(threshold, w)
    ensures Inv(threshold, DoCheckAll(w, agents))
  {
    var w' := DoCheckAll(w, agents);
    if w.round == map[] {
      assert Holders(w'.round) == {};
      forall id ensures AgentOk(threshold, Col(w', id)) { assert AgentOk(threshold, Col(w, id)); }
    }
  }

  /** A step that only moves a goroutine forward, neither from nor to a phase that the
      columns depend on. */
  lemma MovedOk(threshold: int, w: World, w': World, id: Id)
    requires AgentsOk(threshold, w) && id in w.round && !w.round[id].Counted? && !w.round[id].Notifying?
    requires Col(w', id) == Col(w, id).(phase := PhaseOf(w', id))
    requires PhaseOf(w', id).Some? ==> !PhaseOf(w', id).value.Counted? && !PhaseOf(w', id).value.Notifying?
    requires forall i | i != id :: Col(w, i) == Col(w', i)
    ensures AgentsOk(threshold, w')
  {
  }

  lemma AcquireOk(threshold: int, w: World, id: Id)
    requires Inv(threshold, w)
    ensures Inv(threshold, DoAcquire(w, id))
  {
    var w' := DoAcquire(w, id);
    if w' != w {
      HoldersMove(w.round, id, Probing);
      MovedOk(threshold, w, w', id);
    }
  }

  lemma ProbeOk(threshold: int, w: World, id: Id, success: bool)
    requires Inv(threshold, w)
    ensures Inv(threshold, DoProbe(w, id, success))
  {
    var w' := DoProbe(w, id, success);
    if w' != w {
      MoveKeepsSlots(w, w', id, Probed(success));
      MovedOk(threshold, w, w', id);
    }
  }

  lemma CountSlotsOk(w: World, id: Id)
    requires SlotsOk(w)
    ensures SlotsOk(DoCount(w, id))
  {
    if id in w.round && w.round[id].Probed? {
      var w' := DoCount(w, id);
      var p := w'.round[id];
      assert w'.round == Move(w, id, p).round && w'.sem == w.sem;
      MoveKeepsSlots(w, w', id, p);
    }
  }

  /** What the critical section does to the columns. */
  lemma CountChanges(w: World, id: Id)
    requires id in w.round && w.round[id].Probed?
    ensures var (c, success) := (Col(w, id), w.round[id].success);
            var n := if success then 0 else c.count + 1;
            Col(DoCount(w, id), id)
            == c.(phase := Some(Counted(success, c.count, n)), count := n, history := c.history + [success])
    ensures forall i | i != id :: Col(DoCount(w, id), i) == Col(w, i)
  {
  }

  lemma CountAgentsOk(threshold: int, w: World, id: Id)
    requires AgentsOk(threshold, w)
    ensures AgentsOk(threshold, DoCount(w, id))
  {
    var (w', c) := (DoCount(w, id), Col(w, id));
    assert AgentOk(threshold, c);
    if id in w.round && w.round[id].Probed? {
      var success := w.round[id].success;
      CountedColumns(threshold, c, success);
      CountChanges(w, id);
      OthersOk(threshold, w, w', id);
    }
  }

  lemma WriteSlotsOk(threshold: int, w: World, id: Id, stored: bool)
    requires SlotsOk(w)
    ensures SlotsOk(DoWrite(threshold, w, id, stored))
  {
    if id in w.round && w.round[id].Counted? {
      var w' := DoWrite(threshold, w, id, stored);
      var p := if !w.round[id].success && w.round[id].count == threshold then Notifying else Leaving;
      assert w'.round == Move(w, id, p).round && w'.sem == w.sem;
      MoveKeepsSlots(w, w', id, p);
    }
  }

  lemma WriteAgentsOk(threshold: int, w: World, id: Id, stored: bool)
    requires AgentsOk(threshold, w)
    ensures AgentsOk(threshold, DoWrite(threshold, w, id, stored))
  {
    assert AgentOk(threshold, Col(w, id));
    var w' := DoWrite(threshold, w, id, stored);
    if id in w.round && w.round[id].Counted? {
      WrittenColumns(threshold, Col(w, id), Col(w', id), stored);
      OthersOk(threshold, w, w', id);
    }
  }

  lemma NotifyOk(threshold: int, w: World, id: Id)
    requires Inv(threshold, w)
    ensures Inv(threshold, DoNotify(w, id))
  {
    assert AgentOk(threshold, Col(w, id));
    var w' := DoNotify(w, id);
    if w' != w {
      MoveKeepsSlots(w, w', id, Leaving);
      OthersOk(threshold, w, w', id);
    }
  }

  lemma LeaveOk(threshold: int, w: World, id: Id)
    requires Inv(threshold, w)
    ensures Inv(threshold, DoLeave(w, id))
  {
    var w' := DoLeave(w, id);
    if w' != w {
      assert Holders(w'.round) == Holders(w.round) - {id};
      MovedOk(threshold, w, w', id);
    }
  }

  lemma NextKeepsInv(threshold: int, w: World, e: Event)
    requires Inv(threshold, w)
    ensures Inv(threshold, Next(threshold, w, e))
  {
    match e
    case CheckAll(agents) => CheckAllOk(threshold, w, agents);
    case Acquire(id) => AcquireOk(threshold, w, id);
    case Probe(id, success) => ProbeOk(threshold, w, id, success);
    case Count(id) => CountSlotsOk(w, id); CountAgentsOk(threshold, w, id);
    case Write(id, stored) => WriteSlotsOk(threshold, w, id, stored); WriteAgentsOk(threshold, w, id, stored);
    case Notify(id) => NotifyOk(threshold, w, id);
    case Leave(id) => LeaveOk(threshold, w, id);
  }

  lemma {:induction false} RunKeepsInv(threshold: int, w: World, events: seq<Event>)
    requires Inv(threshold, w)
    ensures Inv(threshold, Run(threshold, w, events))
    decreases |events|
  {
    if events != [] {
      NextKeepsInv(threshold, w, events[0]);
      RunKeepsInv(threshold, Next(threshold, w, events[0]), events[1..]);
    }
  }

  lemma InitOk(threshold: int)
    ensures Inv(threshold, INIT)
  {
  }

  // ------------------------------------------------------- histories and probes

  function Seen(w: World, e: Event, id: Id): seq<bool> {
    if e.Probe? && e.id == id && PhaseOf(w, id) == Some(Probing) then [e.success] else []
  }

  /** The results that the probes of an agent gave in a run, in order. */
  function Observed(threshold: int, w: World, events: seq<Event>, id: Id): seq<bool>
    decreases |events|
  {
    if events == [] then []
    else Seen(w, events[0], id) + Observed(threshold, Next(threshold, w, events[0]), events[1..], id)
  }

  /** The counted results and one that is still to be counted. */
  function Recorded(w: World, id: Id): seq<bool> {
    HistoryOf(w, id) + if id in w.round && w.round[id].Probed? then [w.round[id].success] else []
  }

  /** Every probe result is counted once and in order. */
  lemma {:induction false} HistoryIsObserved(threshold: int, w: World, events: seq<Event>, id: Id)
    ensures Recorded(Run(threshold, w, events), id) == Recorded(w, id) + Observed(threshold, w, events, id)
    decreases |events|
  {
    if events != [] {
      var w' := Next(threshold, w, events[0]);
      RecordedNext(threshold, w, events[0], id);
      HistoryIsObserved(threshold, w', events[1..], id);
      var (a, b, c) := (Recorded(w, id), Seen(w, events[0], id), Observed(threshold, w', events[1..], id));
      assert Recorded(w', id) == a + b && (a + b) + c == a + (b + c);
    }
  }

  lemma RecordedNext(threshold: int, w: World, e: Event, id: Id)
    ensures Recorded(Next(threshold, w, e), id) == Recorded(w, id) + Seen(w, e, id)
  {
    if e.CheckAll? || e.id != id {
      RecordedElsewhere(threshold, w, e, id);
    }
  }

  lemma RecordedElsewhere(threshold: int, w: World, e: Event, id: Id)
    requires e.CheckAll? || e.id != id
    ensures Recorded(Next(threshold, w, e), id) == Recorded(w, id)
  {
  }

  // ------------------------------------------------------- whole-run results

  /** Health counters match history. After any events, in any order the goroutines take, the
      counter of each agent is the length of its trailing run of failed probes; and for an
      agent with no goroutine under way the webhooks sent are its maximal failing runs that
      reached the threshold, which is 3 unless configured. If no write of it was lost, its
      status is degraded when the trailing run is at least the threshold and the threshold is
      positive, else healthy if a probe ever succeeded, and else unknown. */
  lemma HealthMatchesHistory(configured: int, events: seq<Event>, id: Id)
    ensures var threshold := if configured == 0 then 3 else configured;
            var w := Run(threshold, INIT, events);
            var h := HistoryOf(w, id);
            && CountOf(w, id) == Trailing(h)
            && (id !in w.round ==> WebhooksOf(w, id) == |LongRuns(h, threshold)|)
            && (id !in w.round && id !in w.lost ==>
                  StatusOf(w, id) == if threshold >= 1 && Trailing(h) >= threshold then Degraded
                                     else if exists k | 0 <= k < |h| :: h[k] then Healthy else Unknown)
  {
    var threshold := if configured == 0 then 3 else configured;
    InitOk(threshold);
    RunKeepsInv(threshold, INIT, events);
    assert AgentOk(threshold, Col(Run(threshold, INIT, events), id));
  }

  /** At most ten probes are in flight at any moment, and ten can be: a goroutine that waits
      gets past the semaphore exactly when fewer than ten are. */
  lemma TenInFlight(threshold: int, events: seq<Event>, id: Id)
    ensures var w := Run(threshold, INIT, events);
            && |Holders(w.round)| <= 10
            && (id in w.round && w.round[id] == Waiting ==>
                  var w' := Next(threshold, w, Acquire(id));
                  id in w'.round && (w'.round[id] == Probing <==> |Holders(w.round)| < 10))
  {
    InitOk(threshold);
    RunKeepsInv(threshold, INIT, events);
  }

  // ------------------------------------------------------- rounds come to an end

  /** Statements that a goroutine has left, at most. */
  function ToGo(p: Phase): nat {
    match p
    case Waiting => 6
    case Probing => 5
    case Probed(_) => 4
    case Counted(_, _, _) => 3
    case Notifying => 2
    case Leaving => 1
  }

  /** The next statement of a goroutine, with a probe that succeeds and a store that takes the
      write. */
  function Turn(id: Id, p: Phase): Event {
    match p
    case Waiting => Acquire(id)
    case Probing => Probe(id, true)
    case Probed(_) => Count(id)
    case Counted(_, _, _) => Write(id, true)
    case Notifying => Notify(id)
    case Leaving => Leave(id)
  }

  lemma TurnTaken(threshold: int, w: World, id: Id)
    requires Inv(threshold, w) && id in w.round && (w.round[id] == Waiting ==> w.sem < SLOTS)
    ensures var w' := Next(threshold, w, Turn(id, w.round[id]));
            if w.round[id] == Leaving then w'.round == w.round - {id}
            else id in w'.round && w'.round == w.round[id := w'.round[id]]
                 && InFlight(w'.round[id]) && ToGo(w'.round[id]) < ToGo(w.round[id])
  {
    if w.round[id] == Leaving { assert id in Holders(w.round); }
  }

  /** A goroutine past the semaphore, or with a free slot in front of it, can go through. */
  lemma {:induction false} GoesThrough(threshold: int, w: World, id: Id) returns (events: seq<Event>)
    requires Inv(threshold, w) && id in w.round && (w.round[id] == Waiting ==> w.sem < SLOTS)
    ensures Inv(threshold, Run(threshold, w, events)) && Run(threshold, w, events).round == w.round - {id}
    decreases ToGo(w.round[id])
  {
    var e := Turn(id, w.round[id]);
    var w' := Next(threshold, w, e);
    TurnTaken(threshold, w, id);
    NextKeepsInv(threshold, w, e);
    if w.round[id] == Leaving {
      events := [e] + [];
      RunFirst(threshold, w, e, []);
    } else {
      var rest := GoesThrough(threshold, w', id);
      events := [e] + rest;
      RunFirst(threshold, w, e, rest);
      assert w'.round - {id} == w.round - {id};
    }
  }

  lemma RunFirst(threshold: int, w: World, e: Event, rest: seq<Event>)
    ensures Run(threshold, w, [e] + rest) == Run(threshold, Next(threshold, w, e), rest)
  {
    assert ([e] + rest)[1..] == rest;
  }

  lemma {:induction false} RunConcat(threshold: int, w: World, a: seq<Event>, b: seq<Event>)
    ensures Run(threshold, w, a + b) == Run(threshold, Run(threshold, w, a), b)
    decreases |a|
  {
    if a == [] {
      assert a + b == b;
    } else {
      assert (a + b)[1..] == a[1..] + b;
      RunConcat(threshold, Next(threshold, w, a[0]), a[1..], b);
    }
  }

  /** Some goroutine of a round can go through: one past the semaphore, or any when none is. */
  lemma SomeoneCanGo(threshold: int, w: World) returns (id: Id)
    requires Inv(threshold, w) && w.round != map[]
    ensures id in w.round && (w.round[id] == Waiting ==> w.sem < SLOTS)
  {
    if Holders(w.round) != {} {
      id :| id in Holders(w.round);
    } else {
      id :| id in w.round;
    }
  }

  lemma {:induction false} CompletesFrom(threshold: int, w: World) returns (events: seq<Event>)
    requires Inv(threshold, w)
    ensures Run(threshold, w, events).round == map[]
    decreases |w.round|
  {
    events := [];
    if w.round != map[] {
      var id := SomeoneCanGo(threshold, w);
      var first := GoesThrough(threshold, w, id);
      var w' := Run(threshold, w, first);
      assert w.round.Keys == w'.round.Keys + {id} && |w.round| == |w.round.Keys| && |w'.round| == |w'.round.Keys|;
      var rest := CompletesFrom(threshold, w');
      RunConcat(threshold, w, first, rest);
      events := first + rest;
    }
  }

  /** No round gets stuck: whatever has happened, the goroutines under way can all come to
      their end, so that the next round can start. */
  lemma RoundCompletes(threshold: int, events: seq<Event>) returns (more: seq<Event>)
    ensures Run(threshold, Run(threshold, INIT, events), more).round == map[]
  {
    InitOk(threshold);
    RunKeepsInv(threshold, INIT, events);
    more := CompletesFrom(threshold, Run(threshold, INIT, events));
  }
}
