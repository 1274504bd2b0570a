/** The two batch fan-outs: ResolveMany, whose goroutines send indexed results through a
    channel to one collector, and BatchResolve, whose goroutines pass a semaphore and write
    their slot of a shared slice themselves. */
module Batch {
  import opened Strings
  import TrustLedger
  import Uri
  import AgentTable
  import Registry

  const MAX_BATCH: nat := 100
  const WORKERS: nat := 10

  // ------------------------------------------------------- ResolveMany

  datatype Sender<R> = Running | Sent(result: R)

  /** Goroutines, the channel, the results filled so far, how many were received and how
      often each slot was filled. */
  datatype Many<R> = Many(
    senders: seq<Sender<R>>, channel: seq<(nat, R)>, results: seq<Option<R>>, received: nat, fills: seq<nat>)

  datatype ManyEvent<R> = Finish(i: nat, result: R) | Deliver(k: nat)

  /** The batch for n requests, unless there are too many. */
  function StartMany<R>(n: nat): Option<Many<R>> {
    if n > MAX_BATCH then None
    else Some(Many(seq(n, _ => Running), [], seq(n, _ => None), 0, seq(n, _ => 0)))
  }

  predicate Shaped<R>(m: Many<R>) {
    && |m.results| == |m.senders| == |m.fills|
    && forall k | 0 <= k < |m.channel| :: m.channel[k].0 < |m.senders|
  }

  /** A goroutine sends its result; the channel has room for one from each. */
  function DoFinish<R>(m: Many<R>, i: nat, result: R): Many<R>
    requires Shaped(m)
  {
    if i >= |m.senders| || m.senders[i].Sent? || |m.channel| >= |m.senders| then m
    else m.(senders := m.senders[i := Sent(result)], channel := m.channel + [(i, result)])
  }

  /** The collector receives until it has as many results as there are requests. The channel
      may deliver any result in it. */
  function DoDeliver<R>(m: Many<R>, k: nat): Many<R>
    requires Shaped(m)
  {
    if k >= |m.channel| || m.received >= |m.senders| then m
    else
      var (i, result) := (m.channel[k].0, m.channel[k].1);
      m.(channel := m.channel[..k] + m.channel[k + 1..], results := m.results[i := Some(result)],
         received := m.received + 1, fills := m.fills[i := m.fills[i] + 1])
  }

  function NextMany<R>(m: Many<R>, e: ManyEvent<R>): (m': Many<R>)
    requires Shaped(m)
    ensures Shaped(m') && |m'.senders| == |m.senders|
  {
    match e
    case Finish(i, result) => DoFinish(m, i, result)
    case Deliver(k) => DoDeliver(m, k)
  }

  function RunMany<R>(m: Many<R>, events: seq<ManyEvent<R>>): (m': Many<R>)
    requires Shaped(m)
    ensures Shaped(m') && |m'.senders| == |m.senders|
    decreases |events|
  {
    if events == [] then m else RunMany(NextMany(m, events[0]), events[1..])
  }

  predicate Queued<R>(m: Many<R>, i: nat) { exists k | 0 <= k < |m.channel| :: m.channel[k].0 == i }

  /** A slot is filled once with its own goroutine's result, or not yet; a result is queued
      between its goroutine's end and then. */
  ghost predicate SlotOk<R>(m: Many<R>, i: nat)
    requires Shaped(m) && i < |m.senders|
  {
    match m.senders[i]
    case Running => m.results[i] == None && m.fills[i] == 0 && !Queued(m, i)
    case Sent(r) =>
      if Queued(m, i) then m.results[i] == None && m.fills[i] == 0 else m.results[i] == Some(r) && m.fills[i] == 1
  }

  ghost predicate ChannelOk<R>(m: Many<R>)
    requires Shaped(m)
  {
    && (forall k | 0 <= k < |m.channel| :: m.senders[m.channel[k].0] == Sent(m.channel[k].1))
    && (forall j, k | 0 <= j < k < |m.channel| :: m.channel[j].0 != m.channel[k].0)
  }

  function Filled<R>(m: Many<R>): set<nat>
    requires Shaped(m)
  {
    set i: nat | i < |m.fills| && m.fills[i] == 1
  }

  ghost predicate ManyInv<R>(m: Many<R>) {
    && Shaped(m) && ChannelOk(m)
    && (forall i | 0 <= i < |m.senders| :: SlotOk(m, i))
    && m.received == |Filled(m)|
  }

  lemma FinishOk<R>(m: Many<R>, i: nat, result: R)
    requires ManyInv(m)
    ensures ManyInv(DoFinish(m, i, result))
  {
    var m' := DoFinish(m, i, result);
    if m' != m {
      assert SlotOk(m, i);
      assert m'.channel[|m.channel|].0 == i;
      forall j | 0 <= j < |m'.senders| ensures SlotOk(m', j) {
        assert SlotOk(m, j);
        if j != i && Queued(m, j) {
          var k :| 0 <= k < |m.channel| && m.channel[k].0 == j;
          assert m'.channel[k].0 == j;
        }
      }
      assert Filled(m') == Filled(m);
    }
  }

  lemma QueuedAfterDelivery<R>(m: Many<R>, m': Many<R>, k: nat, j: nat)
    requires Shaped(m) && ChannelOk(m) && k < |m.channel| && m'.channel == m.channel[..k] + m.channel[k + 1..]
    ensures Queued(m', j) <==> Queued(m, j) && j != m.channel[k].0
  {
    assert forall q | 0 <= q < |m'.channel| :: m'.channel[q] == m.channel[if q < k then q else q + 1];
    if Queued(m, j) && j != m.channel[k].0 {
      var q :| 0 <= q < |m.channel| && m.channel[q].0 == j;
      assert m'.channel[if q < k then q else q - 1].0 == j;
    }
  }

  lemma ChannelAfterDelivery<R>(m: Many<R>, k: nat)
    requires Shaped(m) && ChannelOk(m)
    ensures ChannelOk(DoDeliver(m, k))
  {
  }

  lemma DeliverOk<R>(m: Many<R>, k: nat)
    requires ManyInv(m)
    ensures ManyInv(DoDeliver(m, k))
  {
    var m' := DoDeliver(m, k);
    ChannelAfterDelivery(m, k);
    if k < |m.channel| && m.received < |m.senders| {
      var i := m.channel[k].0;
      assert Queued(m, i) && SlotOk(m, i);
      forall j | 0 <= j < |m'.senders| ensures SlotOk(m', j) {
        assert SlotOk(m, j);
        QueuedAfterDelivery(m, m', k, j);
      }
      assert Filled(m') == Filled(m) + {i};
    }
  }

  lemma {:induction false} RunManyKeepsInv<R>(m: Many<R>, events: seq<ManyEvent<R>>)
    requires ManyInv(m)
    ensures ManyInv(RunMany(m, events)) && |RunMany(m, events).senders| == |m.senders|
    decreases |events|
  {
    if events != [] {
      match events[0] {
        case Finish(i, result) => FinishOk(m, i, result);
        case Deliver(k) => DeliverOk(m, k);
      }
      RunManyKeepsInv(NextMany(m, events[0]), events[1..]);
    }
  }

  lemma {:induction false} SentByFinish<R>(m: Many<R>, events: seq<ManyEvent<R>>, i: nat)
    requires Shaped(m) && i < |m.senders|
    requires RunMany(m, events).senders[i].Sent? && m.senders[i].Running?
    ensures Finish(i, RunMany(m, events).senders[i].result) in events
    decreases |events|
  {
    var m' := NextMany(m, events[0]);
    if m'.senders[i].Running? {
      SentByFinish(m', events[1..], i);
    } else {
      SentStays(m', events[1..], i);
    }
  }

  lemma {:induction false} SentStays<R>(m: Many<R>, events: seq<ManyEvent<R>>, i: nat)
    requires Shaped(m) && i < |m.senders| && m.senders[i].Sent?
    ensures i < |RunMany(m, events).senders| && RunMany(m, events).senders[i] == m.senders[i]
    decreases |events|
  {
    if events != [] { SentStays(NextMany(m, events[0]), events[1..], i); }
  }

  function Below(n: nat): (s: set<nat>)
    ensures |s| == n
    ensures forall i: nat :: i in s <==> i < n
  {
    if n == 0 then {} else Below(n - 1) + {n - 1}
  }

  lemma AllBelow(s: set<nat>, n: nat)
    requires s <= Below(n)
    ensures |s| <= n
    ensures |s| == n ==> s == Below(n)
  {
    assert Below(n) == s + (Below(n) - s);
  }

  /** ResolveMany lines up. Whatever the order in which goroutines finish and results are
      delivered, no goroutine ever waits for room in the channel; and once the collector has
      received its n results, every slot was filled exactly once, slot i with the outcome of
      request i. Up to 100 requests are taken. */
  lemma ManyLinesUp<R>(n: nat, events: seq<ManyEvent<R>>)
    requires n <= 100
    ensures StartMany<R>(n).Some? && StartMany<R>(101 + n).None?
    ensures var m := RunMany(StartMany<R>(n).value, events);
            && |m.results| == |m.fills| == |m.senders| == n
            && (forall i | 0 <= i < n :: m.senders[i].Running? ==> |m.channel| < n)
            && (m.received == n ==> forall i | 0 <= i < n ::
                  m.fills[i] == 1 && exists r :: m.results[i] == Some(r) && Finish(i, r) in events)
  {
    var start := StartMany<R>(n).value;
    assert Filled(start) == {};
    RunManyKeepsInv(start, events);
    var m := RunMany(start, events);
    forall i | 0 <= i < n && m.senders[i].Running? ensures |m.channel| < n {
      RoomInChannel(m, i);
    }
    if m.received == n {
      AllBelow(Filled(m), n);
      assert Filled(m) == Below(n);
      forall i | 0 <= i < n ensures m.fills[i] == 1 && exists r :: m.results[i] == Some(r) && Finish(i, r) in events {
        assert i in Filled(m) && SlotOk(m, i);
        SentByFinish(start, events, i);
      }
    }
  }

  /** Queued results come from different goroutines, so one still running leaves room. */
  lemma RoomInChannel<R>(m: Many<R>, i: nat)
    requires ManyInv(m) && i < |m.senders| && m.senders[i].Running?
    ensures |m.channel| < |m.senders|
  {
    var queued := set k: nat | k < |m.channel| :: m.channel[k].0;
    QueuedCount(m.channel);
    assert SlotOk(m, i);
    AllBelow(queued + {i}, |m.senders|);
  }

  lemma {:induction false} QueuedCount<R>(channel: seq<(nat, R)>)
    requires forall j, k | 0 <= j < k < |channel| :: channel[j].0 != channel[k].0
    ensures |set k: nat | k < |channel| :: channel[k].0| == |channel|
  {
    if channel != [] {
      var n := |channel| - 1;
      QueuedCount(channel[..n]);
      assert (set k: nat | k < |channel| :: channel[k].0) == (set k: nat | k < n :: channel[..n][k].0) + {channel[n].0};
    }
  }

  /** The collector's loop, for the results in the order the channel delivers them. */
  method Collect<R>(delivered: seq<(nat, R)>) returns (results: array<Option<R>>)
    requires forall k | 0 <= k < |delivered| :: delivered[k].0 < |delivered|
    requires forall j, k | 0 <= j < k < |delivered| :: delivered[j].0 != delivered[k].0
    ensures results.Length == |delivered|
    ensures forall k | 0 <= k < |delivered| :: results[delivered[k].0] == Some(delivered[k].1)
    ensures forall i | 0 <= i < results.Length :: results[i].Some?
  {
    results := new Option<R>[|delivered|](_ => None);
    for n := 0 to |delivered|
      invariant forall k | 0 <= k < n :: results[delivered[k].0] == Some(delivered[k].1)
    {
      results[delivered[n].0] := Some(delivered[n].1);
    }
    ghost var filled := set k: nat | k < |delivered| :: delivered[k].0;
    QueuedCount(delivered);
    AllBelow(filled, |delivered|);
    forall i | 0 <= i < results.Length ensures results[i].Some? {
      assert i in filled;
    }
  }

  // ------------------------------------------------------- BatchResolve

  /** A goroutine before the semaphore, past it, with its slot written, and gone. */
  datatype Worker<R> = Waiting | Working | Written(result: R) | Gone(result: R)

  datatype Fan<R> = Fan(workers: seq<Worker<R>>, sem: nat, results: seq<Option<R>>, fills: seq<nat>)

  datatype FanEvent<R> = Acquire(i: nat) | Work(i: nat, result: R) | Release(i: nat)

  function StartFan<R>(n: nat): Option<Fan<R>> {
    if n > MAX_BATCH then None else Some(Fan(seq(n, _ => Waiting), 0, seq(n, _ => None), seq(n, _ => 0)))
  }

  predicate FanShaped<R>(f: Fan<R>) { |f.workers| == |f.results| == |f.fills| }

  function DoAcquire<R>(f: Fan<R>, i: nat): Fan<R> {
    if i < |f.workers| && f.workers[i].Waiting? && f.sem < WORKERS
    then f.(workers := f.workers[i := Working], sem := f.sem + 1) else f
  }

  function DoWork<R>(f: Fan<R>, i: nat, result: R): Fan<R>
    requires FanShaped(f)
  {
    if i < |f.workers| && f.workers[i].Working?
    then f.(workers := f.workers[i := Written(result)], results := f.results[i := Some(result)],
            fills := f.fills[i := f.fills[i] + 1])
    else f
  }

  function DoRelease<R>(f: Fan<R>, i: nat): Fan<R> {
    if i < |f.workers| && f.workers[i].Written? && f.sem > 0
    then f.(workers := f.workers[i := Gone(f.workers[i].result)], sem := f.sem - 1) else f
  }

  function NextFan<R>(f: Fan<R>, e: FanEvent<R>): (f': Fan<R>)
    requires FanShaped(f)
    ensures FanShaped(f') && |f'.workers| == |f.workers|
  {
    match e
    case Acquire(i) => DoAcquire(f, i)
    case Work(i, result) => DoWork(f, i, result)
    case Release(i) => DoRelease(f, i)
  }

  function RunFan<R>(f: Fan<R>, events: seq<FanEvent<R>>): (f': Fan<R>)
    requires FanShaped(f)
    ensures FanShaped(f') && |f'.workers| == |f.workers|
    decreases |events|
  {
    if events == [] then f else RunFan(NextFan(f, events[0]), events[1..])
  }

  /** The goroutines of one call, which share the results slice. */
  class BatchCall<R> {
    const results: array<Option<R>>
    var workers: seq<Worker<R>>
    var sem: nat
    ghost var fills: seq<nat>

    ghost predicate Valid()
      reads this, results
    {
      FanShaped(View())
    }

    ghost function View(): Fan<R>
      reads this, results
    {
      Fan(workers, sem, results[..], fills)
    }

    constructor (n: nat)
      requires n <= MAX_BATCH
      ensures Valid() && View() == StartFan<R>(n).value && fresh(results)
    {
      results := new Option<R>[n](_ => None);
      workers, sem := seq(n, _ => Waiting), 0;
      fills := seq(n, _ => 0);
    }

    method Acquire(i: nat)
      requires Valid() && i < |workers| && workers[i].Waiting? && sem < WORKERS
      modifies this`workers, this`sem
      ensures Valid() && View() == DoAcquire(old(View()), i)
    {
      sem := sem + 1;
      workers := workers[i := Working];
    }

    method Work(i: nat, result: R)
      requires Valid() && i < |workers| && workers[i].Working?
      modifies this`workers, this`fills, results
      ensures Valid() && View() == DoWork(old(View()), i, result)
      ensures results[i] == Some(result)
      ensures forall j | 0 <= j < results.Length && j != i :: results[j] == old(results[j])
    {
      results[i] := Some(result);
      workers := workers[i := Written(result)];
      fills := fills[i := fills[i] + 1];
    }

    method Release(i: nat)
      requires Valid() && i < |workers| && workers[i].Written? && sem > 0
      modifies this`workers, this`sem
      ensures Valid() && View() == DoRelease(old(View()), i)
    {
      sem := sem - 1;
      workers := workers[i := Gone(workers[i].result)];
    }
  }

  predicate Busy<R>(w: Worker<R>) { w.Working? || w.Written? }

  /** The goroutines past the semaphore. */
  function PastSemaphore<R>(f: Fan<R>): set<nat> { set i: nat | i < |f.workers| && Busy(f.workers[i]) }

  ghost predicate WorkerOk<R>(f: Fan<R>, i: nat)
    requires FanShaped(f) && i < |f.workers|
  {
    match f.workers[i]
    case Waiting => f.results[i] == None && f.fills[i] == 0
    case Working => f.results[i] == None && f.fills[i] == 0
    case Written(r) => f.results[i] == Some(r) && f.fills[i] == 1
    case Gone(r) => f.results[i] == Some(r) && f.fills[i] == 1
  }

  ghost predicate FanInv<R>(f: Fan<R>) {
    && FanShaped(f) && f.sem == |PastSemaphore(f)| && f.sem <= WORKERS
    && forall i | 0 <= i < |f.workers| :: WorkerOk(f, i)
  }

  lemma NextFanKeepsInv<R>(f: Fan<R>, e: FanEvent<R>)
    requires FanInv(f)
    ensures FanInv(NextFan(f, e))
  {
    var f' := NextFan(f, e);
    if f' != f {
      assert WorkerOk(f, e.i);
      forall j | 0 <= j < |f'.workers| ensures WorkerOk(f', j) {
        assert WorkerOk(f, j);
      }
      match e
      case Acquire(i) => assert PastSemaphore(f') == PastSemaphore(f) + {i};
      case Work(i, _) => assert PastSemaphore(f') == PastSemaphore(f);
      case Release(i) => assert PastSemaphore(f') == PastSemaphore(f) - {i};
    }
  }

  lemma {:induction false} RunFanKeepsInv<R>(f: Fan<R>, events: seq<FanEvent<R>>)
    requires FanInv(f)
    ensures FanInv(RunFan(f, events))
    decreases |events|
  {
    if events != [] {
      NextFanKeepsInv(f, events[0]);
      RunFanKeepsInv(NextFan(f, events[0]), events[1..]);
    }
  }

  predicate HasResult<R>(w: Worker<R>) { w.Written? || w.Gone? }

  lemma {:induction false} ResultFromWork<R>(f: Fan<R>, events: seq<FanEvent<R>>, i: nat)
    requires FanShaped(f) && i < |f.workers| && HasResult(RunFan(f, events).workers[i])
    ensures || (HasResult(f.workers[i]) && RunFan(f, events).workers[i].result == f.workers[i].result)
            || Work(i, RunFan(f, events).workers[i].result) in events
    decreases |events|
  {
    if events != [] {
      ResultFromWork(NextFan(f, events[0]), events[1..], i);
    }
  }

  /** BatchResolve lines up. In every order of goroutines, at most ten of them are past the
      semaphore, and one that waits gets past it exactly when fewer than ten are; and once all
      are gone every slot was filled exactly once, slot i with the outcome of request i. Up to
      100 requests are taken. */
  lemma FanLinesUp<R>(n: nat, events: seq<FanEvent<R>>)
    requires n <= 100
    ensures StartFan<R>(n).Some? && StartFan<R>(101 + n).None?
    ensures var f := RunFan(StartFan<R>(n).value, events);
            && |f.results| == |f.fills| == |f.workers| == n
            && |PastSemaphore(f)| <= 10
            && (forall i: nat | i < n && f.workers[i].Waiting? ::
                  NextFan(f, Acquire(i)).workers[i].Working? <==> |PastSemaphore(f)| < 10)
            && ((forall i | 0 <= i < n :: f.workers[i].Gone?) ==> forall i | 0 <= i < n ::
                  f.fills[i] == 1 && exists r :: f.results[i] == Some(r) && Work(i, r) in events)
  {
    var start := StartFan<R>(n).value;
    assert PastSemaphore(start) == {};
    RunFanKeepsInv(start, events);
    var f := RunFan(start, events);
    if forall i | 0 <= i < n :: f.workers[i].Gone? {
      forall i | 0 <= i < n ensures f.fills[i] == 1 && exists r :: f.results[i] == Some(r) && Work(i, r) in events {
        assert WorkerOk(f, i);
        ResultFromWork(start, events, i);
      }
    }
  }

  // ------------------------------------------------------- batches come to an end

  function WorkLeft<R>(w: Worker<R>): nat {
    match w
    case Waiting => 3
    case Working => 2
    case Written(_) => 1
    case Gone(_) => 0
  }

  function Remaining<R>(workers: seq<Worker<R>>): nat {
    if workers == [] then 0 else Remaining(workers[..|workers| - 1]) + WorkLeft(workers[|workers| - 1])
  }

  lemma {:induction false} RemainingAfter<R>(workers: seq<Worker<R>>, i: nat, w: Worker<R>)
    requires i < |workers|
    ensures Remaining(workers[i := w]) + WorkLeft(workers[i]) == Remaining(workers) + WorkLeft(w)
  {
    var n := |workers| - 1;
    if i < n {
      RemainingAfter(workers[..n], i, w);
      assert workers[i := w][..n] == workers[..n][i := w];
    } else {
      assert workers[i := w][..n] == workers[..n];
    }
  }

  function FanTurn<R>(i: nat, w: Worker<R>, r: R): FanEvent<R> {
    match w
    case Waiting => Acquire(i)
    case Working => Work(i, r)
    case _ => Release(i)
  }

  /** A goroutine that is past the semaphore, or has a free place in front of it, takes its
      next step. */
  lemma FanTurnTaken<R>(f: Fan<R>, i: nat, r: R)
    requires FanInv(f) && i < |f.workers| && !f.workers[i].Gone? && (f.workers[i].Waiting? ==> f.sem < WORKERS)
    ensures Remaining(NextFan(f, FanTurn(i, f.workers[i], r)).workers) < Remaining(f.workers)
  {
    if f.workers[i].Written? { assert i in PastSemaphore(f); }
    var w' := NextFan(f, FanTurn(i, f.workers[i], r)).workers[i];
    RemainingAfter(f.workers, i, w');
    assert NextFan(f, FanTurn(i, f.workers[i], r)).workers == f.workers[i := w'];
  }

  lemma FanSomeoneCanGo<R>(f: Fan<R>) returns (i: nat)
    requires FanInv(f) && exists k | 0 <= k < |f.workers| :: !f.workers[k].Gone?
    ensures i < |f.workers| && !f.workers[i].Gone? && (f.workers[i].Waiting? ==> f.sem < WORKERS)
  {
    if PastSemaphore(f) != {} {
      i :| i in PastSemaphore(f);
    } else {
      i :| i < |f.workers| && !f.workers[i].Gone?;
    }
  }

  lemma FanRunFirst<R>(f: Fan<R>, e: FanEvent<R>, rest: seq<FanEvent<R>>)
    requires FanShaped(f)
    ensures RunFan(f, [e] + rest) == RunFan(NextFan(f, e), rest)
  {
    assert ([e] + rest)[1..] == rest;
  }

  lemma {:induction false} FanCompletes<R>(f: Fan<R>, r: R) returns (events: seq<FanEvent<R>>)
    requires FanInv(f)
    ensures forall i | 0 <= i < |f.workers| :: RunFan(f, events).workers[i].Gone?
    decreases Remaining(f.workers)
  {
    events := [];
    if exists k | 0 <= k < |f.workers| :: !f.workers[k].Gone? {
      var i := FanSomeoneCanGo(f);
      var e := FanTurn(i, f.workers[i], r);
      FanTurnTaken(f, i, r);
      NextFanKeepsInv(f, e);
      var rest := FanCompletes(NextFan(f, e), r);
      FanRunFirst(f, e, rest);
      events := [e] + rest;
    }
  }

  function ToSend<R>(m: Many<R>): set<nat> { set i: nat | i < |m.senders| && m.senders[i].Running? }

  lemma ManyRunFirst<R>(m: Many<R>, e: ManyEvent<R>, rest: seq<ManyEvent<R>>)
    requires Shaped(m)
    ensures RunMany(m, [e] + rest) == RunMany(NextMany(m, e), rest)
  {
    assert ([e] + rest)[1..] == rest;
  }

  /** Once everyone has sent and nothing is queued, everything has been received. */
  lemma AllReceived<R>(m: Many<R>)
    requires ManyInv(m) && ToSend(m) == {} && m.channel == []
    ensures m.received == |m.senders|
  {
    forall i: nat | i < |m.senders| ensures i in Filled(m) {
      assert i !in ToSend(m) && SlotOk(m, i) && !Queued(m, i);
    }
    assert Filled(m) == Below(|m.senders|);
  }

  lemma {:induction false} ManyCompletes<R>(m: Many<R>, r: R) returns (events: seq<ManyEvent<R>>)
    requires ManyInv(m) && m.received <= |m.senders|
    ensures RunMany(m, events).received == |m.senders|
    decreases |ToSend(m)|, |m.senders| - m.received
  {
    events := [];
    if i :| i in ToSend(m) {
      RoomInChannel(m, i);
      FinishOk(m, i, r);
      var m' := DoFinish(m, i, r);
      assert ToSend(m') == ToSend(m) - {i};
      var rest := ManyCompletes(m', r);
      ManyRunFirst(m, Finish(i, r), rest);
      events := [Finish(i, r)] + rest;
    } else if m.received < |m.senders| {
      if m.channel == [] { AllReceived(m); }
      DeliverOk(m, 0);
      var m' := DoDeliver(m, 0);
      assert ToSend(m') == ToSend(m);
      var rest := ManyCompletes(m', r);
      ManyRunFirst(m, Deliver(0), rest);
      events := [Deliver(0)] + rest;
    }
  }

  /** Neither batch gets stuck: whatever has happened, all goroutines can come to their end
      and the collector to have all results, and so the wait of the caller can end. */
  lemma FanNeverStuck<R>(n: nat, events: seq<FanEvent<R>>, r: R) returns (more: seq<FanEvent<R>>)
    requires n <= 100
    ensures var f := RunFan(RunFan(StartFan<R>(n).value, events), more);
            |f.workers| == n && forall i | 0 <= i < n :: f.workers[i].Gone?
  {
    var start := StartFan<R>(n).value;
    assert PastSemaphore(start) == {};
    RunFanKeepsInv(start, events);
    more := FanCompletes(RunFan(start, events), r);
  }

  lemma ManyNeverStuck<R>(n: nat, events: seq<ManyEvent<R>>, r: R) returns (more: seq<ManyEvent<R>>)
    requires n <= 100
    ensures RunMany(RunMany(StartMany<R>(n).value, events), more).received == n
  {
    var start := StartMany<R>(n).value;
    assert Filled(start) == {};
    RunManyKeepsInv(start, events);
    var m := RunMany(start, events);
    AllBelow(Filled(m), n);
    more := ManyCompletes(m, r);
  }

  // ------------------------------------------------------- a batch of printed URIs

  datatype Outcome = InvalidURI | Looked(res: Registry.Resolution)

  /** What a goroutine may write for an escape-free URI: the result of resolving its
      components. */
  ghost predicate OutcomeOf(t: AgentTable.Table, raw: string, o: Outcome) {
    '%' !in raw ==>
    var parsed := Uri.Parse(raw);
    if parsed.Err? then o == InvalidURI
    else o.Looked? && Registry.Resolves(t, parsed.uri.orgName, parsed.uri.category, parsed.uri.agentID, o.res)
  }

  predicate Printable(r: AgentTable.Row) { Uri.CleanOrg(r.trustRoot) && Uri.PathText(r.primarySkill) }

  /** End to end: a batch of printed URIs answers each, in its own slot, with that agent if it
      is active or deprecated, and with its status otherwise. */
  lemma PrintedBatchResolves(
    h: TrustLedger.Hasher, s: Registry.State, ids: seq<AgentTable.Id>, events: seq<FanEvent<Outcome>>)
    requires Registry.Inv(h, s) && |ids| <= 100
    requires forall i | 0 <= i < |ids| :: ids[i] in s.table && Printable(s.table[ids[i]])
    requires forall i, o | 0 <= i < |ids| && Work(i, o) in events ::
               OutcomeOf(s.table, AgentTable.URI(s.table[ids[i]]), o)
    requires forall i | 0 <= i < |ids| :: RunFan(StartFan<Outcome>(|ids|).value, events).workers[i].Gone?
    ensures forall i | 0 <= i < |ids| ::
              var status := s.table[ids[i]].status;
              RunFan(StartFan<Outcome>(|ids|).value, events).results[i] ==
              Some(Looked(if status in {AgentTable.Active, AgentTable.Deprecated} then Registry.Found(ids[i])
                          else Registry.NotActive(status)))
  {
    var f := RunFan(StartFan<Outcome>(|ids|).value, events);
    FanLinesUp<Outcome>(|ids|, events);
    forall i | 0 <= i < |ids|
      ensures var status := s.table[ids[i]].status;
              f.results[i] ==
              Some(Looked(if status in {AgentTable.Active, AgentTable.Deprecated} then Registry.Found(ids[i])
                          else Registry.NotActive(status)))
    {
      var o :| f.results[i] == Some(o) && Work(i, o) in events;
      assert OutcomeOf(s.table, AgentTable.URI(s.table[ids[i]]), o);
      Registry.PrintedURIResolves(h, s, ids[i], if o.Looked? then o.res else Registry.NoSuchAgent);
    }
  }
}
