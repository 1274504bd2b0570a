/** The audit trail under interleaving: an entry is appended by a statement of its own after
    the write it is about, so entries may be logged in another order than the writes took
    effect, and an entry is lost when its append fails. When the trail still replays to the
    table. */
module AuditOrder {
  import opened Strings
  import opened AgentTable
  import opened Lifecycle
  import Registry

  /** The status an action says its agent is in; None for an update. */
  function Sets(action: string): Option<Status> { Registry.Effect(None, action) }

  /** Folds the audit entries of an agent. */
  function ReplayAudit(audit: seq<(Id, string)>, id: Id): Option<Status> {
    if audit == [] then None
    else
      var n := |audit| - 1;
      var before := ReplayAudit(audit[..n], id);
      if audit[n].0 == id then Registry.Effect(before, audit[n].1) else before
  }

  lemma ReplayOneMore(audit: seq<(Id, string)>, i: Id, action: string, id: Id)
    ensures ReplayAudit(audit + [(i, action)], id) ==
            if i == id && Sets(action).Some? then Sets(action) else ReplayAudit(audit, id)
  {
    assert (audit + [(i, action)])[..|audit|] == audit;
  }

  // ------------------------------------------------------- entries still to be logged

  /** Call t has changed the status of agent id and not logged it yet. */
  predicate Pending(s: World, t: ThreadId, id: Id) {
    t in s.threads && s.threads[t].Unlogged? && s.threads[t].id == id && Sets(s.threads[t].action).Some?
  }

  predicate AllLogged(s: World, id: Id) { forall t | t in s.threads :: !Pending(s, t, id) }

  /** The calls ts log, one after the other. */
  function LogAll(s: World, ts: seq<ThreadId>): World
    decreases |ts|
  {
    if ts == [] then s else LogAll(DoLog(s, ts[0]), ts[1..])
  }

  /** In whatever order the entries still to be logged are logged, the trail then replays to
      the status of the agent. */
  ghost predicate Settles(s: World, id: Id)
    requires id in s.table
  {
    forall ts :: AllLogged(LogAll(s, ts), id) ==> ReplayAudit(LogAll(s, ts).audit, id) == Some(s.table[id].status)
  }

  /** Every entry still to be logged says what the status is; if there is none, the trail says
      it already. */
  predicate PendingAgree(s: World, id: Id)
    requires id in s.table
  {
    && (forall t | t in s.threads :: Pending(s, t, id) ==> Sets(s.threads[t].action) == Some(s.table[id].status))
    && (AllLogged(s, id) ==> ReplayAudit(s.audit, id) == Some(s.table[id].status))
  }

  lemma LogKeepsAgree(s: World, t: ThreadId, id: Id)
    requires id in s.table && PendingAgree(s, id)
    ensures DoLog(s, t).table == s.table && PendingAgree(DoLog(s, t), id)
  {
    var s' := DoLog(s, t);
    if t in s.threads && s.threads[t].Unlogged? {
      ReplayOneMore(s.audit, s.threads[t].id, s.threads[t].action, id);
      forall u | u in s'.threads ensures Pending(s', u, id) == Pending(s, u, id) {}
      if AllLogged(s', id) && !Pending(s, t, id) { assert AllLogged(s, id); }
    }
  }

  lemma {:induction false} LogAllKeepsAgree(s: World, ts: seq<ThreadId>, id: Id)
    requires id in s.table && PendingAgree(s, id)
    ensures LogAll(s, ts).table == s.table && PendingAgree(LogAll(s, ts), id)
    decreases |ts|
  {
    if ts != [] {
      LogKeepsAgree(s, ts[0], id);
      LogAllKeepsAgree(DoLog(s, ts[0]), ts[1..], id);
    }
  }

  function Others(s: World, id: Id, u: ThreadId): set<ThreadId> {
    set t | t in s.threads && t != u && Pending(s, t, id)
  }

  /** All the other calls can log before u does. */
  lemma {:induction false} LogOthers(s: World, id: Id, u: ThreadId) returns (ts: seq<ThreadId>)
    requires Pending(s, u, id)
    ensures var s' := LogAll(s, ts);
            s'.table == s.table && u in s'.threads && s'.threads[u] == s.threads[u] && Others(s', id, u) == {}
    decreases |Others(s, id, u)|
  {
    ts := [];
    if Others(s, id, u) != {} {
      var t :| t in Others(s, id, u);
      var s1 := DoLog(s, t);
      assert Others(s1, id, u) == Others(s, id, u) - {t};
      var rest := LogOthers(s1, id, u);
      ts := [t] + rest;
      assert ts[1..] == rest;
    }
  }

  lemma {:induction false} LogAllConcat(s: World, a: seq<ThreadId>, b: seq<ThreadId>)
    ensures LogAll(s, a + b) == LogAll(LogAll(s, a), b)
    decreases |a|
  {
    if a == [] {
      assert a + b == b;
    } else {
      assert (a + b)[1..] == a[1..] + b;
      LogAllConcat(DoLog(s, a[0]), a[1..], b);
    }
  }

  /** The call that logs last decides what the trail says. */
  lemma LastLogDecides(s: World, id: Id, u: ThreadId) returns (ts: seq<ThreadId>)
    requires Pending(s, u, id)
    ensures AllLogged(LogAll(s, ts), id) && ReplayAudit(LogAll(s, ts).audit, id) == Sets(s.threads[u].action)
  {
    var first := LogOthers(s, id, u);
    var s1 := LogAll(s, first);
    ts := first + [u];
    LogAllConcat(s, first, [u]);
    var s2 := DoLog(s1, u);
    assert [u][1..] == [] && LogAll(s1, [u]) == s2;
    ReplayOneMore(s1.audit, id, s.threads[u].action, id);
    forall t | t in s2.threads ensures !Pending(s2, t, id) {
      assert t !in Others(s1, id, u);
    }
  }

  /** A state settles exactly when the entries still to be logged agree with the table. */
  lemma SettlesIff(s: World, id: Id)
    requires id in s.table
    ensures Settles(s, id) <==> PendingAgree(s, id)
  {
    if PendingAgree(s, id) {
      forall ts | AllLogged(LogAll(s, ts), id)
        ensures ReplayAudit(LogAll(s, ts).audit, id) == Some(s.table[id].status)
      {
        LogAllKeepsAgree(s, ts, id);
      }
    } else if u :| u in s.threads && Pending(s, u, id) && Sets(s.threads[u].action) != Some(s.table[id].status) {
      var ts := LastLogDecides(s, id, u);
      assert AllLogged(LogAll(s, ts), id);
    } else {
      assert LogAll(s, []) == s;
    }
  }

  // ------------------------------------------------------- writes that clash

  /** The action that a ready call logs after its write. */
  function ActionOf(cfg: Registry.Config, s: World, t: ThreadId): Option<string>
    requires Effective(cfg, s, t)
  {
    var plan := Registry.PlanFor(cfg, s.threads[t].row, s.threads[t].op).value;
    if plan.entry.None? then None else Some(plan.entry.value.0)
  }

  /** A write that takes effect on agent id and sets its status. */
  predicate SetsStatus(cfg: Registry.Config, s: World, step: Step, id: Id) {
    && step.Write? && Effective(cfg, s, step.t) && s.threads[step.t].op.id == id
    && ActionOf(cfg, s, step.t).Some? && Sets(ActionOf(cfg, s, step.t).value).Some?
  }

  /** A status is set while another call has still to log a different one. */
  predicate Clashes(cfg: Registry.Config, s: World, step: Step, id: Id) {
    && SetsStatus(cfg, s, step, id)
    && exists u | u in s.threads ::
         Pending(s, u, id) && Sets(s.threads[u].action) != Sets(ActionOf(cfg, s, step.t).value)
  }

  /** The last entry about an agent still to be logged is lost, and the trail without it says
      something else. */
  predicate Loses(s: World, step: Step, id: Id) {
    && step.Drop? && id in s.table && Pending(s, step.t, id)
    && (forall u | u in s.threads && u != step.t :: !Pending(s, u, id))
    && ReplayAudit(s.audit, id) != Sets(s.threads[step.t].action)
  }

  predicate Misleads(cfg: Registry.Config, s: World, step: Step, id: Id) {
    Clashes(cfg, s, step, id) || Loses(s, step, id)
  }

  /** What a write logs is what it does to the row, however stale the row it was planned on. */
  lemma PlanSets(cfg: Registry.Config, snapshot: Row, current: Row, op: Registry.Op)
    requires !op.Register? && Registry.PlanFor(cfg, snapshot, op).Some?
    ensures var plan := Registry.PlanFor(cfg, snapshot, op).value;
            && (plan.entry.None? <==> plan.st == Remove)
            && (plan.entry.Some? ==>
                 Changed(plan.st, current).status
                 == if Sets(plan.entry.value.0).Some? then Sets(plan.entry.value.0).value else current.status)
  {
  }

  /** Row keys in use, and those of entries still to be logged, are never given out again. */
  ghost predicate KeysUsed(s: World) {
    && (forall id | id in s.table :: id in s.usedIds)
    && (forall t | t in s.threads && s.threads[t].Unlogged? :: s.threads[t].id in s.usedIds)
  }

  lemma NextKeepsKeys(cfg: Registry.Config, s: World, step: Step)
    requires KeysUsed(s)
    ensures KeysUsed(Next(cfg, s, step))
  {
    if !step.Insert? && !step.Write? { TableKept(cfg, s, step); }
  }

  ghost predicate AgreesIfPresent(s: World, id: Id) { id in s.table ==> PendingAgree(s, id) }

  /** After a write on the agent itself, the entries agree exactly when it did not clash. */
  lemma WriteAgrees(cfg: Registry.Config, s: World, step: Step, id: Id)
    requires step.Write? && AgreesIfPresent(s, id)
    ensures AgreesIfPresent(DoWrite(cfg, s, step.t), id) <==> !Clashes(cfg, s, step, id)
  {
    var (t, s') := (step.t, DoWrite(cfg, s, step.t));
    if Effective(cfg, s, t) {
      var (op, row) := (s.threads[t].op, s.threads[t].row);
      PlanSets(cfg, row, s.table[op.id], op);
      if op.id != id {
        OthersAgree(s, s', t, id);
      } else if SetsStatus(cfg, s, step, id) {
        StatusSet(cfg, s, step, id);
      } else if id in s'.table {
        OthersAgree(s, s', t, id);
      }
    } else if t in s.threads && s.threads[t].Ready? {
      OthersAgree(s, s', t, id);
    }
  }

  /** A step of a call that neither had nor gets an entry to log on the agent. */
  lemma OthersAgree(s: World, s': World, t: ThreadId, id: Id)
    requires AgreesIfPresent(s, id) && s'.audit == s.audit
    requires id in s'.table ==> id in s.table && s'.table[id].status == s.table[id].status
    requires forall u | u != t :: (u in s.threads <==> u in s'.threads)
               && (u in s.threads ==> s'.threads[u] == s.threads[u])
    requires !Pending(s, t, id) && !Pending(s', t, id)
    ensures AgreesIfPresent(s', id)
  {
    forall u ensures Pending(s, u, id) == Pending(s', u, id) {}
    if id in s'.table && AllLogged(s', id) {
      assert AllLogged(s, id);
    }
  }

  lemma StatusSet(cfg: Registry.Config, s: World, step: Step, id: Id)
    requires SetsStatus(cfg, s, step, id)
    ensures AgreesIfPresent(DoWrite(cfg, s, step.t), id) <==> !Clashes(cfg, s, step, id)
  {
    var (t, op, row) := (step.t, s.threads[step.t].op, s.threads[step.t].row);
    var s' := DoWrite(cfg, s, t);
    var plan := Registry.PlanFor(cfg, row, op).value;
    PlanSets(cfg, row, s.table[id], op);
    var action := ActionOf(cfg, s, t).value;
    assert s'.threads == s.threads[t := Unlogged(id, action)];
    assert id in s'.table && Some(s'.table[id].status) == Sets(action);
    assert Pending(s', t, id);
    forall u | u in s.threads && u != t ensures Pending(s', u, id) == Pending(s, u, id) {}
    if !PendingAgree(s', id) {
      var u :| u in s'.threads && Pending(s', u, id) && Sets(s'.threads[u].action) != Sets(action);
      assert Pending(s, u, id);
    }
  }

  lemma InsertAgrees(cfg: Registry.Config, s: World, step: Step, id: Id)
    requires step.Insert? && KeysUsed(s) && AgreesIfPresent(s, id)
    ensures AgreesIfPresent(DoInsert(cfg, s, step.t, step.id, step.agentID, step.req), id)
  {
    var s' := DoInsert(cfg, s, step.t, step.id, step.agentID, step.req);
    if s' != s {
      NewRowIsPending(cfg, step.req, step.agentID);
      if step.id == id {
        forall u | u in s.threads ensures !Pending(s, u, id) {}
        assert Pending(s', step.t, id);
      } else {
        OthersAgree(s, s', step.t, id);
      }
    }
  }

  /** After an entry is given up, the others agree exactly when nothing is lost by it. */
  lemma DropAgrees(s: World, step: Step, id: Id)
    requires step.Drop? && AgreesIfPresent(s, id)
    ensures AgreesIfPresent(DoDrop(s, step.t), id) <==> !Loses(s, step, id)
  {
    var (t, s') := (step.t, DoDrop(s, step.t));
    assert s'.table == s.table && s'.audit == s.audit;
    forall u | u != t ensures Pending(s', u, id) == Pending(s, u, id) {}
    if !Pending(s, t, id) {
      if AllLogged(s', id) { assert AllLogged(s, id); }
    } else if AllLogged(s', id) {
      forall u | u in s.threads && u != t ensures !Pending(s, u, id) { assert u in s'.threads; }
    }
  }

  /** The remaining steps touch neither statuses nor entries. */
  lemma QuietStep(cfg: Registry.Config, s: World, step: Step, id: Id)
    requires !step.Insert? && !step.Write? && !step.Log? && !step.Drop?
    ensures var s' := Next(cfg, s, step);
            s'.table == s.table && s'.audit == s.audit && forall u :: Pending(s', u, id) == Pending(s, u, id)
    ensures var s' := Next(cfg, s, step);
            forall u | Pending(s, u, id) :: s'.threads[u] == s.threads[u]
  {
  }

  lemma NextAgreesIff(cfg: Registry.Config, s: World, step: Step, id: Id)
    requires KeysUsed(s) && AgreesIfPresent(s, id)
    ensures AgreesIfPresent(Next(cfg, s, step), id) <==> !Misleads(cfg, s, step, id)
  {
    if step.Insert? {
      InsertAgrees(cfg, s, step, id);
    } else if step.Write? {
      WriteAgrees(cfg, s, step, id);
    } else if step.Log? {
      if id in s.table { LogKeepsAgree(s, step.t, id); } else { assert DoLog(s, step.t).table == s.table; }
    } else if step.Drop? {
      DropAgrees(s, step, id);
    } else {
      QuietStep(cfg, s, step, id);
      var s' := Next(cfg, s, step);
      if AllLogged(s', id) { assert AllLogged(s, id); }
    }
  }

  // ------------------------------------------------------- whole-run results

  /** In every state of the run the agent, if present, settles. */
  ghost predicate AlwaysSettles(cfg: Registry.Config, s: World, steps: seq<Step>, id: Id)
    decreases |steps|
  {
    && (id in s.table ==> Settles(s, id))
    && (steps == [] || AlwaysSettles(cfg, Next(cfg, s, steps[0]), steps[1..], id))
  }

  ghost predicate NoMislead(cfg: Registry.Config, s: World, steps: seq<Step>, id: Id)
    decreases |steps|
  {
    steps == [] || (!Misleads(cfg, s, steps[0], id) && NoMislead(cfg, Next(cfg, s, steps[0]), steps[1..], id))
  }

  lemma {:induction false} RunSettlesIff(cfg: Registry.Config, s: World, steps: seq<Step>, id: Id)
    requires KeysUsed(s) && AgreesIfPresent(s, id)
    ensures AlwaysSettles(cfg, s, steps, id) <==> NoMislead(cfg, s, steps, id)
    decreases |steps|
  {
    if id in s.table { SettlesIff(s, id); }
    if steps != [] {
      var s1 := Next(cfg, s, steps[0]);
      NextKeepsKeys(cfg, s, steps[0]);
      NextAgreesIff(cfg, s, steps[0], id);
      if Misleads(cfg, s, steps[0], id) {
        SettlesIff(s1, id);
      } else {
        RunSettlesIff(cfg, s1, steps[1..], id);
      }
    }
  }

  /** The exact condition. In a run, the audit trail of an agent replays to its status,
      whatever the order in which outstanding entries get logged, in every state if and only
      if no write sets its status while another call has still to log a different one, and no
      append fails for the last outstanding entry when the trail says something else. */
  lemma AuditSettlesIff(cfg: Registry.Config, steps: seq<Step>, id: Id)
    ensures AlwaysSettles(cfg, INIT, steps, id) <==> NoMislead(cfg, INIT, steps, id)
  {
    RunSettlesIff(cfg, INIT, steps, id);
  }

  /** No write to the agent takes effect while another call has an entry about it to log, and
      no append of one fails. */
  ghost predicate OneAtATime(cfg: Registry.Config, s: World, steps: seq<Step>, id: Id)
    decreases |steps|
  {
    steps == [] ||
    (!(steps[0].Write? && Effective(cfg, s, steps[0].t) && s.threads[steps[0].t].op.id == id
       && exists u | u in s.threads :: s.threads[u].Unlogged? && s.threads[u].id == id)
     && !(steps[0].Drop? && Pending(s, steps[0].t, id))
     && OneAtATime(cfg, Next(cfg, s, steps[0]), steps[1..], id))
  }

  lemma {:induction false} OneAtATimeSuffices(cfg: Registry.Config, s: World, steps: seq<Step>, id: Id)
    requires OneAtATime(cfg, s, steps, id)
    ensures NoMislead(cfg, s, steps, id)
    decreases |steps|
  {
    if steps != [] { OneAtATimeSuffices(cfg, Next(cfg, s, steps[0]), steps[1..], id); }
  }

  lemma {:induction false} SettlesAtEnd(cfg: Registry.Config, s: World, steps: seq<Step>, id: Id)
    requires AlwaysSettles(cfg, s, steps, id)
    ensures id in Run(cfg, s, steps).table ==> Settles(Run(cfg, s, steps), id)
    decreases |steps|
  {
    if steps != [] { SettlesAtEnd(cfg, Next(cfg, s, steps[0]), steps[1..], id); }
  }

  /** What callers can see to: where writes to an agent wait until no entry about it is
      outstanding, and appends succeed, the trail replays to the table whenever all are
      logged. */
  lemma AuditReplaysOneAtATime(cfg: Registry.Config, steps: seq<Step>, id: Id)
    requires OneAtATime(cfg, INIT, steps, id)
    requires id in Run(cfg, INIT, steps).table && AllLogged(Run(cfg, INIT, steps), id)
    ensures var s := Run(cfg, INIT, steps); ReplayAudit(s.audit, id) == Some(s.table[id].status)
  {
    OneAtATimeSuffices(cfg, INIT, steps, id);
    AuditSettlesIff(cfg, steps, id);
    SettlesAtEnd(cfg, INIT, steps, id);
    SettlesIff(Run(cfg, INIT, steps), id);
  }

  // ------------------------------------------------------- a bad schedule

  /** A suspend up to its write, and a restore up to its write. */
  lemma SuspendUnlogged(cfg: Registry.Config, s: World, t: ThreadId, id: Id, now: Time)
    requires id in s.table && s.table[id].status == Active && t !in s.threads
    ensures var s' := DoWrite(cfg, DoStart(cfg, s, t, Registry.Suspend(id, now)), t);
            && id in s'.table && s'.table[id].status == Suspended
            && s'.threads == s.threads[t := Unlogged(id, "suspend")] && s'.audit == s.audit
  {
  }

  lemma RestoreUnlogged(cfg: Registry.Config, s: World, t: ThreadId, id: Id)
    requires id in s.table && s.table[id].status == Suspended && t !in s.threads
    ensures var s' := DoWrite(cfg, DoStart(cfg, s, t, Registry.Restore(id)), t);
            && id in s'.table && s'.table[id].status == Active
            && s'.threads == s.threads[t := Unlogged(id, "restore")] && s'.audit == s.audit
  {
  }

  /** Why the replay result is about calls executed one at a time: from any state with an
      active agent, a suspend and then a restore whose entries are logged in the opposite
      order leave the agent active and the audit trail saying suspended. */
  lemma AuditOrderCanDiffer(cfg: Registry.Config, s: World, id: Id, t1: ThreadId, t2: ThreadId, now: Time)
    requires id in s.table && s.table[id].status == Active
    requires t1 !in s.threads && t2 !in s.threads && t1 != t2
    ensures var suspended := DoWrite(cfg, DoStart(cfg, s, t1, Registry.Suspend(id, now)), t1);
            var restored := DoWrite(cfg, DoStart(cfg, suspended, t2, Registry.Restore(id)), t2);
            var s' := DoLog(DoLog(restored, t2), t1);
            id in s'.table && s'.table[id].status == Active && ReplayAudit(s'.audit, id) == Some(Suspended)
  {
    SuspendUnlogged(cfg, s, t1, id, now);
    var suspended := DoWrite(cfg, DoStart(cfg, s, t1, Registry.Suspend(id, now)), t1);
    RestoreUnlogged(cfg, suspended, t2, id);
    var restored := DoWrite(cfg, DoStart(cfg, suspended, t2, Registry.Restore(id)), t2);
    var s' := DoLog(DoLog(restored, t2), t1);
    assert s'.audit == s.audit + [(id, "restore")] + [(id, "suspend")];
    ReplayOneMore(s.audit + [(id, "restore")], id, "suspend", id);
  }
}
