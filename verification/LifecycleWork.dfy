/** Install worker steps keep the lifecycle invariant, and write only to rows in init. */
module LifecycleWork {
  import opened Common
  import opened Workspaces
  import opened Lifecycle
  import opened LifecycleInv
  import Jobs = InstallPool

  /** The new phase is sound on its own and against the table. */
  ghost predicate PhaseOk(t: Table, issued: set<Id>, id: Id, ph: Phase) {
    ph.Updating? ==>
      ph.latest.id == id && ph.latest.status == Init && StatusAgrees(ph.latest) && CacheOk(t, issued, ph.latest)
  }

  /** A worker may stop driving its row only when the row is not, or no longer, in init. */
  ghost predicate Releases(closed: bool, t: Table, id: Id, before: Phase, after: Phase) {
    Drives(before) && !Drives(after) && !closed ==> id !in t || t[id].status != Init
  }

  lemma PhaseChangeOwners(s: State, w: nat, t: Table, ph: Phase)
    requires InPhase(s, w)
    requires OwnersInv(t, s.repoClosed, s.pool, s.installs, s.calls, s.ticketOf)
    requires Releases(s.repoClosed, t, JobId(s, w), s.installs[w], ph)
    ensures OwnersInv(t, s.repoClosed, s.pool, s.installs[w := ph], s.calls, s.ticketOf)
  {
    var installs := s.installs[w := ph];
    if !s.repoClosed {
      forall id | id in t && t[id].status == Init ensures Owned(s.pool, installs, s.calls, s.ticketOf, id) {
        assert Owned(s.pool, s.installs, s.calls, s.ticketOf, id);
        if v :| DrivenBy(s.pool.workers, s.installs, v, id) {
          assert DrivenBy(s.pool.workers, installs, v, id);
        }
      }
    }
  }

  lemma PhaseChangeCaches(s: State, w: nat, t: Table, ph: Phase)
    requires CachesInv(t, s.issued, s.installs, s.probes) && PhasesInv(s.pool.workers, s.installs)
    requires InPhase(s, w) && PhaseOk(t, s.issued, JobId(s, w), ph)
    ensures CachesInv(t, s.issued, s.installs[w := ph], s.probes)
    ensures PhasesInv(s.pool.workers, s.installs[w := ph])
  {
    hide CacheOk, StatusAgrees;
  }

  lemma StopRows(s: State, t: Table)
    requires StopInv(s.stop, s.repoClosed, s.rows, s.pool, s.sched, s.schedStopped, s.apiCount)
    requires PastClose(s.stop) && Clean(s.stop) ==> NoInit(t)
    ensures StopInv(s.stop, s.repoClosed, t, s.pool, s.sched, s.schedStopped, s.apiCount)
  {}

  /** A worker moves on to its next phase, writing the table or not. */
  lemma PhaseChangeKeeps(s: State, w: nat, t: Table, ph: Phase)
    requires Inv(s) && InPhase(s, w) && NarrowsSafely(s.rows, t)
    requires PhaseOk(t, s.issued, JobId(s, w), ph)
    requires Releases(s.repoClosed, t, JobId(s, w), s.installs[w], ph)
    ensures Inv(s.(rows := t, installs := s.installs[w := ph]))
  {
    hide TableInv, IdsInv, JobsInv, PhasesInv, CachesInv, ProbesInv, CallsInv, CreatorsInv, DeletersInv, OwnersInv, FenceInv, StopInv;
    hide Jobs.PoolInv, PhaseOk, Releases, NarrowsSafely;
    TablePartsKept(s, t);
    StopRows(s, t);
    PhaseChangeOwners(s, w, t, ph);
    PhaseChangeCaches(s, w, t, ph);
  }

  lemma WorkParts(s: State, w: nat)
    requires Inv(s) && InPhase(s, w)
    ensures TableInv(s.rows) && IdsInv(s.rows, s.issued, s.ticketOf)
    ensures s.installs[w].Updating? ==> PhaseOk(s.rows, s.issued, JobId(s, w), s.installs[w])
  {}

  lemma ReloadOk(s: State, w: nat)
    requires TableInv(s.rows) && IdsInv(s.rows, s.issued, s.ticketOf) && InPhase(s, w) && s.installs[w].Reloading?
    ensures var ph := AfterReload(s, JobId(s, w), s.installs[w]);
      PhaseOk(s.rows, s.issued, JobId(s, w), ph) && Releases(s.repoClosed, s.rows, JobId(s, w), s.installs[w], ph)
  {}

  lemma UpdateOk(s: State, w: nat, retry: bool)
    requires TableInv(s.rows) && InPhase(s, w) && s.installs[w].Updating?
    requires PhaseOk(s.rows, s.issued, JobId(s, w), s.installs[w])
    ensures var t, ph := RowsAfter(s, UpdateWrite(s, w)), AfterUpdate(s, s.installs[w], UpdateWrite(s, w), retry);
      && NarrowsSafely(s.rows, t)
      && PhaseOk(t, s.issued, JobId(s, w), ph)
      && Releases(s.repoClosed, t, JobId(s, w), s.installs[w], ph)
  {
    UpdateNarrows(s.rows, s.issued, s.installs[w].latest);
    SameNarrows(s.rows);
    hide TableInv, NarrowsSafely, UpdateRow;
  }

  lemma MarkOk(s: State, w: nat, retry: bool)
    requires TableInv(s.rows) && InPhase(s, w) && s.installs[w].Marking?
    ensures var t, ph := RowsAfter(s, MarkWrite(s, w)), AfterMark(s, s.installs[w], MarkWrite(s, w), retry);
      && NarrowsSafely(s.rows, t)
      && PhaseOk(t, s.issued, JobId(s, w), ph)
      && Releases(s.repoClosed, t, JobId(s, w), s.installs[w], ph)
  {
    CasNarrows(s.rows, JobId(s, w), ByController, Init, Healthy, None, s.installs[w].probedAt);
    SameNarrows(s.rows);
    hide TableInv, NarrowsSafely;
  }

  /** Giving up on the failed transition is safe: with the repository open the only error is a missing row. */
  lemma FailOk(s: State, w: nat, retry: bool)
    requires TableInv(s.rows) && InPhase(s, w) && s.installs[w].Failing?
    ensures var t, ph := RowsAfter(s, FailWrite(s, w)), AfterFail(s, s.installs[w], FailWrite(s, w), retry);
      && NarrowsSafely(s.rows, t)
      && PhaseOk(t, s.issued, JobId(s, w), ph)
      && Releases(s.repoClosed, t, JobId(s, w), s.installs[w], ph)
  {
    CasNarrows(s.rows, JobId(s, w), ByController, Init, Failed, Some(s.installs[w].failure), s.installs[w].probedAt);
    SameNarrows(s.rows);
    hide TableInv, NarrowsSafely;
  }

  lemma PhaseStepKeeps(s: State, t: WorkStep, w: nat)
    requires Inv(s) && WorkEnabled(s, t) && InPhase(s, w)
    requires t.CheckContext? || t.WorkFails? || t.WorkDone? || t.Reload? || t.TryUpdate? || t.TryMark? || t.TryFail? || t.CleanUp?
    requires t.w == w
    ensures Inv(ApplyWork(s, t))
  {
    hide Inv, TableInv, IdsInv, NarrowsSafely, AfterReload, UpdateWrite, MarkWrite, FailWrite, AfterUpdate, AfterMark, AfterFail, RowsAfter, ContextDone;
    WorkParts(s, w);
    SameNarrows(s.rows);
    var id, before := JobId(s, w), s.installs[w];
    match t
    case CheckContext(_) =>
      PhaseChangeKeeps(s, w, s.rows, if ContextDone(s, w) then Failing(SHUTDOWN, 0, 0) else Working);
    case WorkFails(_, failure, at) => PhaseChangeKeeps(s, w, s.rows, Failing(failure, at, 0));
    case WorkDone(_, attached, at) => PhaseChangeKeeps(s, w, s.rows, Reloading(attached, at));
    case CleanUp(_) => PhaseChangeKeeps(s, w, s.rows, Finishing);
    case Reload(_) =>
      ReloadOk(s, w);
      PhaseChangeKeeps(s, w, s.rows, AfterReload(s, id, before));
    case TryUpdate(_, retry) =>
      UpdateOk(s, w, retry);
      PhaseChangeKeeps(s, w, RowsAfter(s, UpdateWrite(s, w)), AfterUpdate(s, before, UpdateWrite(s, w), retry));
    case TryMark(_, retry) =>
      MarkOk(s, w, retry);
      PhaseChangeKeeps(s, w, RowsAfter(s, MarkWrite(s, w)), AfterMark(s, before, MarkWrite(s, w), retry));
    case TryFail(_, retry) =>
      FailOk(s, w, retry);
      PhaseChangeKeeps(s, w, RowsAfter(s, FailWrite(s, w)), AfterFail(s, before, FailWrite(s, w), retry));
  }

  // ----- dequeue, finish and exit: the pool moves -----

  lemma DequeueFacts(p: Jobs.Pool, w: nat)
    requires Jobs.PoolInv(p) && Jobs.Enabled(p, Jobs.Dequeue(w))
    ensures var q := Jobs.Apply(p, Jobs.Dequeue(w));
      && Jobs.PoolInv(q)
      && q.queue == p.queue[1..] && q.workers == p.workers[w := q.workers[w]]
      && q.workers[w].Running? && q.workers[w].job == p.queue[0]
      && q.finished == p.finished && q.dropped == p.dropped && q.nextTicket == p.nextTicket
      && q.started == p.started && q.stopped == p.stopped && q.doneCloses == p.doneCloses
  {
    hide Jobs.PoolInv;
    Jobs.DequeueKeeps(p, w);
  }

  lemma FinishFacts(p: Jobs.Pool, w: nat)
    requires Jobs.PoolInv(p) && Jobs.Enabled(p, Jobs.Finish(w))
    ensures var q := Jobs.Apply(p, Jobs.Finish(w));
      && Jobs.PoolInv(q)
      && q.queue == p.queue && q.workers == p.workers[w := Jobs.Waiting]
      && p.finished <= q.finished && q.dropped == p.dropped && q.nextTicket == p.nextTicket
      && q.started == p.started && q.stopped == p.stopped && q.doneCloses == p.doneCloses
  {
    hide Jobs.PoolInv;
    Jobs.FinishKeeps(p, w);
  }

  lemma ExitFacts(p: Jobs.Pool, x: Jobs.Step)
    requires Jobs.PoolInv(p) && Jobs.Enabled(p, x) && (x.Quit? || x.Leave?)
    ensures var q := Jobs.Apply(p, x);
      && Jobs.PoolInv(q)
      && q.queue == p.queue && x.w in p.workers && !p.workers[x.w].Running?
      && x.w in q.workers && q.workers == p.workers[x.w := q.workers[x.w]] && !q.workers[x.w].Running?
      && q.finished == p.finished && q.dropped == p.dropped && q.nextTicket == p.nextTicket
      && q.started == p.started && q.stopped == p.stopped && p.doneCloses <= q.doneCloses
  {
    hide Jobs.PoolInv;
    Jobs.ExitKeeps(p, x);
  }

  lemma DequeueOwners(s: State, q: Jobs.Pool, w: nat)
    requires OwnersInv(s.rows, s.repoClosed, s.pool, s.installs, s.calls, s.ticketOf) && PhasesInv(s.pool.workers, s.installs)
    requires s.pool.queue != [] && q.queue == s.pool.queue[1..] && q.dropped == s.pool.dropped
    requires w in s.pool.workers && s.pool.workers[w].Waiting? && w in q.workers
    requires q.workers == s.pool.workers[w := q.workers[w]] && q.workers[w].Running? && q.workers[w].job == s.pool.queue[0]
    ensures OwnersInv(s.rows, s.repoClosed, q, s.installs[w := Starting], s.calls, s.ticketOf)
  {
    var installs := s.installs[w := Starting];
    if !s.repoClosed {
      forall id | id in s.rows && s.rows[id].status == Init ensures Owned(q, installs, s.calls, s.ticketOf, id) {
        assert Owned(s.pool, s.installs, s.calls, s.ticketOf, id);
        if i :| 0 <= i < |s.pool.queue| && s.pool.queue[i].id == id {
          if i == 0 { assert DrivenBy(q.workers, installs, w, id); } else { assert q.queue[i - 1].id == id; }
        } else if v :| DrivenBy(s.pool.workers, s.installs, v, id) {
          assert DrivenBy(q.workers, installs, v, id);
        }
      }
    }
  }

  lemma DequeueRest(s: State, q: Jobs.Pool, w: nat)
    requires s.pool.queue != [] && q.queue == s.pool.queue[1..] && q.nextTicket == s.pool.nextTicket
    requires w in s.pool.workers && s.pool.workers[w].Waiting? && w in q.workers
    requires q.workers == s.pool.workers[w := q.workers[w]] && q.workers[w].Running? && q.workers[w].job == s.pool.queue[0]
    requires JobsInv(s.pool, s.ticketOf) && PhasesInv(s.pool.workers, s.installs)
    requires CachesInv(s.rows, s.issued, s.installs, s.probes) && DeletersInv(s.pool.queue, s.ticketOf, s.calls)
    ensures JobsInv(q, s.ticketOf) && PhasesInv(q.workers, s.installs[w := Starting])
    ensures CachesInv(s.rows, s.issued, s.installs[w := Starting], s.probes) && DeletersInv(q.queue, s.ticketOf, s.calls)
  {
    hide StatusAgrees, CacheOk;
    assert forall i :: 0 <= i < |q.queue| ==> q.queue[i] == s.pool.queue[i + 1];
    forall c | c in s.calls ensures DeleterOk(q.queue, s.ticketOf, s.calls[c]) {
      assert DeleterOk(s.pool.queue, s.ticketOf, s.calls[c]);
    }
  }

  lemma StopPoolKept(s: State, q: Jobs.Pool)
    requires StopInv(s.stop, s.repoClosed, s.rows, s.pool, s.sched, s.schedStopped, s.apiCount)
    requires q.started == s.pool.started && q.stopped == s.pool.stopped && s.pool.doneCloses <= q.doneCloses
    ensures StopInv(s.stop, s.repoClosed, s.rows, q, s.sched, s.schedStopped, s.apiCount)
  {}

  lemma FenceKept(s: State, q: Jobs.Pool)
    requires FenceInv(s.fenced, s.ticketOf, s.pool.finished, s.pool.dropped)
    requires s.pool.finished <= q.finished && s.pool.dropped <= q.dropped
    ensures FenceInv(s.fenced, s.ticketOf, q.finished, q.dropped)
  {}

  lemma DequeueKeeps(s: State, w: nat)
    requires Inv(s) && Jobs.Enabled(s.pool, Jobs.Dequeue(w))
    ensures Inv(s.(pool := Jobs.Apply(s.pool, Jobs.Dequeue(w)), installs := s.installs[w := Starting]))
  {
    hide TableInv, IdsInv, JobsInv, PhasesInv, CachesInv, ProbesInv, CallsInv, CreatorsInv, DeletersInv, OwnersInv, FenceInv, StopInv;
    hide Jobs.PoolInv, Jobs.Apply;
    var q := Jobs.Apply(s.pool, Jobs.Dequeue(w));
    DequeueFacts(s.pool, w);
    DequeueOwners(s, q, w);
    DequeueRest(s, q, w);
    StopPoolKept(s, q);
    FenceKept(s, q);
  }

  lemma FinishOwners(s: State, q: Jobs.Pool, w: nat)
    requires OwnersInv(s.rows, s.repoClosed, s.pool, s.installs, s.calls, s.ticketOf)
    requires InPhase(s, w) && !Drives(s.installs[w])
    requires q.queue == s.pool.queue && q.dropped == s.pool.dropped && q.workers == s.pool.workers[w := Jobs.Waiting]
    ensures OwnersInv(s.rows, s.repoClosed, q, s.installs - {w}, s.calls, s.ticketOf)
  {
    if !s.repoClosed {
      forall id | id in s.rows && s.rows[id].status == Init ensures Owned(q, s.installs - {w}, s.calls, s.ticketOf, id) {
        assert Owned(s.pool, s.installs, s.calls, s.ticketOf, id);
        if v :| DrivenBy(s.pool.workers, s.installs, v, id) {
          assert DrivenBy(q.workers, s.installs - {w}, v, id);
        }
      }
    }
  }

  lemma FinishRest(s: State, q: Jobs.Pool, w: nat)
    requires InPhase(s, w)
    requires q.queue == s.pool.queue && q.nextTicket == s.pool.nextTicket && q.workers == s.pool.workers[w := Jobs.Waiting]
    requires JobsInv(s.pool, s.ticketOf) && PhasesInv(s.pool.workers, s.installs)
    requires CachesInv(s.rows, s.issued, s.installs, s.probes)
    ensures JobsInv(q, s.ticketOf) && PhasesInv(q.workers, s.installs - {w})
    ensures CachesInv(s.rows, s.issued, s.installs - {w}, s.probes)
  {
    hide StatusAgrees, CacheOk;
  }

  lemma FinishKeeps(s: State, w: nat)
    requires Inv(s) && InPhase(s, w) && s.installs[w].Finishing?
    ensures Inv(s.(pool := Jobs.Apply(s.pool, Jobs.Finish(w)), installs := s.installs - {w}))
  {
    hide TableInv, IdsInv, JobsInv, PhasesInv, CachesInv, ProbesInv, CallsInv, CreatorsInv, DeletersInv, OwnersInv, FenceInv, StopInv;
    hide Jobs.PoolInv, Jobs.Apply;
    var q := Jobs.Apply(s.pool, Jobs.Finish(w));
    FinishFacts(s.pool, w);
    FinishOwners(s, q, w);
    FinishRest(s, q, w);
    StopPoolKept(s, q);
    FenceKept(s, q);
  }

  lemma ExitRest(s: State, q: Jobs.Pool, w: nat)
    requires w in s.pool.workers && !s.pool.workers[w].Running? && w in q.workers
    requires q.queue == s.pool.queue && q.nextTicket == s.pool.nextTicket && q.dropped == s.pool.dropped
    requires q.workers == s.pool.workers[w := q.workers[w]] && !q.workers[w].Running?
    requires JobsInv(s.pool, s.ticketOf) && PhasesInv(s.pool.workers, s.installs)
    requires OwnersInv(s.rows, s.repoClosed, s.pool, s.installs, s.calls, s.ticketOf)
    ensures JobsInv(q, s.ticketOf) && PhasesInv(q.workers, s.installs)
    ensures OwnersInv(s.rows, s.repoClosed, q, s.installs, s.calls, s.ticketOf)
  {
    hide StatusAgrees;
    if !s.repoClosed {
      forall id | id in s.rows && s.rows[id].status == Init ensures Owned(q, s.installs, s.calls, s.ticketOf, id) {
        assert Owned(s.pool, s.installs, s.calls, s.ticketOf, id);
        if v :| DrivenBy(s.pool.workers, s.installs, v, id) {
          assert DrivenBy(q.workers, s.installs, v, id);
        }
      }
    }
  }

  lemma ExitKeeps(s: State, x: Jobs.Step)
    requires Inv(s) && Jobs.Enabled(s.pool, x) && (x.Quit? || x.Leave?)
    ensures Inv(s.(pool := Jobs.Apply(s.pool, x)))
  {
    hide TableInv, IdsInv, JobsInv, PhasesInv, CachesInv, ProbesInv, CallsInv, CreatorsInv, DeletersInv, OwnersInv, FenceInv, StopInv;
    hide Jobs.PoolInv, Jobs.Apply;
    var q := Jobs.Apply(s.pool, x);
    ExitFacts(s.pool, x);
    ExitRest(s, q, x.w);
    StopPoolKept(s, q);
    FenceKept(s, q);
  }

  lemma WorkKeeps(s: State, t: WorkStep)
    requires Inv(s) && WorkEnabled(s, t)
    ensures Inv(ApplyWork(s, t))
  {
    match t
    case DequeueJob(w) => hide Inv, Jobs.Apply; DequeueKeeps(s, w);
    case QuitWorker(w) => hide Inv, Jobs.Apply; ExitKeeps(s, Jobs.Quit(w));
    case LeaveWorker(w) => hide Inv, Jobs.Apply; ExitKeeps(s, Jobs.Leave(w));
    case FinishJob(w) => hide Inv, Jobs.Apply; FinishKeeps(s, w);
    case _ => hide Inv, ApplyWork; PhaseStepKeeps(s, t, t.w);
  }
}
