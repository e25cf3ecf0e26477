/** Start and Stop keep the lifecycle invariant; a clean shutdown leaves no row in init. */
module LifecycleFlow {
  import opened Workspaces
  import opened Lifecycle
  import opened LifecycleInv
  import LifecycleCalls
  import Jobs = InstallPool

  lemma StartFacts(p: Jobs.Pool, n: nat)
    requires Jobs.PoolInv(p) && Jobs.Enabled(p, Jobs.Start(n))
    ensures var q := Jobs.Apply(p, Jobs.Start(n));
      && Jobs.PoolInv(q)
      && q.queue == p.queue && p.workers == map[] && (forall w :: w in q.workers ==> !q.workers[w].Running?)
      && q.finished == p.finished && q.dropped == p.dropped && q.nextTicket == p.nextTicket
      && q.started && q.stopped == p.stopped && q.doneCloses == p.doneCloses
  {
    Jobs.StartKeeps(p, n);
    hide Jobs.Ordered, Jobs.Settled, Jobs.CountsMatch;
  }

  lemma StartRest(s: State, q: Jobs.Pool)
    requires JobsInv(s.pool, s.ticketOf) && PhasesInv(s.pool.workers, s.installs)
    requires OwnersInv(s.rows, s.repoClosed, s.pool, s.installs, s.calls, s.ticketOf)
    requires s.pool.workers == map[] && forall w :: w in q.workers ==> !q.workers[w].Running?
    requires q.queue == s.pool.queue && q.nextTicket == s.pool.nextTicket && q.dropped == s.pool.dropped
    ensures JobsInv(q, s.ticketOf) && PhasesInv(q.workers, s.installs)
    ensures OwnersInv(s.rows, s.repoClosed, q, s.installs, s.calls, s.ticketOf)
  {
    assert forall w :: w !in s.installs;
    assert forall id :: Owned(s.pool, s.installs, s.calls, s.ticketOf, id) ==> Owned(q, s.installs, s.calls, s.ticketOf, id);
  }

  lemma StartPoolKeeps(s: State, n: nat)
    requires Inv(s) && Jobs.Enabled(s.pool, Jobs.Start(n))
    ensures Inv(s.(pool := Jobs.Apply(s.pool, Jobs.Start(n))))
  {
    hide TableInv, IdsInv, JobsInv, PhasesInv, CachesInv, ProbesInv, CallsInv, CreatorsInv, DeletersInv, OwnersInv, FenceInv;
    hide Jobs.PoolInv, Jobs.Apply;
    var q := Jobs.Apply(s.pool, Jobs.Start(n));
    StartFacts(s.pool, n);
    StartRest(s, q);
  }

  lemma SetStoppedKeeps(s: State)
    requires Inv(s) && !s.pool.stopped
    ensures Inv(s.(pool := Jobs.Apply(s.pool, Jobs.SetStopped)))
  {
    hide TableInv, IdsInv, JobsInv, PhasesInv, CachesInv, ProbesInv, CallsInv, CreatorsInv, DeletersInv, OwnersInv, FenceInv, StopInv, Jobs.PoolInv;
    var q := Jobs.Apply(s.pool, Jobs.SetStopped);
    Jobs.FlagKeeps(s.pool, Jobs.SetStopped);
    LifecycleCalls.CancelOwners(s, q);
    LifecycleCalls.CancelJobs(s.pool, q, s.ticketOf);
    SetStoppedStop(s, q);
  }

  lemma SetStoppedStop(s: State, q: Jobs.Pool)
    requires StopInv(s.stop, s.repoClosed, s.rows, s.pool, s.sched, s.schedStopped, s.apiCount)
    requires q == s.pool.(stopped := true)
    ensures StopInv(s.stop, s.repoClosed, s.rows, q, s.sched, s.schedStopped, s.apiCount)
  {}

  /** Changing only the stop stage, the scheduler's state or the starters leaves the other parts alone. */
  lemma StageKeeps(s: State, stop: Stopper, sched: Scheduler, schedStopped: bool, starts: map<nat, Starter>)
    requires Inv(s) && ProbesInv(sched, s.probes)
    requires StopInv(stop, s.repoClosed, s.rows, s.pool, sched, schedStopped, s.apiCount)
    ensures Inv(s.(stop := stop, sched := sched, schedStopped := schedStopped, starts := starts))
  {
    hide TableInv, IdsInv, JobsInv, PhasesInv, CachesInv, ProbesInv, CallsInv, CreatorsInv, DeletersInv, OwnersInv, FenceInv, StopInv, Jobs.PoolInv;
  }

  /** With no call in flight and the pool drained, nobody is left to own a row in init, so there is none. */
  lemma NobodyOwns(s: State)
    requires OwnersInv(s.rows, s.repoClosed, s.pool, s.installs, s.calls, s.ticketOf) && !s.repoClosed
    requires CallsInv(s.calls, s.createLock, s.apiCount) && s.apiCount == 0
    requires Jobs.PoolInv(s.pool) && PoolDrained(s.pool)
    ensures NoInit(s.rows)
  {
    assert s.calls.Keys == {} by { assert |s.calls.Keys| == |s.calls|; }
    if s.pool.started { Jobs.DoneInv(s.pool); }
    hide Jobs.PoolInv;
    assert s.pool.queue == [] by { PoolEmpty(s.pool); }
    forall id | id in s.rows ensures s.rows[id].status != Init {
      PoolEmpty(s.pool);
      assert !Owned(s.pool, s.installs, s.calls, s.ticketOf, id);
    }
  }

  lemma PoolEmpty(p: Jobs.Pool)
    requires Jobs.PoolInv(p) && PoolDrained(p)
    ensures p.queue == [] && forall w :: w in p.workers ==> !p.workers[w].Running?
  {
    if p.started { Jobs.DoneInv(p); }
  }

  lemma CloseKeeps(s: State)
    requires Inv(s) && s.stop.Closing?
    ensures Inv(s.(repoClosed := true, stop := Ending(s.stop.bad)))
  {
    if Clean(s.stop) { NobodyOwns(s); }
    hide TableInv, IdsInv, JobsInv, PhasesInv, CachesInv, ProbesInv, CallsInv, CreatorsInv, DeletersInv, FenceInv, Jobs.PoolInv;
    hide PoolDrained, SchedGone;
  }

  /** A stage change over this pool, once the pool is stopped. */
  lemma StopPoolMoves(s: State, stop: Stopper)
    requires Inv(s) && s.stop.PoolStop? && s.pool.stopped
    requires stop == PoolCancel(s.stop.bad) || stop == PoolWait(s.stop.bad) || (!s.pool.started && stop == ApiWait(s.stop.bad))
    ensures Inv(s.(stop := stop))
  {
    hide Inv, StopInv, ProbesInv;
    FlowParts(s);
    StopPoolStage(s, stop);
    StageKeeps(s, stop, s.sched, s.schedStopped, s.starts);
  }

  lemma FlagOnly(p: Jobs.Pool)
    requires !p.stopped
    ensures Jobs.Apply(p, Jobs.SetStopped) == p.(stopped := true)
  {}

  lemma StopPoolKeeps(s: State)
    requires Inv(s) && s.stop.PoolStop?
    ensures Inv(ApplyStop(s, StopPool))
  {
    hide Inv, Jobs.Apply;
    var stop := AfterPoolStop(s.pool, s.stop.bad);
    if s.pool.stopped {
      StopPoolMoves(s, stop);
    } else {
      assert Jobs.Apply(s.pool, Jobs.SetStopped) == s.pool.(stopped := true) by { FlagOnly(s.pool); }
      SetStoppedKeeps(s);
      StopPoolMoves(s.(pool := Jobs.Apply(s.pool, Jobs.SetStopped)), stop);
    }
  }

  lemma StopPoolStage(s: State, stop: Stopper)
    requires StopInv(s.stop, s.repoClosed, s.rows, s.pool, s.sched, s.schedStopped, s.apiCount)
    requires s.stop.PoolStop? && s.pool.stopped
    requires stop == PoolCancel(s.stop.bad) || stop == PoolWait(s.stop.bad) || (!s.pool.started && stop == ApiWait(s.stop.bad))
    ensures StopInv(stop, s.repoClosed, s.rows, s.pool, s.sched, s.schedStopped, s.apiCount)
  {
    hide SchedGone, NoInit;
  }

  lemma StageStep(s: State, t: StopStep)
    requires StopInv(s.stop, s.repoClosed, s.rows, s.pool, s.sched, s.schedStopped, s.apiCount) && ProbesInv(s.sched, s.probes)
    requires StopEnabled(s, t) && !t.StopPool? && !t.StopCancel? && !t.StopClose?
    ensures var d := ApplyStop(s, t);
      && d == s.(stop := d.stop, schedStopped := d.schedStopped)
      && StopInv(d.stop, s.repoClosed, s.rows, s.pool, s.sched, d.schedStopped, s.apiCount)
  {
    hide StatusAgrees, Reported, NoInit;
  }

  lemma FlowParts(s: State)
    requires Inv(s)
    ensures StopInv(s.stop, s.repoClosed, s.rows, s.pool, s.sched, s.schedStopped, s.apiCount) && ProbesInv(s.sched, s.probes)
  {}

  lemma StartsKeeps(s: State, starts: map<nat, Starter>)
    requires Inv(s)
    ensures Inv(s.(starts := starts))
  {
    FlowParts(s);
    hide Inv;
    StageKeeps(s, s.stop, s.sched, s.schedStopped, starts);
  }

  lemma StopCancelKeeps(s: State)
    requires Inv(s) && s.stop.PoolCancel?
    ensures Inv(ApplyStop(s, StopCancel))
  {
    hide Inv, ProbesInv, SchedGone, NoInit;
    var m := s.(pool := s.pool.(rootCancelled := true));
    LifecycleCalls.CancelKeeps(s, s.pool.cancelled, true);
    assert s.pool.(cancelled := s.pool.cancelled, rootCancelled := true) == m.pool;
    FlowParts(m);
    StageKeeps(m, PoolWait(s.stop.bad), m.sched, m.schedStopped, m.starts);
  }

  lemma StartSchedKeeps(s: State, c: nat)
    requires Inv(s) && StartEnabled(s, StartScheduler(c))
    ensures Inv(ApplyStart(s, StartScheduler(c)))
  {
    FlowParts(s);
    if s.schedStopped {
      hide Inv;
      StartsKeeps(s, s.starts[c := StartAborting]);
    } else {
      var sched := if s.sched.SchedOff? then SchedIdle else s.sched;
      hide Inv, PoolDrained, NoInit;
      StageKeeps(s, s.stop, sched, s.schedStopped, s.starts - {c});
    }
  }

  lemma StartKeeps(s: State, t: StartStep)
    requires Inv(s) && StartEnabled(s, t)
    ensures Inv(ApplyStart(s, t))
  {
    match t
    case StartCheck(c) => hide Inv; StartsKeeps(s, s.starts[c := StartChecked]);
    case StartPool(c, n) =>
      hide Inv, Jobs.Apply;
      if !s.pool.stopped && !s.pool.started {
        StartPoolKeeps(s, n);
        StartsKeeps(s.(pool := Jobs.Apply(s.pool, Jobs.Start(n))), s.starts[c := StartHalf]);
      } else {
        StartsKeeps(s, if s.pool.stopped then s.starts - {c} else s.starts[c := StartHalf]);
      }
    case StartScheduler(c) => hide Inv, ApplyStart; StartSchedKeeps(s, c);
    case StartUndo(c) =>
      hide Inv, Jobs.Apply;
      if s.pool.stopped {
        StartsKeeps(s, s.starts - {c});
      } else {
        SetStoppedKeeps(s);
        StartsKeeps(s.(pool := Jobs.Apply(s.pool, Jobs.SetStopped)), s.starts[c := StartCancelling]);
      }
    case StartCancel(c) =>
      hide Inv;
      LifecycleCalls.CancelKeeps(s, s.pool.cancelled, true);
      assert s.pool.(cancelled := s.pool.cancelled, rootCancelled := true) == s.pool.(rootCancelled := true);
      StartsKeeps(s.(pool := s.pool.(rootCancelled := true)), s.starts - {c});
  }

  lemma StopKeeps(s: State, t: StopStep)
    requires Inv(s) && StopEnabled(s, t)
    ensures Inv(ApplyStop(s, t))
  {
    FlowParts(s);
    hide StopInv, ProbesInv;
    match t
    case StopPool => hide Inv, ApplyStop; StopPoolKeeps(s);
    case StopCancel => hide Inv, ApplyStop; StopCancelKeeps(s);
    case StopClose => hide Inv; CloseKeeps(s);
    case _ =>
      hide Inv, ApplyStop;
      StageStep(s, t);
      var d := ApplyStop(s, t);
      StageKeeps(s, d.stop, s.sched, d.schedStopped, s.starts);
  }
}
