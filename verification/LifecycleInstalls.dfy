/** What an install does: the exact outcome of each step on its row, an install from end to end, and where a settled row comes from. */
module LifecycleInstalls {
  import opened Common
  import opened Workspaces
  import opened Lifecycle
  import opened LifecycleInv
  import opened LifecycleTheorems
  import opened LifecycleHistory
  import opened LifecycleShutdown
  import LifecycleRequests
  import LifecycleWork
  import LifecycleSched
  import LifecycleCancel
  import Jobs = InstallPool

  // ----- the outcome of each step, written out -----

  ghost predicate At(s: State, w: nat, id: Id) {
    w in s.pool.workers && s.pool.workers[w].Running? && s.pool.workers[w].job.id == id && w in s.installs
  }

  /** The row can be written as one that is still being installed. */
  ghost predicate Open(s: State, id: Id) { !s.repoClosed && id in s.rows && s.rows[id].status == Init }

  lemma ContextOutcome(s: State, w: nat, id: Id)
    requires At(s, w, id) && s.installs[w].Starting?
    ensures Enabled(s, Installing(CheckContext(w)))
    ensures ApplyWork(s, CheckContext(w)) == s.(installs := s.installs[w :=
      if s.pool.rootCancelled || s.pool.workers[w].token in s.pool.cancelled then Failing(Failure("shutdown", "install"), 0, 0) else Working])
  {}

  lemma WorkOutcome(s: State, w: nat, id: Id, attached: seq<Attached>, failure: Failure, at: int)
    requires At(s, w, id) && s.installs[w].Working?
    ensures Enabled(s, Installing(WorkDone(w, attached, at))) && Enabled(s, Installing(WorkFails(w, failure, at)))
    ensures ApplyWork(s, WorkDone(w, attached, at)) == s.(installs := s.installs[w := Reloading(attached, at)])
    ensures ApplyWork(s, WorkFails(w, failure, at)) == s.(installs := s.installs[w := Failing(failure, at, 0)])
  {}

  /** A row that is gone fails the install, an overdue one is left for diagnosis, another settled one is cleaned up after. */
  lemma ReloadOutcome(s: State, w: nat, id: Id)
    requires At(s, w, id) && s.installs[w].Reloading?
    ensures Enabled(s, Installing(Reload(w)))
    ensures ApplyWork(s, Reload(w)) == s.(installs := s.installs[w :=
      if Open(s, id) then Updating(s.rows[id].(plugins := s.installs[w].attached), s.installs[w].probedAt, 0)
      else if s.repoClosed || id !in s.rows then Failing(Failure("install.error", "install"), 0, 0)
      else if s.rows[id].status == Failed && s.rows[id].error.Some? && s.rows[id].error.value.code == "install.timeout" then Finishing
      else Cleaning])
  {}

  /** The row read before the write back is still the stored one in everything fixed. */
  lemma LatestIsStored(s: State, w: nat, id: Id)
    requires Inv(s) && At(s, w, id) && s.installs[w].Updating?
    ensures var l := s.installs[w].latest; l.id == id && l.status == Init && (id in s.rows ==> SameImmutable(s.rows[id], l))
  {
    LifecycleWork.WorkParts(s, w);
    hide Inv;
  }

  /** Writing the plugins back: only over a row in init, tried at most three times. */
  lemma UpdateOutcome(s: State, w: nat, id: Id, retry: bool)
    requires At(s, w, id) && s.installs[w].Updating?
    requires s.installs[w].latest.id == id && s.installs[w].latest.status == Init
    requires id in s.rows ==> SameImmutable(s.rows[id], s.installs[w].latest)
    ensures Enabled(s, Installing(TryUpdate(w, retry))) <==> (retry ==> s.installs[w].attempt < 2)
    ensures Enabled(s, Installing(TryUpdate(w, retry))) ==>
      var ph := s.installs[w];
      ApplyWork(s, TryUpdate(w, retry)) ==
        if Open(s, id) then
          s.(rows := s.rows[id := ph.latest.(createdAt := s.rows[id].createdAt)], installs := s.installs[w := Marking(ph.probedAt, 0)])
        else s.(installs := s.installs[w := if retry then Updating(ph.latest, ph.probedAt, ph.attempt + 1) else Failing(Failure("install.error", "install"), 0, 0)])
  {}

  /** Marking healthy: only a row in init, which loses any error; a lost race is no failure; tried at most three times. */
  lemma MarkOutcome(s: State, w: nat, id: Id, retry: bool)
    requires At(s, w, id) && s.installs[w].Marking?
    ensures Enabled(s, Installing(TryMark(w, retry))) <==> (retry ==> s.installs[w].attempt < 2)
    ensures Enabled(s, Installing(TryMark(w, retry))) ==>
      var at := s.installs[w].probedAt;
      ApplyWork(s, TryMark(w, retry)) ==
        if Open(s, id) then
          s.(rows := s.rows[id := s.rows[id].(status := Healthy, error := None, lastProbeAt := at)], installs := s.installs[w := Finishing])
        else if !s.repoClosed && id in s.rows then s.(installs := s.installs[w := Finishing])
        else s.(installs := s.installs[w := if retry then Marking(at, s.installs[w].attempt + 1) else Failing(Failure("status.error", "status"), 0, 0)])
  {}

  /** Marking failed: only a row in init, with the failure that led here; giving up is the end of the install. */
  lemma FailOutcome(s: State, w: nat, id: Id, retry: bool)
    requires At(s, w, id) && s.installs[w].Failing?
    ensures Enabled(s, Installing(TryFail(w, retry))) <==> (retry ==> s.installs[w].attempt < 2)
    ensures Enabled(s, Installing(TryFail(w, retry))) ==>
      var ph := s.installs[w];
      ApplyWork(s, TryFail(w, retry)) ==
        if Open(s, id) then
          s.(rows := s.rows[id := s.rows[id].(status := Failed, error := Some(ph.failure), lastProbeAt := ph.probedAt)], installs := s.installs[w := Finishing])
        else if !s.repoClosed && id in s.rows then s.(installs := s.installs[w := Finishing])
        else s.(installs := s.installs[w := if retry then Failing(ph.failure, ph.probedAt, ph.attempt + 1) else Finishing])
  {}

  lemma DequeueOutcome(s: State, w: nat)
    requires w in s.pool.workers && s.pool.workers[w].Waiting? && s.pool.queue != []
    ensures Enabled(s, Installing(DequeueJob(w)))
    ensures var d, job := ApplyWork(s, DequeueJob(w)), s.pool.queue[0];
      && d == s.(pool := d.pool, installs := s.installs[w := Starting])
      && d.pool.queue == s.pool.queue[1..] && d.pool.workers == s.pool.workers[w := Jobs.Running(job, s.pool.nextToken)]
      && d.pool.rootCancelled == s.pool.rootCancelled && d.pool.finished == s.pool.finished && d.pool.dropped == s.pool.dropped
      && d.pool.cancelled == s.pool.cancelled + (if job.id in s.pool.installCancel then {s.pool.installCancel[job.id]} else {})
      && d.pool.installCancel == s.pool.installCancel[job.id := s.pool.nextToken] && d.pool.nextToken == s.pool.nextToken + 1
  {}

  lemma FinishOutcome(s: State, w: nat, id: Id)
    requires At(s, w, id) && (s.installs[w].Cleaning? || s.installs[w].Finishing?)
    ensures s.installs[w].Cleaning? ==>
      Enabled(s, Installing(CleanUp(w))) && ApplyWork(s, CleanUp(w)) == s.(installs := s.installs[w := Finishing])
    ensures s.installs[w].Finishing? ==>
      && Enabled(s, Installing(FinishJob(w)))
      && var d := ApplyWork(s, FinishJob(w));
        && d == s.(pool := d.pool, installs := s.installs - {w})
        && d.pool.queue == s.pool.queue && d.pool.workers == s.pool.workers[w := Jobs.Waiting]
        && d.pool.finished == s.pool.finished + {s.pool.workers[w].job.ticket} && d.pool.dropped == s.pool.dropped
        && d.pool.cancelled == s.pool.cancelled + {s.pool.workers[w].token}
  {}

  // ----- an install from end to end -----

  lemma Works(s: State, t: WorkStep, d: State)
    requires Coherent(s.rows) && WorkEnabled(s, t) && d == ApplyWork(s, t)
    ensures Steps(s, Installing(t), d)
  {
    hide Coherent, WorkEnabled, ApplyWork;
  }

  lemma FreshAfter(s: State, w: nat)
    requires Jobs.CountsMatch(s.pool) && LifecycleCancel.EntriesReach(s.pool) && WorkEnabled(s, DequeueJob(w))
    ensures var q := ApplyWork(s, DequeueJob(w)).pool; w in q.workers && q.workers[w].Running? && q.workers[w].token !in q.cancelled
  {
    LifecycleCancel.FreshInPool(s.pool, w);
  }

  /** The job at the front is taken up, and its context is not done. */
  lemma Begun(s: State, w: nat) returns (d: State)
    requires Coherent(s.rows) && Jobs.CountsMatch(s.pool) && LifecycleCancel.EntriesReach(s.pool)
    requires w in s.pool.workers && s.pool.workers[w].Waiting? && s.pool.queue != [] && !s.pool.rootCancelled
    ensures Leads(s, [Installing(DequeueJob(w)), Installing(CheckContext(w))], d)
    ensures d == s.(pool := d.pool, installs := s.installs[w := Working])
    ensures d.pool.queue == s.pool.queue[1..] && d.pool.finished == s.pool.finished && d.pool.dropped == s.pool.dropped
    ensures w in d.pool.workers && d.pool.workers == s.pool.workers[w := d.pool.workers[w]]
    ensures d.pool.workers[w].Running? && d.pool.workers[w].job == s.pool.queue[0]
  {
    hide Coherent, Jobs.CountsMatch, LifecycleCancel.EntriesReach, Leads;
    DequeueOutcome(s, w);
    FreshAfter(s, w);
    hide WorkEnabled, ApplyWork;
    var s1 := ApplyWork(s, DequeueJob(w));
    ContextOutcome(s1, w, s.pool.queue[0].id);
    d := ApplyWork(s1, CheckContext(w));
    Works(s, DequeueJob(w), s1);
    Works(s1, CheckContext(w), d);
    hide Enabled, Steps;
    NothingLeads(s);
    LeadsThen(s, [], s, Installing(DequeueJob(w)), s1);
    LeadsThen(s, [] + [Installing(DequeueJob(w))], s1, Installing(CheckContext(w)), d);
    assert [] + [Installing(DequeueJob(w))] + [Installing(CheckContext(w))] == [Installing(DequeueJob(w)), Installing(CheckContext(w))];
  }

  /** One more step of the worker. */
  lemma Goes(s: State, ts: seq<Step>, m: State, t: WorkStep, d: State)
    requires Leads(s, ts, m) && Coherent(m.rows) && WorkEnabled(m, t) && d == ApplyWork(m, t)
    ensures Leads(s, ts + [Installing(t)], d)
  {
    hide Leads, Coherent, WorkEnabled, ApplyWork;
    Works(m, t, d);
    hide Steps;
    LeadsThen(s, ts, m, Installing(t), d);
  }

  lemma SameKeyCoherent(t: Table, id: Id, row: Row)
    requires Coherent(t) && id in t && row.id == id && row.key == t[id].key
    ensures Coherent(t[id := row])
  {}

  /** The row is written back and marked healthy: the middle of a successful install. */
  lemma Finalized(s: State, w: nat, id: Id, attached: seq<Attached>, at: int) returns (d: State)
    requires Coherent(s.rows) && At(s, w, id) && s.installs[w] == Reloading(attached, at) && Open(s, id)
    ensures d == s.(rows := s.rows[id := s.rows[id].(plugins := attached, status := Healthy, error := None, lastProbeAt := at)],
                    installs := s.installs[w := Finishing])
    ensures Leads(s, [Installing(Reload(w))] + [Installing(TryUpdate(w, false))] + [Installing(TryMark(w, false))], d)
    ensures Coherent(d.rows)
  {
    hide Coherent, Leads, WorkEnabled, ApplyWork;
    StoredId(s.rows, id);
    ReloadOutcome(s, w, id);
    var s1 := ApplyWork(s, Reload(w));
    NothingLeads(s);
    Goes(s, [], s, Reload(w), s1);
    assert [] + [Installing(Reload(w))] == [Installing(Reload(w))];
    UpdateOutcome(s1, w, id, false);
    var s2 := ApplyWork(s1, TryUpdate(w, false));
    Goes(s, [Installing(Reload(w))], s1, TryUpdate(w, false), s2);
    SameKeyCoherent(s.rows, id, s2.rows[id]);
    MarkOutcome(s2, w, id, false);
    d := ApplyWork(s2, TryMark(w, false));
    Goes(s, [Installing(Reload(w))] + [Installing(TryUpdate(w, false))], s2, TryMark(w, false), d);
    SameKeyCoherent(s2.rows, id, d.rows[id]);
  }

  /** The end of an install: the worker waits again, the job has finished. */
  lemma Finished(s: State, ts: seq<Step>, m: State, w: nat, id: Id) returns (d: State)
    requires Leads(s, ts, m) && Coherent(m.rows) && At(m, w, id) && m.installs[w].Finishing?
    ensures Leads(s, ts + [Installing(FinishJob(w))], d)
    ensures d == m.(pool := d.pool, installs := m.installs - {w})
    ensures d.pool.queue == m.pool.queue && d.pool.workers == m.pool.workers[w := Jobs.Waiting] && d.pool.dropped == m.pool.dropped
    ensures d.pool.finished == m.pool.finished + {m.pool.workers[w].job.ticket}
  {
    hide Coherent, Leads;
    FinishOutcome(m, w, id);
    hide WorkEnabled, ApplyWork;
    d := ApplyWork(m, FinishJob(w));
    Goes(s, ts, m, FinishJob(w), d);
  }

  function GoodInstall(w: nat, attached: seq<Attached>, at: int): seq<Step> {
    [Installing(DequeueJob(w)), Installing(CheckContext(w))] + [Installing(WorkDone(w, attached, at))]
    + ([Installing(Reload(w))] + [Installing(TryUpdate(w, false))] + [Installing(TryMark(w, false))]) + [Installing(FinishJob(w))]
  }

  function BadInstall(w: nat, failure: Failure, at: int): seq<Step> {
    [Installing(DequeueJob(w)), Installing(CheckContext(w))] + [Installing(WorkFails(w, failure, at))]
    + [Installing(TryFail(w, false))] + [Installing(FinishJob(w))]
  }

  /** A worker can take up the job at the front, with the row in init and nothing cancelled. */
  ghost predicate Ready(s: State, w: nat) {
    && Coherent(s.rows) && Jobs.CountsMatch(s.pool) && LifecycleCancel.EntriesReach(s.pool)
    && w in s.pool.workers && s.pool.workers[w].Waiting? && w !in s.installs
    && !s.pool.rootCancelled && s.pool.queue != [] && Open(s, s.pool.queue[0].id)
  }

  /** The queue has lost its front job, which has finished; the workers stand as before. */
  ghost predicate ServedFront(p: Jobs.Pool, q: Jobs.Pool) {
    p.queue != [] && q.queue == p.queue[1..] && q.workers == p.workers && q.dropped == p.dropped && q.finished == p.finished + {p.queue[0].ticket}
  }

  /** An install whose work succeeds, undisturbed: the row is healthy, with the plugins placed and the time of the probe. */
  lemma InstallSucceeds(s: State, w: nat, attached: seq<Attached>, at: int) returns (d: State)
    requires Ready(s, w)
    ensures Leads(s, GoodInstall(w, attached, at), d)
    ensures var id := s.pool.queue[0].id;
      && d == s.(pool := d.pool, rows := s.rows[id := s.rows[id].(plugins := attached, status := Healthy, error := None, lastProbeAt := at)])
      && ServedFront(s.pool, d.pool)
  {
    hide Coherent, Leads, Jobs.CountsMatch, LifecycleCancel.EntriesReach;
    var id := s.pool.queue[0].id;
    var start := [Installing(DequeueJob(w)), Installing(CheckContext(w))];
    var b := Begun(s, w);
    WorkOutcome(b, w, id, attached, Failure("", ""), at);
    hide WorkEnabled, ApplyWork;
    var c := ApplyWork(b, WorkDone(w, attached, at));
    Goes(s, start, b, WorkDone(w, attached, at), c);
    var f := Finalized(c, w, id, attached, at);
    LeadsOn(s, start + [Installing(WorkDone(w, attached, at))], c, [Installing(Reload(w))] + [Installing(TryUpdate(w, false))] + [Installing(TryMark(w, false))], f);
    d := Finished(s, start + [Installing(WorkDone(w, attached, at))] + ([Installing(Reload(w))] + [Installing(TryUpdate(w, false))] + [Installing(TryMark(w, false))]), f, w, id);
  }

  /** An install whose work fails, undisturbed: the row is failed, with that failure. */
  lemma InstallFails(s: State, w: nat, failure: Failure, at: int) returns (d: State)
    requires Ready(s, w)
    ensures Leads(s, BadInstall(w, failure, at), d)
    ensures var id := s.pool.queue[0].id;
      && d == s.(pool := d.pool, rows := s.rows[id := s.rows[id].(status := Failed, error := Some(failure), lastProbeAt := at)])
      && ServedFront(s.pool, d.pool)
  {
    hide Coherent, Leads, Jobs.CountsMatch, LifecycleCancel.EntriesReach;
    var id := s.pool.queue[0].id;
    var start := [Installing(DequeueJob(w)), Installing(CheckContext(w))];
    var b := Begun(s, w);
    WorkOutcome(b, w, id, [], failure, at);
    hide WorkEnabled, ApplyWork;
    var c := ApplyWork(b, WorkFails(w, failure, at));
    Goes(s, start, b, WorkFails(w, failure, at), c);
    FailOutcome(c, w, id, false);
    var f := ApplyWork(c, TryFail(w, false));
    Goes(s, start + [Installing(WorkFails(w, failure, at))], c, TryFail(w, false), f);
    StoredId(s.rows, id);
    SameKeyCoherent(s.rows, id, f.rows[id]);
    d := Finished(s, start + [Installing(WorkFails(w, failure, at))] + [Installing(TryFail(w, false))], f, w, id);
  }

  /** In a run, what Ready asks beyond the moment is given. */
  lemma ReadyInRuns(installTimeout: int, states: seq<State>, steps: seq<Step>, n: nat, w: nat)
    requires IsRun(installTimeout, states, steps) && n < |states|
    requires w in states[n].pool.workers && states[n].pool.workers[w].Waiting? && !states[n].pool.rootCancelled
    requires states[n].pool.queue != [] && Open(states[n], states[n].pool.queue[0].id)
    ensures Ready(states[n], w)
  {
    hide IsRun;
    RunInv(installTimeout, states, steps, n);
    LifecycleCancel.RunTokens(installTimeout, states, steps, n);
    var s := states[n];
    assert Coherent(s.rows) by { LifecycleSched.Parts(s); }
    assert Jobs.CountsMatch(s.pool) && PhasesInv(s.pool.workers, s.installs);
    hide Inv, Coherent, Jobs.CountsMatch, LifecycleCancel.EntriesReach;
  }

  // ----- where a settled row comes from -----

  /** The worker is past the work of this job, and has what it gave. */
  ghost predicate Carries(s: State, w: nat, job: Jobs.Job, attached: seq<Attached>, at: int) {
    Has(s, w, job) &&
    match s.installs[w]
    case Reloading(a, p) => a == attached && p == at
    case Updating(latest, p, _) => latest.plugins == attached && p == at
    case Marking(p, _) => p == at && (job.id in s.rows && s.rows[job.id].status == Init ==> s.rows[job.id].plugins == attached)
    case _ => false
  }

  ghost predicate Has(s: State, w: nat, job: Jobs.Job) { At(s, w, job.id) && s.pool.workers[w].job == job }

  ghost predicate PastWork(s: State, w: nat, job: Jobs.Job) {
    Has(s, w, job) && (s.installs[w].Reloading? || s.installs[w].Updating? || s.installs[w].Marking?)
  }

  /** A row in init is left as it is, or gone, or no longer in init. */
  ghost predicate KeepsInit(s: State, s': State, id: Id) {
    id in s'.rows && s'.rows[id].status == Init ==> id in s.rows && s'.rows[id] == s.rows[id]
  }

  lemma StillCarries(s: State, s': State, w: nat, job: Jobs.Job, attached: seq<Attached>, at: int)
    requires Carries(s, w, job, attached, at) && PastWork(s', w, job) && s'.installs[w] == s.installs[w] && KeepsInit(s, s', job.id)
    ensures Carries(s', w, job, attached, at)
  {}

  /** A worker not yet past its work, or through with it, is not past it after these steps. */
  lemma NotPastWork(s: State, t: WorkStep, job: Jobs.Job)
    requires WorkEnabled(s, t) && (t.DequeueJob? || t.QuitWorker? || t.LeaveWorker? || t.FinishJob? || t.CleanUp?)
    ensures !PastWork(ApplyWork(s, t), t.w, job)
  {}

  lemma ReloadPasses(s: State, w: nat, job: Jobs.Job, attached: seq<Attached>, at: int)
    requires WorkEnabled(s, Reload(w)) && PastWork(ApplyWork(s, Reload(w)), w, job)
    ensures PastWork(s, w, job) && (Carries(s, w, job, attached, at) ==> Carries(ApplyWork(s, Reload(w)), w, job, attached, at))
  {
    ReloadOutcome(s, w, s.pool.workers[w].job.id);
    hide ApplyWork;
  }

  lemma Updates(s: State, w: nat, retry: bool)
    requires WorkEnabled(s, TryUpdate(w, retry))
    ensures w in s.pool.workers && s.pool.workers[w].Running? && At(s, w, s.pool.workers[w].job.id) && s.installs[w].Updating?
  {}

  lemma UpdatePasses(s: State, w: nat, retry: bool, job: Jobs.Job, attached: seq<Attached>, at: int)
    requires Inv(s) && WorkEnabled(s, TryUpdate(w, retry)) && PastWork(ApplyWork(s, TryUpdate(w, retry)), w, job)
    ensures PastWork(s, w, job) && (Carries(s, w, job, attached, at) ==> Carries(ApplyWork(s, TryUpdate(w, retry)), w, job, attached, at))
  {
    hide Inv, WorkEnabled, ApplyWork, SameImmutable;
    Updates(s, w, retry);
    var id := s.pool.workers[w].job.id;
    LatestIsStored(s, w, id);
    UpdateOutcome(s, w, id, retry);
    if Open(s, id) {
      assert ApplyWork(s, TryUpdate(w, retry)).installs[w].Marking?;
    } else {
      assert !ApplyWork(s, TryUpdate(w, retry)).installs[w].Marking?;
    }
  }

  lemma MarkPasses(s: State, w: nat, retry: bool, job: Jobs.Job, attached: seq<Attached>, at: int)
    requires WorkEnabled(s, TryMark(w, retry)) && PastWork(ApplyWork(s, TryMark(w, retry)), w, job)
    ensures PastWork(s, w, job) && (Carries(s, w, job, attached, at) ==> Carries(ApplyWork(s, TryMark(w, retry)), w, job, attached, at))
  {
    assert s.installs[w].Marking?;
    MarkOutcome(s, w, s.pool.workers[w].job.id, retry);
    hide ApplyWork, WorkEnabled;
  }

  lemma HandsOver(s: State, t: WorkStep, job: Jobs.Job)
    requires WorkEnabled(s, t) && (t.CheckContext? || t.WorkFails? || t.WorkDone? || t.TryFail?) && PastWork(ApplyWork(s, t), t.w, job)
    ensures t.WorkDone? && Has(s, t.w, job)
    ensures Carries(ApplyWork(s, t), t.w, job, t.attached, t.probedAt)
  {
    hide FailWrite, RowsAfter;
  }

  /** This worker's own steps: the work hands over what it gave, the others pass it on. */
  lemma OwnWork(s: State, t: WorkStep, job: Jobs.Job, attached: seq<Attached>, at: int)
    requires Inv(s) && WorkEnabled(s, t) && PastWork(ApplyWork(s, t), t.w, job)
    ensures t.WorkDone? ==>
      Has(s, t.w, job) && Carries(ApplyWork(s, t), t.w, job, t.attached, t.probedAt)
    ensures !t.WorkDone? ==>
      PastWork(s, t.w, job) && (Carries(s, t.w, job, attached, at) ==> Carries(ApplyWork(s, t), t.w, job, attached, at))
  {
    hide Inv, WorkEnabled, ApplyWork, PastWork, Carries, Has;
    match t
    case Reload(w) => ReloadPasses(s, w, job, attached, at);
    case TryUpdate(w, retry) => UpdatePasses(s, w, retry, job, attached, at);
    case TryMark(w, retry) => MarkPasses(s, w, retry, job, attached, at);
    case CheckContext(_) => HandsOver(s, t, job);
    case WorkFails(_, _, _) => HandsOver(s, t, job);
    case WorkDone(_, _, _) => HandsOver(s, t, job);
    case TryFail(_, _) => HandsOver(s, t, job);
    case _ => NotPastWork(s, t, job);
  }

  // ----- what others do to a row in init -----

  lemma OtherPhase(s: State, t: WorkStep, w: nat)
    requires WorkEnabled(s, t) && t.w != w
    ensures var d := ApplyWork(s, t);
      && (w in d.installs <==> w in s.installs) && (w in d.installs ==> d.installs[w] == s.installs[w])
      && (w in d.pool.workers <==> w in s.pool.workers) && (w in d.pool.workers ==> d.pool.workers[w] == s.pool.workers[w])
  {
    hide UpdateWrite, MarkWrite, FailWrite, AfterUpdate, AfterMark, AfterFail, AfterReload, RowsAfter, ContextDone;
  }

  lemma OtherWorker(s: State, t: WorkStep, w: nat, job: Jobs.Job)
    requires Inv(s) && WorkEnabled(s, t) && t.w != w && Has(ApplyWork(s, t), w, job)
    ensures Has(s, w, job) && ApplyWork(s, t).installs[w] == s.installs[w] && KeepsInit(s, ApplyWork(s, t), job.id)
  {
    OtherPhase(s, t, w);
    WorkerStepTouchesOnlyInit(s, t, job.id);
    assert Jobs.PoolInv(s.pool) && JobsInv(s.pool, s.ticketOf);
    LifecycleCancel.OneInstallEach(s.pool, s.ticketOf);
    hide Inv, Jobs.PoolInv, JobsInv, ApplyWork, WorkEnabled;
  }

  lemma CreateKeepsInit(s: State, t: CreateStep, id: Id)
    requires CreateEnabled(s, t) && Coherent(s.rows) && s.rows.Keys <= s.issued && id in s.issued
    ensures KeepsInit(s, ApplyCreate(s, t), id)
  {
    hide Coherent, DropCall, ApplyInsert, ApplySubmit, ApplyRemove;
    match t
    case Insert(c, x, plugins, now) => LifecycleRequests.InsertOutcome(s, c, x, plugins, now); hide LifecycleRequests.Free;
    case UndoInsert(c) => LifecycleRequests.RemoveOutcome(s, c, s.calls[c].id);
    case SubmitJob(c) => SubmitTickets(s, c);
    case _ => IdleCreate(s, t); hide ApplyCreate;
  }

  lemma DeleteKeepsInit(s: State, t: DeleteStep, id: Id)
    requires DeleteEnabled(s, t)
    ensures KeepsInit(s, ApplyDelete(s, t), id)
  {
    LifecycleRequests.DeleteRows(s, t);
    hide ApplyDelete;
  }

  lemma SchedKeepsInit(s: State, t: SchedStep, id: Id)
    requires SchedEnabled(s, t) && Coherent(s.rows) && ProbesInv(s.sched, s.probes)
    ensures KeepsInit(s, ApplySched(s, t), id)
  {
    hide Coherent, ListedSched, JudgedSched, RecordedProbes, StatusAgrees;
  }

  // ----- over runs -----

  lemma StartLeavesInstalls(s: State, t: StartStep, w: nat, job: Jobs.Job)
    requires Inv(s) && StartEnabled(s, t) && Has(ApplyStart(s, t), w, job)
    ensures Has(s, w, job) && ApplyStart(s, t).installs == s.installs && ApplyStart(s, t).rows == s.rows
  {
    LifecycleCancel.StartTokens(s, t);
    StartKeepsRows(s, t);
    hide Inv, ApplyStart, StartEnabled;
  }

  lemma StartKeepsRows(s: State, t: StartStep)
    requires StartEnabled(s, t)
    ensures ApplyStart(s, t).installs == s.installs && ApplyStart(s, t).rows == s.rows
  {
    hide Jobs.Apply, Jobs.Enabled;
  }

  /** What others do: the worker stands where it stood, and its row in init is left alone. */
  lemma OthersKeep(s: State, t: Step, s': State, w: nat, job: Jobs.Job)
    requires Inv(s) && Steps(s, t, s') && Has(s', w, job) && !(t.Installing? && t.work.w == w) && job.id in s.issued
    ensures Has(s, w, job) && s'.installs[w] == s.installs[w] && KeepsInit(s, s', job.id)
  {
    assert s.rows.Keys <= s.issued && ProbesInv(s.sched, s.probes);
    hide Inv, Coherent, Calms, ProbesInv, KeepsInit;
    hide ApplyCreate, ApplyDelete, ApplyWork, ApplySched, ApplyStart, ApplyStop, CreateEnabled, DeleteEnabled, WorkEnabled, SchedEnabled, StartEnabled, StopEnabled;
    match t
    case Creating(x) => CreateWorkers(s, x); CreateKeepsInit(s, x, job.id);
    case Deleting(x) => DeleteGate(s, x, ""); DeleteKeepsInit(s, x, job.id);
    case Installing(x) => OtherWorker(s, x, w, job);
    case Scheduling(x) => SchedGate(s, x); SchedKeepsInit(s, x, job.id);
    case Opening(x) => StartLeavesInstalls(s, x, w, job); SameKeepsInit(s, s', job.id);
    case Stopping(x) => StopWorkers(s, x); StopKeepsRows(s, x); SameKeepsInit(s, s', job.id);
  }

  lemma SameKeepsInit(s: State, s': State, id: Id)
    requires s'.rows == s.rows
    ensures KeepsInit(s, s', id)
  {}

  lemma StopKeepsRows(s: State, t: StopStep)
    requires StopEnabled(s, t)
    ensures ApplyStop(s, t).rows == s.rows
  {
    hide Jobs.Apply, Jobs.Enabled;
  }

  lemma HeldIsIssued(s: State, w: nat, job: Jobs.Job)
    requires Inv(s) && w in s.pool.workers && s.pool.workers[w].Running? && s.pool.workers[w].job == job
    ensures job.id in s.issued
  {
    hide TableInv, Jobs.PoolInv, PhasesInv, CachesInv, ProbesInv, CallsInv, CreatorsInv, DeletersInv, OwnersInv, FenceInv, StopInv;
    assert Ticketed(s.pool.workers[w].job, s.ticketOf);
  }

  /** Between the work and the mark of an install nothing gets lost: what the work gave is what will be marked healthy. */
  lemma {:induction false} RunCarries(installTimeout: int, states: seq<State>, steps: seq<Step>, n: nat, w: nat, job: Jobs.Job) returns (m: nat)
    requires IsRun(installTimeout, states, steps) && n < |states| == |steps| + 1 && PastWork(states[n], w, job)
    ensures m < n && steps[m].Installing? && steps[m].work.WorkDone? && steps[m].work.w == w
    ensures Has(states[m], w, job)
    ensures Carries(states[n], w, job, steps[m].work.attached, steps[m].work.probedAt)
  {
    hide IsRun, Inv, Steps, PastWork, Carries, Has;
    m := 0;
    RunLength(installTimeout, states, steps);
    if n == 0 {
      NobodyPastWork(installTimeout, w, job);
    } else {
      var s, t, s' := states[n - 1], steps[n - 1], states[n];
      RunInv(installTimeout, states, steps, n - 1);
      RunStep(installTimeout, states, steps, n - 1);
      if t.Installing? && t.work.w == w && t.work.WorkDone? {
        OwnStep(s, t, s', w, job, [], 0);
        m := n - 1;
      } else {
        EarlierPastWork(s, t, s', w, job);
        m := RunCarries(installTimeout, states, steps, n - 1, w, job);
        CarriesOn(s, t, s', w, job, steps[m].work.attached, steps[m].work.probedAt);
      }
    }
  }

  lemma NobodyPastWork(installTimeout: int, w: nat, job: Jobs.Job)
    ensures !PastWork(Initial(installTimeout), w, job)
  {}

  lemma OwnStep(s: State, t: Step, s': State, w: nat, job: Jobs.Job, attached: seq<Attached>, at: int)
    requires Inv(s) && Steps(s, t, s') && t.Installing? && t.work.w == w && PastWork(s', w, job)
    ensures t.work.WorkDone? ==>
      Has(s, w, job) && Carries(s', w, job, t.work.attached, t.work.probedAt)
    ensures !t.work.WorkDone? ==>
      PastWork(s, w, job) && (Carries(s, w, job, attached, at) ==> Carries(s', w, job, attached, at))
  {
    hide Inv, Coherent, WorkEnabled, ApplyWork, PastWork, Carries, Has;
    OwnWork(s, t.work, job, attached, at);
  }

  lemma EarlierPastWork(s: State, t: Step, s': State, w: nat, job: Jobs.Job)
    requires Inv(s) && Steps(s, t, s') && PastWork(s', w, job) && !(t.Installing? && t.work.w == w && t.work.WorkDone?)
    ensures PastWork(s, w, job)
  {
    hide Inv, Carries, KeepsInit, Steps, At;
    if t.Installing? && t.work.w == w {
      OwnStep(s, t, s', w, job, [], 0);
    } else {
      StillIssued(s, t, s', w, job);
      OthersKeep(s, t, s', w, job);
    }
  }

  /** The worker had the job before, so the id had been issued. */
  lemma StillIssued(s: State, t: Step, s': State, w: nat, job: Jobs.Job)
    requires Inv(s) && Steps(s, t, s') && Has(s', w, job) && !(t.Installing? && t.work.w == w)
    ensures job.id in s.issued
  {
    hide Inv, Coherent, Calms, Jobs.Apply;
    hide ApplyCreate, ApplyDelete, ApplyWork, ApplySched, ApplyStart, ApplyStop, CreateEnabled, DeleteEnabled, WorkEnabled, SchedEnabled, StartEnabled, StopEnabled;
    match t
    case Creating(x) => CreateWorkers(s, x); HeldIsIssued(s, w, job);
    case Deleting(x) => DeleteGate(s, x, ""); HeldIsIssued(s, w, job);
    case Installing(x) => OtherPhase(s, x, w); HeldIsIssued(s, w, job);
    case Scheduling(x) => SchedGate(s, x); HeldIsIssued(s, w, job);
    case Opening(x) => StartLeavesInstalls(s, x, w, job); HeldIsIssued(s, w, job);
    case Stopping(x) => StopWorkers(s, x); HeldIsIssued(s, w, job);
  }

  lemma CarriesOn(s: State, t: Step, s': State, w: nat, job: Jobs.Job, attached: seq<Attached>, at: int)
    requires Inv(s) && Steps(s, t, s') && PastWork(s', w, job) && !(t.Installing? && t.work.w == w && t.work.WorkDone?)
    requires Carries(s, w, job, attached, at)
    ensures Carries(s', w, job, attached, at)
  {
    hide Inv, Carries, KeepsInit, Steps, At;
    if t.Installing? && t.work.w == w {
      OwnStep(s, t, s', w, job, attached, at);
    } else {
      StillIssued(s, t, s', w, job);
      OthersKeep(s, t, s', w, job);
      StillCarries(s, s', w, job, attached, at);
    }
  }

  /** The steps of a worker that change the status of a row, and what they make of it. */
  lemma StatusChange(s: State, t: WorkStep, id: Id)
    requires Inv(s) && WorkEnabled(s, t) && id in s.rows && id in ApplyWork(s, t).rows
    requires ApplyWork(s, t).rows[id].status != s.rows[id].status
    ensures At(s, t.w, id) && s.rows[id].status == Init && (t.TryMark? || t.TryFail?)
    ensures t.TryMark? ==>
      && s.installs[t.w].Marking?
      && ApplyWork(s, t).rows[id] == s.rows[id].(status := Healthy, error := None, lastProbeAt := s.installs[t.w].probedAt)
    ensures t.TryFail? ==>
      && s.installs[t.w].Failing?
      && ApplyWork(s, t).rows[id] == s.rows[id].(status := Failed, error := Some(s.installs[t.w].failure), lastProbeAt := s.installs[t.w].probedAt)
  {
    hide Inv;
    match t
    case TryMark(w, retry) => MarkChange(s, w, retry, id);
    case TryFail(w, retry) => FailChange(s, w, retry, id);
    case TryUpdate(w, retry) => UpdateChange(s, w, retry, id);
    case _ => SameRows(s, t);
  }

  lemma SameRows(s: State, t: WorkStep)
    requires WorkEnabled(s, t) && !t.TryMark? && !t.TryFail? && !t.TryUpdate?
    ensures ApplyWork(s, t).rows == s.rows
  {
    hide AfterReload, ContextDone, Jobs.Apply, Jobs.Enabled;
  }

  lemma MarkChange(s: State, w: nat, retry: bool, id: Id)
    requires WorkEnabled(s, TryMark(w, retry)) && id in s.rows && ApplyWork(s, TryMark(w, retry)).rows != s.rows
    requires id in ApplyWork(s, TryMark(w, retry)).rows && ApplyWork(s, TryMark(w, retry)).rows[id] != s.rows[id]
    ensures At(s, w, id) && s.installs[w].Marking? && Open(s, id)
    ensures ApplyWork(s, TryMark(w, retry)).rows[id] == s.rows[id].(status := Healthy, error := None, lastProbeAt := s.installs[w].probedAt)
  {
    MarkOutcome(s, w, s.pool.workers[w].job.id, retry);
    hide ApplyWork;
  }

  lemma FailChange(s: State, w: nat, retry: bool, id: Id)
    requires WorkEnabled(s, TryFail(w, retry)) && id in s.rows
    requires id in ApplyWork(s, TryFail(w, retry)).rows && ApplyWork(s, TryFail(w, retry)).rows[id] != s.rows[id]
    ensures At(s, w, id) && s.installs[w].Failing? && Open(s, id)
    ensures ApplyWork(s, TryFail(w, retry)).rows[id] ==
      s.rows[id].(status := Failed, error := Some(s.installs[w].failure), lastProbeAt := s.installs[w].probedAt)
  {
    FailOutcome(s, w, s.pool.workers[w].job.id, retry);
    hide ApplyWork;
  }

  lemma UpdateChange(s: State, w: nat, retry: bool, id: Id)
    requires Inv(s) && WorkEnabled(s, TryUpdate(w, retry)) && id in s.rows
    ensures id in ApplyWork(s, TryUpdate(w, retry)).rows && ApplyWork(s, TryUpdate(w, retry)).rows[id].status == s.rows[id].status
  {
    hide Inv, WorkEnabled, ApplyWork, SameImmutable;
    Updates(s, w, retry);
    var x := s.pool.workers[w].job.id;
    LatestIsStored(s, w, x);
    UpdateOutcome(s, w, x, retry);
  }

  lemma WorkStepIs(s: State, t: Step, s': State)
    requires Steps(s, t, s') && t.Installing?
    ensures WorkEnabled(s, t.work) && s' == ApplyWork(s, t.work)
  {
    hide Coherent, WorkEnabled, ApplyWork;
  }

  /**
   A row that a worker made healthy was in init, and has the plugins and the probe time that worker's finished work
   on this very job gave, and no error.
   */
  lemma HealthyHasSource(installTimeout: int, states: seq<State>, steps: seq<Step>, n: nat, id: Id) returns (m: nat)
    requires IsRun(installTimeout, states, steps) && n < |steps| == |states| - 1 && steps[n].Installing?
    requires id in states[n].rows && states[n].rows[id].status != Healthy
    requires id in states[n + 1].rows && states[n + 1].rows[id].status == Healthy
    ensures var w := steps[n].work.w;
      && At(states[n], w, id) && states[n].rows[id].status == Init
      && m < n && steps[m].Installing? && steps[m].work.WorkDone? && steps[m].work.w == w && Has(states[m], w, states[n].pool.workers[w].job)
      && states[n + 1].rows[id] == states[n].rows[id].(status := Healthy, error := None, lastProbeAt := steps[m].work.probedAt)
      && states[n + 1].rows[id].plugins == steps[m].work.attached
  {
    hide IsRun, Inv, Steps;
    RunInv(installTimeout, states, steps, n);
    RunStep(installTimeout, states, steps, n);
    WorkStepIs(states[n], steps[n], states[n + 1]);
    hide WorkEnabled, ApplyWork;
    var t, w := steps[n].work, steps[n].work.w;
    StatusChange(states[n], t, id);
    m := RunCarries(installTimeout, states, steps, n, w, states[n].pool.workers[w].job);
  }

  // ----- where a failure comes from -----

  ghost predicate FailingWith(s: State, w: nat, job: Jobs.Job, failure: Failure, at: int) {
    Has(s, w, job) && s.installs[w].Failing? && s.installs[w].failure == failure && s.installs[w].probedAt == at
  }

  /** Why an install gives up: its work failed, its context had ended, or it could not read or write its row. */
  ghost predicate GivesUp(s: State, t: WorkStep, job: Jobs.Job, failure: Failure, at: int) {
    Has(s, t.w, job) &&
    match t
    case WorkFails(_, f, p) => f == failure && p == at
    case CheckContext(w) =>
      (s.pool.rootCancelled || s.pool.workers[w].token in s.pool.cancelled) && failure == Failure("shutdown", "install") && at == 0
    case Reload(_) => (s.repoClosed || job.id !in s.rows) && failure == Failure("install.error", "install") && at == 0
    case TryUpdate(_, retry) => !retry && !Open(s, job.id) && failure == Failure("install.error", "install") && at == 0
    case TryMark(_, retry) => !retry && (s.repoClosed || job.id !in s.rows) && failure == Failure("status.error", "status") && at == 0
    case _ => false
  }

  lemma FailsFrom(s: State, t: WorkStep, job: Jobs.Job, failure: Failure, at: int)
    requires Inv(s) && WorkEnabled(s, t) && FailingWith(ApplyWork(s, t), t.w, job, failure, at)
    ensures FailingWith(s, t.w, job, failure, at) || GivesUp(s, t, job, failure, at)
  {
    hide Inv;
    match t
    case CheckContext(w) => ContextOutcome(s, w, s.pool.workers[w].job.id); hide ApplyWork;
    case Reload(w) => ReloadOutcome(s, w, s.pool.workers[w].job.id); hide ApplyWork;
    case TryUpdate(w, retry) => UpdateFails(s, w, retry, job, failure, at);
    case TryMark(w, retry) => MarkOutcome(s, w, s.pool.workers[w].job.id, retry); hide ApplyWork;
    case TryFail(w, retry) => FailOutcome(s, w, s.pool.workers[w].job.id, retry); hide ApplyWork;
    case WorkFails(_, _, _) =>
    case WorkDone(_, _, _) =>
    case _ => NotFailing(s, t, job, failure, at);
  }

  lemma NotFailing(s: State, t: WorkStep, job: Jobs.Job, failure: Failure, at: int)
    requires WorkEnabled(s, t) && (t.DequeueJob? || t.QuitWorker? || t.LeaveWorker? || t.FinishJob? || t.CleanUp?)
    ensures !FailingWith(ApplyWork(s, t), t.w, job, failure, at)
  {}

  lemma UpdateFails(s: State, w: nat, retry: bool, job: Jobs.Job, failure: Failure, at: int)
    requires Inv(s) && WorkEnabled(s, TryUpdate(w, retry)) && FailingWith(ApplyWork(s, TryUpdate(w, retry)), w, job, failure, at)
    ensures GivesUp(s, TryUpdate(w, retry), job, failure, at)
  {
    hide Inv, WorkEnabled, ApplyWork, SameImmutable;
    Updates(s, w, retry);
    var id := s.pool.workers[w].job.id;
    LatestIsStored(s, w, id);
    UpdateOutcome(s, w, id, retry);
  }

  lemma EarlierFailing(s: State, t: Step, s': State, w: nat, job: Jobs.Job, failure: Failure, at: int)
    requires Inv(s) && Steps(s, t, s') && FailingWith(s', w, job, failure, at)
    ensures FailingWith(s, w, job, failure, at) || (t.Installing? && t.work.w == w && GivesUp(s, t.work, job, failure, at))
  {
    hide Inv, KeepsInit, Steps, At;
    if t.Installing? && t.work.w == w {
      WorkStepIs(s, t, s');
      hide WorkEnabled, ApplyWork, GivesUp, FailingWith;
      FailsFrom(s, t.work, job, failure, at);
    } else {
      StillIssued(s, t, s', w, job);
      OthersKeep(s, t, s', w, job);
    }
  }

  lemma NobodyFailing(installTimeout: int, w: nat, job: Jobs.Job, failure: Failure, at: int)
    ensures !FailingWith(Initial(installTimeout), w, job, failure, at)
  {}

  lemma {:induction false} RunFails(installTimeout: int, states: seq<State>, steps: seq<Step>, n: nat, w: nat, job: Jobs.Job, failure: Failure, at: int)
    returns (m: nat)
    requires IsRun(installTimeout, states, steps) && n < |states| == |steps| + 1 && FailingWith(states[n], w, job, failure, at)
    ensures m < n && steps[m].Installing? && steps[m].work.w == w && GivesUp(states[m], steps[m].work, job, failure, at)
  {
    hide IsRun, Inv, Steps, FailingWith, GivesUp;
    m := if n > 0 then n - 1 else 0;
    RunLength(installTimeout, states, steps);
    NobodyFailing(installTimeout, w, job, failure, at);
    if n > 0 {
      RunInv(installTimeout, states, steps, n - 1);
      RunStep(installTimeout, states, steps, n - 1);
      EarlierFailing(states[n - 1], steps[n - 1], states[n], w, job, failure, at);
      if FailingWith(states[n - 1], w, job, failure, at) {
        m := RunFails(installTimeout, states, steps, n - 1, w, job, failure, at);
      }
    }
  }

  /** A row that a worker failed was in init, and carries the failure that made this worker give up this very job. */
  lemma FailedHasSource(installTimeout: int, states: seq<State>, steps: seq<Step>, n: nat, id: Id) returns (m: nat)
    requires IsRun(installTimeout, states, steps) && n < |steps| == |states| - 1 && steps[n].Installing?
    requires id in states[n].rows && states[n].rows[id].status != Failed
    requires id in states[n + 1].rows && states[n + 1].rows[id].status == Failed && states[n + 1].rows[id].error.Some?
    ensures var w, row := steps[n].work.w, states[n + 1].rows[id];
      && At(states[n], w, id) && states[n].rows[id].status == Init
      && m < n && steps[m].Installing? && steps[m].work.w == w
      && GivesUp(states[m], steps[m].work, states[n].pool.workers[w].job, row.error.value, row.lastProbeAt)
      && row == states[n].rows[id].(status := Failed, error := row.error, lastProbeAt := row.lastProbeAt)
  {
    hide IsRun, Inv, Steps, GivesUp;
    RunInv(installTimeout, states, steps, n);
    RunStep(installTimeout, states, steps, n);
    WorkStepIs(states[n], steps[n], states[n + 1]);
    hide WorkEnabled, ApplyWork;
    var t, w := steps[n].work, steps[n].work.w;
    StatusChange(states[n], t, id);
    m := RunFails(installTimeout, states, steps, n, w, states[n].pool.workers[w].job, states[n].installs[w].failure, states[n].installs[w].probedAt);
  }
}
