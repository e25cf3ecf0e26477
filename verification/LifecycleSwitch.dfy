/** Starting and stopping: the exact outcome of each step, a Start from end to end, and what the answer of Stop means. */
module LifecycleSwitch {
  import opened Workspaces
  import opened Lifecycle
  import opened LifecycleInv
  import opened LifecycleTheorems
  import opened LifecycleHistory
  import Jobs = InstallPool

  // ----- Start -----

  lemma SwitchesOn(s: State, ts: seq<Step>, m: State, t: StartStep)
    requires Leads(s, ts, m) && Coherent(m.rows) && StartEnabled(m, t)
    ensures Leads(s, ts + [Opening(t)], ApplyStart(m, t))
  {
    hide Leads, Coherent, StartEnabled, ApplyStart;
    StartStepIs(m, t);
    hide Steps;
    LeadsThen(s, ts, m, Opening(t), ApplyStart(m, t));
  }

  lemma StartStepIs(m: State, t: StartStep)
    requires Coherent(m.rows) && StartEnabled(m, t)
    ensures Steps(m, Opening(t), ApplyStart(m, t))
  {
    hide Coherent, StartEnabled, ApplyStart;
  }

  /** The pool of a first start: n workers, all waiting, and jobs are accepted. */
  ghost predicate OpenedWith(p: Jobs.Pool, q: Jobs.Pool, n: nat) {
    && q == p.(started := true, workers := q.workers, workersRemaining := n)
    && (forall w: nat :: w in q.workers <==> w < n) && (forall w :: w in q.workers ==> q.workers[w] == Jobs.Waiting)
  }

  /** A first Start, undisturbed: the workers wait for jobs and the scheduler loop runs. */
  lemma StartAlone(s: State, c: nat, n: nat) returns (d: State)
    requires Coherent(s.rows) && s.stop == NoStop && c !in s.starts && n > 0
    requires !s.pool.started && !s.pool.stopped && s.sched == SchedOff && !s.schedStopped
    ensures Leads(s, [] + [Opening(StartCheck(c))] + [Opening(StartPool(c, n))] + [Opening(StartScheduler(c))], d)
    ensures d == s.(pool := d.pool, sched := SchedIdle) && OpenedWith(s.pool, d.pool, n)
  {
    hide Leads, Coherent;
    NothingLeads(s);
    SwitchesOn(s, [], s, StartCheck(c));
    var s1 := ApplyStart(s, StartCheck(c));
    var ts := [] + [Opening(StartCheck(c))];
    SwitchesOn(s, ts, s1, StartPool(c, n));
    var s2 := ApplyStart(s1, StartPool(c, n));
    SwitchesOn(s, ts + [Opening(StartPool(c, n))], s2, StartScheduler(c));
    d := ApplyStart(s2, StartScheduler(c));
    assert s.starts[c := StartChecked][c := StartHalf] - {c} == s.starts;
  }

  /** A Start that finds the scheduler stopped closes the pool it has just opened, and cancels it. */
  lemma StartUndone(s: State, c: nat) returns (d: State)
    requires Coherent(s.rows) && c in s.starts && s.starts[c] == StartHalf && s.schedStopped && !s.pool.stopped
    ensures Leads(s, [] + [Opening(StartScheduler(c))] + [Opening(StartUndo(c))] + [Opening(StartCancel(c))], d)
    ensures d == s.(pool := s.pool.(stopped := true, rootCancelled := true), starts := s.starts - {c})
  {
    hide Leads, Coherent;
    NothingLeads(s);
    SwitchesOn(s, [], s, StartScheduler(c));
    var s1 := ApplyStart(s, StartScheduler(c));
    var ts := [] + [Opening(StartScheduler(c))];
    SwitchesOn(s, ts, s1, StartUndo(c));
    var s2 := ApplyStart(s1, StartUndo(c));
    SwitchesOn(s, ts + [Opening(StartUndo(c))], s2, StartCancel(c));
    d := ApplyStart(s2, StartCancel(c));
    assert s.starts[c := StartAborting][c := StartCancelling] - {c} == s.starts - {c};
  }

  /** A controller that is stopped refuses a Start, one that runs is left alone. */
  lemma StartPoolOutcome(s: State, c: nat, n: nat)
    requires n > 0 && c in s.starts && s.starts[c] == StartChecked
    ensures StartEnabled(s, StartPool(c, n))
    ensures s.pool.stopped ==> ApplyStart(s, StartPool(c, n)) == s.(starts := s.starts - {c})
    ensures !s.pool.stopped && s.pool.started ==> ApplyStart(s, StartPool(c, n)) == s.(starts := s.starts[c := StartHalf])
    ensures !s.pool.stopped && !s.pool.started ==>
      var d := ApplyStart(s, StartPool(c, n));
      d == s.(pool := d.pool, starts := s.starts[c := StartHalf]) && OpenedWith(s.pool, d.pool, n)
  {}

  /** The other steps of Start: so with the scheduler, whose refusal is undone. */
  lemma StartOutcome(s: State, c: nat)
    ensures StartEnabled(s, StartCheck(c)) <==> s.stop == NoStop && c !in s.starts
    ensures c !in s.starts && s.stop == NoStop ==> ApplyStart(s, StartCheck(c)) == s.(starts := s.starts[c := StartChecked])
    ensures c in s.starts && s.starts[c] == StartHalf ==>
      && StartEnabled(s, StartScheduler(c))
      && ApplyStart(s, StartScheduler(c)) ==
         (if s.schedStopped then s.(starts := s.starts[c := StartAborting])
          else if s.sched == SchedOff then s.(starts := s.starts - {c}, sched := SchedIdle)
          else s.(starts := s.starts - {c}))
    ensures c in s.starts && s.starts[c] == StartAborting ==>
      && StartEnabled(s, StartUndo(c))
      && ApplyStart(s, StartUndo(c)) ==
         s.(pool := s.pool.(stopped := true), starts := if s.pool.stopped then s.starts - {c} else s.starts[c := StartCancelling])
    ensures c in s.starts && s.starts[c] == StartCancelling ==>
      StartEnabled(s, StartCancel(c)) && ApplyStart(s, StartCancel(c)) == s.(pool := s.pool.(rootCancelled := true), starts := s.starts - {c})
  {}

  // ----- Stop -----

  /** The stages of the performing Stop, in their order; each wait is met by what it waits for, or times out. */
  lemma StopOutcome(s: State, ok: bool)
    ensures s.stop == NoStop ==> StopEnabled(s, StopBegin) && ApplyStop(s, StopBegin) == s.(stop := StopFlagged)
    ensures s.stop == StopFlagged ==>
      && StopEnabled(s, StopScheduler)
      && ApplyStop(s, StopScheduler) == s.(schedStopped := true, stop := if s.sched == SchedOff then PoolStop(false) else SchedWait)
    ensures s.stop == SchedWait ==>
      && (StopEnabled(s, StopSchedWaited(ok)) <==> (ok ==> s.sched == SchedExited))
      && (StopEnabled(s, StopSchedWaited(ok)) ==> ApplyStop(s, StopSchedWaited(ok)) == s.(stop := PoolStop(!ok)))
    ensures s.stop.PoolStop? ==>
      && StopEnabled(s, StopPool)
      && ApplyStop(s, StopPool) == s.(pool := s.pool.(stopped := true),
           stop := if !s.pool.started then ApiWait(s.stop.bad) else if s.pool.stopped then PoolWait(s.stop.bad) else PoolCancel(s.stop.bad))
    ensures s.stop.PoolCancel? ==>
      StopEnabled(s, StopCancel) && ApplyStop(s, StopCancel) == s.(pool := s.pool.(rootCancelled := true), stop := PoolWait(s.stop.bad))
    ensures s.stop.PoolWait? ==>
      && (StopEnabled(s, StopPoolWaited(ok)) <==> (ok ==> s.pool.doneCloses > 0))
      && (StopEnabled(s, StopPoolWaited(ok)) ==> ApplyStop(s, StopPoolWaited(ok)) == s.(stop := ApiWait(s.stop.bad || !ok)))
    ensures s.stop.ApiWait? ==>
      && (StopEnabled(s, StopApiWaited(ok)) <==> (ok ==> s.apiCount == 0))
      && (StopEnabled(s, StopApiWaited(ok)) ==> ApplyStop(s, StopApiWaited(ok)) == s.(stop := Closing(s.stop.bad || !ok)))
    ensures s.stop.Closing? ==>
      StopEnabled(s, StopClose) && ApplyStop(s, StopClose) == s.(repoClosed := true, stop := Ending(s.stop.bad))
    ensures s.stop.Ending? ==> StopEnabled(s, StopEnd) && ApplyStop(s, StopEnd) == s.(stop := Ended(!s.stop.bad))
  {}

  /** Some wait of Stop has timed out. */
  predicate TimedOutStep(t: Step) {
    t == Stopping(StopSchedWaited(false)) || t == Stopping(StopPoolWaited(false)) || t == Stopping(StopApiWaited(false))
  }

  lemma StopRemembers(s: State, t: StopStep)
    requires StopEnabled(s, t)
    ensures Clean(ApplyStop(s, t).stop) <==> Clean(s.stop) && !TimedOutStep(Stopping(t))
  {}

  lemma OthersLeaveStop(s: State, t: Step, s': State)
    requires Steps(s, t, s') && !t.Stopping?
    ensures s'.stop == s.stop
  {
    hide Coherent, Calms, SameGate, CanAccept;
    hide ApplyCreate, ApplyDelete, ApplyWork, ApplySched, ApplyStart, CreateEnabled, DeleteEnabled, WorkEnabled, SchedEnabled, StartEnabled;
    match t
    case Creating(x) => CreateGate(s, x); SameGateStop(s, s', x);
    case Deleting(x) => DeleteGate(s, x, "");
    case Installing(x) => WorkGate(s, x, "");
    case Scheduling(x) => SchedGate(s, x); GateStop(s, s');
    case Opening(x) => StartStop(s, x);
  }

  lemma GateStop(s: State, s': State)
    requires SameGate(s, s')
    ensures s'.stop == s.stop
  {}

  lemma SameGateStop(s: State, s': State, t: CreateStep)
    requires SameGate(s, s') || exists q :: SameGate(s.(pool := q), s')
    ensures s'.stop == s.stop
  {}

  lemma StartStop(s: State, t: StartStep)
    requires StartEnabled(s, t)
    ensures ApplyStart(s, t).stop == s.stop
  {
    hide Jobs.Apply, Jobs.Enabled;
  }

  lemma StepRemembersStop(s: State, t: Step, s': State)
    requires Steps(s, t, s')
    ensures Clean(s'.stop) <==> Clean(s.stop) && !TimedOutStep(t)
  {
    hide Coherent, Clean, ApplyStop, StopEnabled;
    if t.Stopping? {
      StopStepIs(s, t, s');
      StopRemembers(s, t.stop);
    } else {
      hide Steps;
      OthersLeaveStop(s, t, s');
    }
  }

  lemma StopStepIs(s: State, t: Step, s': State)
    requires Steps(s, t, s') && t.Stopping?
    ensures StopEnabled(s, t.stop) && s' == ApplyStop(s, t.stop)
  {
    hide Coherent, StopEnabled, ApplyStop;
  }

  lemma {:induction false} RunRemembersStop(installTimeout: int, states: seq<State>, steps: seq<Step>, n: nat)
    requires IsRun(installTimeout, states, steps) && n < |states| == |steps| + 1
    ensures Clean(states[n].stop) <==> forall k :: 0 <= k < n ==> !TimedOutStep(steps[k])
  {
    hide Steps, IsRun, Clean, TimedOutStep;
    RunLength(installTimeout, states, steps);
    if n > 0 {
      RunRemembersStop(installTimeout, states, steps, n - 1);
      RunStep(installTimeout, states, steps, n - 1);
      StepRemembersStop(states[n - 1], steps[n - 1], states[n]);
    } else {
      InitiallyClean(installTimeout);
    }
  }

  lemma InitiallyClean(installTimeout: int)
    ensures Clean(Initial(installTimeout).stop)
  {}

  /** Stop returns nil exactly when none of its waits has timed out. */
  lemma StopAnswersExactly(installTimeout: int, states: seq<State>, steps: seq<Step>, n: nat)
    requires IsRun(installTimeout, states, steps) && n < |states| == |steps| + 1 && states[n].stop.Ended?
    ensures states[n].stop.ok <==>
      forall k :: 0 <= k < n ==>
        steps[k] !in {Stopping(StopSchedWaited(false)), Stopping(StopPoolWaited(false)), Stopping(StopApiWaited(false))}
  {
    hide Steps, IsRun;
    RunRemembersStop(installTimeout, states, steps, n);
  }
}
